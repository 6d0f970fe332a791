/** The multimedia chat route's message preparation: when the request carries an image,
    the last message is rebuilt so that its content becomes a list of parts ending with
    the image.

    Parsing the request is outside the model: the messages and the image value are
    parameters. */
module MultimediaMessages {
  import opened Wrappers

  /** The image value of the request: a string, or some other value that is present.
      `truthy` says whether JavaScript counts the other value as true (`0` and `false` do
      not). */
  datatype ImageInput = ImageString(s: string) | ImageOther(tag: string, truthy: bool)

  /** What the image part holds: a parsed URL, or the request's value passed through. */
  datatype Image = Url(href: string) | AsGiven(input: ImageInput)

  datatype Part = TextPart(text: string) | ImagePart(image: Image) | OtherPart(kind: string)

  /** A message's content: a string, a list of parts, or anything else. */
  datatype Content = Plain(text: string) | Parts(parts: seq<Part>) | NoContent

  datatype Message = Message(role: Option<string>, content: Content)

  function StartsWithHttp(s: string): bool {
    |s| >= 4 && s[..4] == "http"
  }

  /** Strings starting with `http` become URLs; everything else is kept as it came. */
  function ImageOf(input: ImageInput): (img: Image)
    ensures img.Url? <==> input.ImageString? && StartsWithHttp(input.s)
    ensures img.Url? ==> img.href == input.s
    ensures img.AsGiven? ==> img.input == input
  {
    if input.ImageString? && StartsWithHttp(input.s) then Url(input.s) else AsGiven(input)
  }

  /** `data?.imageUrl` is truthy: present, and neither the empty string nor another falsy
      value. */
  predicate HasImage(image: Option<ImageInput>) {
    image.Some? && match image.value
                   case ImageString(s) => s != ""
                   case ImageOther(_, truthy) => truthy
  }

  /** Without an image the messages are returned as they are. With one, the last message
      gets its role (`user` when it has none) and, as content, its text as a text part or
      its own parts, followed by the image. Reading the last message of an empty list
      fails. */
  method ProcessIncomingMessages(messages: seq<Message>, image: Option<ImageInput>) returns (r: Result<seq<Message>>)
    ensures !HasImage(image) ==> r == Ok(messages)
    ensures HasImage(image) && messages == [] ==> r == Err("Cannot read properties of undefined (reading 'content')")
    ensures HasImage(image) && messages != [] ==>
      var last := messages[|messages| - 1];
      && r.Ok? && |r.value| == |messages|
      && r.value[..|messages| - 1] == messages[..|messages| - 1]
      && r.value[|messages| - 1].role == Some(if last.role.Some? && last.role.value != "" then last.role.value else "user")
      && r.value[|messages| - 1].content.Parts?
      && var parts := r.value[|messages| - 1].content.parts;
         && |parts| >= 1 && parts[|parts| - 1] == ImagePart(ImageOf(image.value))
         && parts[..|parts| - 1] == match last.content
                                    case Plain(t) => [TextPart(t)]
                                    case Parts(ps) => ps
                                    case NoContent => []
  {
    if !HasImage(image) {
      return Ok(messages);
    }
    if messages == [] {
      return Err("Cannot read properties of undefined (reading 'content')");
    }
    var last := messages[|messages| - 1];
    var content: seq<Part> := [];
    if last.content.Plain? {
      content := content + [TextPart(last.content.text)];
    } else if last.content.Parts? {
      content := content + last.content.parts;
    }
    content := content + [ImagePart(ImageOf(image.value))];
    var role := if last.role.Some? && last.role.value != "" then last.role.value else "user";
    r := Ok(messages[..|messages| - 1] + [Message(Some(role), Parts(content))]);
  }
}
