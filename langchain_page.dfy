/** The text the LangChain MCP chat page shows for a message. A user message shows the
    text of its parts; any other message shows the contents of its fact parts, leaving out
    those that echo the user. */
module LangchainPage {
  import opened Wrappers
  import opened Text

  /** What the page reads of a part: its type, `text`, `id` and `data?.content`. */
  datatype Part = Part(kind: string, text: Option<string>, id: Option<string>, content: Option<string>)

  datatype Message = Message(role: string, parts: Option<seq<Part>>)

  /** A value kept by `filter(Boolean)`: present and not empty. */
  predicate Truthy(s: Option<string>) {
    s.Some? && s.value != ""
  }

  /** The truthy values, in order. */
  function Kept(xs: seq<Option<string>>): (r: seq<string>)
    ensures |r| <= |xs|
    ensures forall s :: s in r <==> Some(s) in xs && s != ""
  {
    if xs == [] then []
    else (if Truthy(xs[0]) then [xs[0].value] else []) + Kept(xs[1..])
  }

  /** `filter(Boolean)` works element by element: the kept values of two lists in a row
      are those of the first followed by those of the second. With KeptOne this fixes the result's
      order and multiplicity. */
  lemma {:induction false} KeptAppend(a: seq<Option<string>>, b: seq<Option<string>>)
    ensures Kept(a + b) == Kept(a) + Kept(b)
  {
    if a == [] {
      assert a + b == b;
    } else {
      assert (a + b)[0] == a[0] && (a + b)[1..] == a[1..] + b;
      KeptAppend(a[1..], b);
    }
  }

  /** One value is kept alone exactly when it is truthy. */
  lemma KeptOne(x: Option<string>)
    ensures Kept([x]) == if Truthy(x) then [x.value] else []
  {
    assert [x][1..] == [];
  }

  function TextsOf(parts: seq<Part>): (r: seq<Option<string>>)
    ensures |r| == |parts| && forall i :: 0 <= i < |parts| ==> r[i] == parts[i].text
  {
    seq(|parts|, i requires 0 <= i < |parts| => parts[i].text)
  }

  /** A part the page shows for a non-user message. */
  predicate FactFromModel(p: Part)
    requires p.kind == "data-norris-fact" ==> p.id.Some?
  {
    p.kind == "data-norris-fact" && !EndsWith(p.id.value, "-user")
  }

  /** The `data.content` of the fact parts that do not echo the user, in part order. An
      id-less fact part makes `endsWith` fail. */
  function FactContents(parts: seq<Part>): (r: Result<seq<Option<string>>>)
    ensures r.Err? <==> exists i :: 0 <= i < |parts| && parts[i].kind == "data-norris-fact" && parts[i].id.None?
    ensures r.Err? ==> r.message == "Cannot read properties of undefined (reading 'endsWith')"
    ensures r.Ok? ==> forall c :: c in r.value <==>
      exists i :: 0 <= i < |parts| && FactFromModel(parts[i]) && parts[i].content == c
  {
    if parts == [] then Ok([])
    else
      var p := parts[0];
      assert forall i :: 1 <= i < |parts| ==> parts[i] == parts[1..][i - 1];
      if p.kind == "data-norris-fact" && p.id.None? then Err("Cannot read properties of undefined (reading 'endsWith')")
      else match FactContents(parts[1..])
        case Err(e) => Err(e)
        case Ok(rest) => Ok((if FactFromModel(p) then [p.content] else []) + rest)
  }

  /** `getMessageContent`. */
  function GetMessageContent(msg: Message): (r: Result<string>)
    ensures msg.parts.None? ==> r == Ok("")
    ensures msg.parts.Some? && msg.role == "user" ==> r == Ok(Join(Kept(TextsOf(msg.parts.value)), "\n"))
    ensures msg.parts.Some? && msg.role != "user" ==>
      match FactContents(msg.parts.value)
      case Err(e) => r == Err(e)
      case Ok(cs) => r == Ok(Join(Kept(cs), "\n"))
  {
    if msg.parts.None? then Ok("")
    else if msg.role == "user" then Ok(Join(Kept(TextsOf(msg.parts.value)), "\n"))
    else match FactContents(msg.parts.value)
      case Err(e) => Err(e)
      case Ok(cs) => Ok(Join(Kept(cs), "\n"))
  }

  /** For a user message, every part's text counts, whatever the part's type. */
  lemma UserTextsOfAnyType(msg: Message, i: nat)
    requires msg.role == "user" && msg.parts.Some? && i < |msg.parts.value|
    requires Truthy(msg.parts.value[i].text)
    ensures GetMessageContent(msg).Ok?
    ensures OccursIn(GetMessageContent(msg).value, msg.parts.value[i].text.value)
  {
    var kept := Kept(TextsOf(msg.parts.value));
    assert msg.parts.value[i].text.value in kept;
    var k :| 0 <= k < |kept| && kept[k] == msg.parts.value[i].text.value;
    JoinHasParts(kept, "\n");
  }

  /** Parts whose facts all echo the user yield no fact contents. */
  lemma {:induction false} EchoesYieldNoFacts(parts: seq<Part>)
    requires forall i :: 0 <= i < |parts| && parts[i].kind == "data-norris-fact" ==>
      parts[i].id.Some? && EndsWith(parts[i].id.value, "-user")
    ensures FactContents(parts) == Ok([])
  {
    if parts != [] {
      assert forall i :: 1 <= i < |parts| ==> parts[1..][i - 1] == parts[i];
      EchoesYieldNoFacts(parts[1..]);
      var p := parts[0];
      assert p.kind == "data-norris-fact" ==> p.id.Some? && EndsWith(p.id.value, "-user");
      assert !FactFromModel(p);
      var none: seq<Option<string>> := [];
      assert FactContents(parts[1..]) == Ok(none);
      assert FactContents(parts) == Ok(none + none);
      assert none + none == none;
    }
  }

  /** A non-user message whose fact parts all echo the user shows nothing. */
  lemma EchoesShowNothing(msg: Message)
    requires msg.role != "user" && msg.parts.Some?
    requires forall i :: 0 <= i < |msg.parts.value| && msg.parts.value[i].kind == "data-norris-fact" ==>
      msg.parts.value[i].id.Some? && EndsWith(msg.parts.value[i].id.value, "-user")
    ensures GetMessageContent(msg) == Ok("")
  {
    EchoesYieldNoFacts(msg.parts.value);
    assert Kept([]) == [];
  }
}
