/** The text a chat bubble shows for a message of the MCP chat client: the message's own
    content when it has any visible character, otherwise the text gathered from its parts,
    tool outputs included.

    A message part is modelled by what the extraction reads of it: its type, its `text`
    and the `content` of its `output`. */
module ChatListText {
  import opened Wrappers
  import opened Text

  /** A part's `output?.content`: missing or falsy, an array of parts, or some other value
      that is present. */
  datatype OutputContent = NoOutput | Items(parts: seq<UiPart>) | OtherValue

  /** A message part; `Missing` is a `null` entry of the array. */
  datatype UiPart = Missing | UiPart(kind: string, text: Option<string>, output: OutputContent)

  /** What one part adds to the running text. */
  function Contribution(p: UiPart): string
    decreases p, 1
  {
    match p
    case Missing => ""
    case UiPart(kind, text, output) =>
      if kind == "text" && text.Some? && text.value != "" then text.value + " "
      else if kind == "dynamic-tool" && output != NoOutput then Extract(output) + " "
      else if output.Items? then Extract(output) + " "
      else ""
  }

  /** The running text after the given parts, before trimming. */
  function Raw(parts: seq<UiPart>): string
    decreases parts, 0
  {
    if parts == [] then ""
    else Raw(parts[..|parts| - 1]) + Contribution(parts[|parts| - 1])
  }

  /** `extractTextFromParts`: nothing unless given an array; otherwise the trimmed
      running text. */
  function Extract(c: OutputContent): (r: string)
    decreases c, 2
    ensures !c.Items? ==> r == ""
    ensures r == [] || (!IsSpace(r[0]) && !IsSpace(r[|r| - 1]))
  {
    if c.Items? then Trim(Raw(c.parts)) else ""
  }

  /** The extraction as the component runs it: a loop over the parts that appends each
      contribution, descending into tool outputs. */
  method ExtractTextFromParts(c: OutputContent) returns (text: string)
    ensures text == Extract(c)
    decreases c, 1
  {
    if !c.Items? {
      return "";
    }
    var parts := c.parts;
    var acc := "";
    var i := 0;
    while i < |parts|
      invariant 0 <= i <= |parts|
      invariant acc == Raw(parts[..i])
    {
      assert parts[..i + 1][..i] == parts[..i];
      var piece := PartText(parts[i]);
      acc := acc + piece;
      i := i + 1;
    }
    assert parts[..|parts|] == parts;
    text := Trim(acc);
  }

  /** One turn of the loop: what a part adds. */
  method PartText(p: UiPart) returns (piece: string)
    ensures piece == Contribution(p)
    decreases p, 0
  {
    if p.Missing? {
      piece := "";
    } else if p.kind == "text" && p.text.Some? && p.text.value != "" {
      piece := p.text.value + " ";
    } else if (p.kind == "dynamic-tool" && p.output != NoOutput) || p.output.Items? {
      var inner := ExtractTextFromParts(p.output);
      piece := inner + " ";
    } else {
      piece := "";
    }
  }

  /** A text part that has text. */
  predicate IsTextPart(p: UiPart) {
    p.UiPart? && p.kind == "text" && p.text.Some? && p.text.value != ""
  }

  function TextOf(p: UiPart): string {
    if p.UiPart? && p.text.Some? then p.text.value else ""
  }

  function Texts(parts: seq<UiPart>): (ts: seq<string>)
    requires forall i :: 0 <= i < |parts| ==> IsTextPart(parts[i])
    ensures |ts| == |parts|
    ensures forall i :: 0 <= i < |parts| ==> ts[i] == TextOf(parts[i])
  {
    seq(|parts|, i requires 0 <= i < |parts| => TextOf(parts[i]))
  }

  /** Text parts each add their text and one space. */
  lemma {:induction false} RawOfTexts(parts: seq<UiPart>)
    requires |parts| >= 1
    requires forall i :: 0 <= i < |parts| ==> IsTextPart(parts[i])
    ensures Raw(parts) == Join(Texts(parts), " ") + " "
  {
    var init := parts[..|parts| - 1];
    var last := TextOf(parts[|parts| - 1]);
    if |parts| == 1 {
      assert Raw(init) == "";
    } else {
      RawOfTexts(init);
      assert Texts(parts) == Texts(init) + [last];
      JoinAppend(Texts(init), last, " ");
    }
  }

  /** A non-empty text whose first and last characters are not white space. */
  predicate VisibleEnds(s: string) {
    s != [] && !IsSpace(s[0]) && !IsSpace(s[|s| - 1])
  }

  /** Trimming a single trailing space off a text that starts and ends visibly. */
  lemma TrimPadded(s: string)
    requires VisibleEnds(s)
    ensures Trim(s + " ") == s
  {
    var p := s + " ";
    var r := Trim(p);
    assert p[0] == s[0];
    assert LeadingSpace(p) == 0;
    assert p[|s|] == ' ' && IsSpace(' ');
    assert p[|s| - 1] == s[|s| - 1];
    assert |r| == |s|;
    assert r == p[..|s|] == s;
  }

  /** Texts that start and end visibly come out separated by single spaces, in order. */
  lemma TextPartsJoined(parts: seq<UiPart>)
    requires |parts| >= 1
    requires forall i :: 0 <= i < |parts| ==> IsTextPart(parts[i])
    requires forall i :: 0 <= i < |parts| ==>
      VisibleEnds(TextOf(parts[i]))
    ensures Extract(Items(parts)) == Join(Texts(parts), " ")
  {
    RawOfTexts(parts);
    var j := Join(Texts(parts), " ");
    JoinEnds(Texts(parts), " ");
    TrimPadded(j);
  }

  /** A join of pieces that start and end visibly starts and ends visibly. */
  lemma {:induction false} JoinEnds(ts: seq<string>, sep: string)
    requires |ts| >= 1
    requires forall i :: 0 <= i < |ts| ==> VisibleEnds(ts[i])
    ensures VisibleEnds(Join(ts, sep))
  {
    if |ts| > 1 {
      var init := ts[..|ts| - 1];
      JoinEnds(init, sep);
      var j := Join(init, sep);
      assert Join(ts, sep) == j + sep + ts[|ts| - 1];
      assert init[0] == ts[0];
    }
  }

  /** The bubble's text: the message content when it has a visible character, else the
      parts' text. */
  function DisplayedText(content: Option<string>, parts: OutputContent): (text: string)
    ensures content.Some? && (exists i :: 0 <= i < |content.value| && !IsSpace(content.value[i])) ==>
      text == content.value
    ensures content.None? || (forall i :: 0 <= i < |content.value| ==> IsSpace(content.value[i])) ==>
      text == Extract(parts)
  {
    if content.None? then Extract(parts)
    else
      TrimEmptyIff(content.value);
      if Trim(content.value) != "" then content.value else Extract(parts)
  }
}
