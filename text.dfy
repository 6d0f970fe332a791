/** String helpers standing for the JavaScript string methods the core relies on:
    `toLowerCase`, `toUpperCase`, `startsWith`, `endsWith`, `includes`, `indexOf`,
    `trim` and `Array.prototype.join`. Case mapping covers ASCII letters only. */
module Text {
  import opened Wrappers

  /** The characters JavaScript's `trim` and the regular-expression class `\s` treat as
      white space: the ASCII ones, the byte-order mark, the line and paragraph separators
      and the Unicode space separators. */
  predicate IsSpace(c: char) {
    || c == ' ' || '\t' <= c <= '\r' || c == '\U{00A0}' || c == '\U{1680}'
    || '\U{2000}' <= c <= '\U{200A}' || c == '\U{2028}' || c == '\U{2029}'
    || c == '\U{202F}' || c == '\U{205F}' || c == '\U{3000}' || c == '\U{FEFF}'
  }

  predicate IsDigit(c: char) { '0' <= c <= '9' }

  predicate IsUpperAscii(c: char) { 'A' <= c <= 'Z' }
  predicate IsLowerAscii(c: char) { 'a' <= c <= 'z' }

  function LowerChar(c: char): char {
    if IsUpperAscii(c) then (c as int + 32) as char else c
  }

  function UpperChar(c: char): char {
    if IsLowerAscii(c) then (c as int - 32) as char else c
  }

  /** `s.toLowerCase()` on ASCII letters. */
  function Lower(s: string): (r: string)
    ensures |r| == |s|
    ensures forall i :: 0 <= i < |s| ==> r[i] == LowerChar(s[i])
  {
    seq(|s|, i requires 0 <= i < |s| => LowerChar(s[i]))
  }

  /** `s.toUpperCase()` on ASCII letters. */
  function Upper(s: string): (r: string)
    ensures |r| == |s|
    ensures forall i :: 0 <= i < |s| ==> r[i] == UpperChar(s[i])
  {
    seq(|s|, i requires 0 <= i < |s| => UpperChar(s[i]))
  }

  lemma UpperHasNoLowerAscii(s: string)
    ensures forall i :: 0 <= i < |Upper(s)| ==> !IsLowerAscii(Upper(s)[i])
  {
  }

  predicate StartsWith(s: string, prefix: string) {
    |prefix| <= |s| && s[..|prefix|] == prefix
  }

  predicate EndsWith(s: string, suffix: string) {
    |suffix| <= |s| && s[|s| - |suffix|..] == suffix
  }

  predicate OccursAt(s: string, pattern: string, i: int) {
    0 <= i && i + |pattern| <= |s| && s[i..i + |pattern|] == pattern
  }

  /** `s.indexOf(pattern, from)`: the first occurrence at or after `from`. */
  function IndexOfFrom(s: string, pattern: string, from: nat): (r: Option<nat>)
    decreases |s| - from
    ensures r.Some? ==> from <= r.value && OccursAt(s, pattern, r.value)
    ensures r.Some? ==> forall j :: from <= j < r.value ==> !OccursAt(s, pattern, j)
    ensures r.None? ==> forall j :: from <= j ==> !OccursAt(s, pattern, j)
  {
    if from + |pattern| > |s| then None
    else if s[from..from + |pattern|] == pattern then Some(from)
    else IndexOfFrom(s, pattern, from + 1)
  }

  function IndexOf(s: string, pattern: string): Option<nat> {
    IndexOfFrom(s, pattern, 0)
  }

  /** `s.includes(pattern)`. */
  predicate Contains(s: string, pattern: string) {
    IndexOf(s, pattern).Some?
  }

  lemma ContainsIff(s: string, pattern: string)
    ensures Contains(s, pattern) <==> exists i :: OccursAt(s, pattern, i)
  {
  }

  /** How many white-space characters `s` starts with. */
  function LeadingSpace(s: string): (n: nat)
    ensures n <= |s|
    ensures forall i :: 0 <= i < n ==> IsSpace(s[i])
    ensures n == |s| || !IsSpace(s[n])
  {
    if s != [] && IsSpace(s[0]) then 1 + LeadingSpace(s[1..]) else 0
  }

  /** How many white-space characters `s` ends with. */
  function TrailingSpace(s: string): (n: nat)
    ensures n <= |s|
    ensures forall i :: |s| - n <= i < |s| ==> IsSpace(s[i])
    ensures n == |s| || !IsSpace(s[|s| - n - 1])
  {
    if s != [] && IsSpace(s[|s| - 1]) then 1 + TrailingSpace(s[..|s| - 1]) else 0
  }

  /** `s.trim()`: the result is the slice of `s` left once the white space at both ends is
      cut off, and neither of its ends is white space. */
  function Trim(s: string): (r: string)
    ensures r == [] || (!IsSpace(r[0]) && !IsSpace(r[|r| - 1]))
    ensures var lead := LeadingSpace(s);
      && lead + |r| <= |s| && r == s[lead..lead + |r|]
      && (forall i :: 0 <= i < lead ==> IsSpace(s[i]))
      && (forall i :: lead + |r| <= i < |s| ==> IsSpace(s[i]))
  {
    var lead := LeadingSpace(s);
    var t := s[lead..];
    var n := TrailingSpace(t);
    TrimParts(s, lead, t, n);
    t[..|t| - n]
  }

  /** Cutting `n` trailing white-space characters off the suffix `t` of `s` that starts
      at its first non-space character leaves a slice of `s` with visible ends and only
      white space after it. */
  lemma TrimParts(s: string, lead: nat, t: string, n: nat)
    requires lead <= |s| && t == s[lead..]
    requires lead == |s| || !IsSpace(s[lead])
    requires n <= |t| && forall i :: |t| - n <= i < |t| ==> IsSpace(t[i])
    requires n == |t| || !IsSpace(t[|t| - n - 1])
    ensures var r := t[..|t| - n];
      && (r == [] || (!IsSpace(r[0]) && !IsSpace(r[|r| - 1])))
      && lead + |r| <= |s| && r == s[lead..lead + |r|]
      && (forall i :: lead + |r| <= i < |s| ==> IsSpace(s[i]))
  {
    var r := t[..|t| - n];
    assert r == s[lead..lead + |r|];
    forall i | lead + |r| <= i < |s| ensures IsSpace(s[i]) {
      assert s[i] == t[i - lead];
    }
  }

  /** A string with no non-space character trims to the empty string, and one with a
      non-space character does not. */
  lemma TrimEmptyIff(s: string)
    ensures Trim(s) == [] <==> forall i :: 0 <= i < |s| ==> IsSpace(s[i])
  {
    var r := Trim(s);
    var lead := LeadingSpace(s);
    if r != [] {
      assert s[lead] == r[0];
    }
  }

  /** `parts.join(sep)`. */
  function Join(parts: seq<string>, sep: string): string
  {
    if |parts| == 0 then ""
    else if |parts| == 1 then parts[0]
    else Join(parts[..|parts| - 1], sep) + sep + parts[|parts| - 1]
  }

  lemma JoinAppend(parts: seq<string>, x: string, sep: string)
    ensures Join(parts + [x], sep) == if parts == [] then x else Join(parts, sep) + sep + x
  {
    assert (parts + [x])[..|parts|] == parts;
  }

  function DigitChar(d: nat): (c: char)
    requires d < 10
    ensures IsDigit(c)
  {
    "0123456789"[d]
  }

  /** The decimal numeral of `n`, as `String(n)` writes it. */
  function NatToString(n: nat): (r: string)
    ensures r != [] && forall i :: 0 <= i < |r| ==> IsDigit(r[i])
  {
    if n < 10 then [DigitChar(n)] else NatToString(n / 10) + [DigitChar(n % 10)]
  }

  function IntToString(i: int): string {
    if i < 0 then "-" + NatToString(-i) else NatToString(i)
  }

  /** A piece occurs in a text that contains it at a shifted place. */
  lemma OccursInConcat(a: string, b: string, c: string, p: string, k: int)
    requires OccursAt(b, p, k)
    ensures OccursAt(a + b + c, p, |a| + k)
  {
    assert (a + b + c)[|a| + k..|a| + k + |p|] == b[k..k + |p|];
  }

  /** `p` occurs somewhere in `s`. */
  ghost predicate OccursIn(s: string, p: string) {
    exists k :: OccursAt(s, p, k)
  }

  /** Every part of a join occurs in it. */
  lemma {:induction false} JoinHasParts(parts: seq<string>, sep: string)
    ensures forall i :: 0 <= i < |parts| ==> OccursIn(Join(parts, sep), parts[i])
  {
    if |parts| > 1 {
      var init := parts[..|parts| - 1];
      var last := parts[|parts| - 1];
      JoinHasParts(init, sep);
      var j := Join(parts, sep);
      assert j == Join(init, sep) + sep + last;
      forall i | 0 <= i < |parts|
        ensures OccursIn(j, parts[i])
      {
        if i == |parts| - 1 {
          OccursInConcat(Join(init, sep) + sep, last, "", last, 0);
          assert Join(init, sep) + sep + last + "" == j;
          assert OccursAt(j, parts[i], |Join(init, sep) + sep|);
        } else {
          assert parts[i] == init[i];
          assert OccursIn(Join(init, sep), init[i]);
          var k :| OccursAt(Join(init, sep), init[i], k);
          OccursInConcat("", Join(init, sep), sep + last, init[i], k);
          assert "" + Join(init, sep) + (sep + last) == j;
          assert OccursAt(j, parts[i], k);
        }
      }
    } else if |parts| == 1 {
      assert Join(parts, sep) == parts[0];
      assert OccursAt(Join(parts, sep), parts[0], 0);
    }
  }

  /** `s.replace(pattern, replacement)` with a string pattern: only the first occurrence is
      replaced, and a text without one is returned as it is. */
  function ReplaceFirst(s: string, pattern: string, replacement: string): (r: string)
    ensures IndexOf(s, pattern).None? ==> r == s
    ensures IndexOf(s, pattern).Some? ==>
      var i := IndexOf(s, pattern).value;
      && r == s[..i] + replacement + s[i + |pattern|..]
      && (forall j :: 0 <= j < i ==> !OccursAt(s, pattern, j))
  {
    match IndexOf(s, pattern)
    case None => s
    case Some(i) => s[..i] + replacement + s[i + |pattern|..]
  }

  /** Whatever follows the first occurrence, later occurrences included, is kept as it was. */
  lemma ReplaceFirstKeepsTail(s: string, pattern: string, replacement: string)
    requires IndexOf(s, pattern).Some?
    ensures var i := IndexOf(s, pattern).value;
      EndsWith(ReplaceFirst(s, pattern, replacement), s[i + |pattern|..])
  {
    var i := IndexOf(s, pattern).value;
    var r := ReplaceFirst(s, pattern, replacement);
    var tail := s[i + |pattern|..];
    assert r == (s[..i] + replacement) + tail;
    assert r[|r| - |tail|..] == tail;
  }
}
