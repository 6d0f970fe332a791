/** The two plain steps of the simple chain example: the input text is upper-cased, then
    its vowels are counted; the count goes into the prompt. */
module SimpleChain {
  import opened Wrappers
  import opened Text

  /** What `/[AEIOU]/gi` matches: a vowel of either case. */
  predicate IsVowel(c: char) {
    UpperChar(c) in {'A', 'E', 'I', 'O', 'U'}
  }

  /** `toUpperCase`: the input's text, upper-cased. */
  function ToUpperCase(text: string): (uppercased: string)
    ensures |uppercased| == |text|
    ensures forall i :: 0 <= i < |text| ==> uppercased[i] == UpperChar(text[i])
    ensures forall i :: 0 <= i < |text| ==> (IsVowel(uppercased[i]) <==> IsVowel(text[i]))
  {
    Upper(text)
  }

  /** `s.match(/[AEIOU]/gi)`: the vowels of `s` in order, or `null` when there are none. */
  function MatchVowels(s: string): (m: Option<seq<char>>)
    ensures m.Some? ==> m.value != [] && forall i :: 0 <= i < |m.value| ==> IsVowel(m.value[i])
    ensures m.None? <==> forall i :: 0 <= i < |s| ==> !IsVowel(s[i])
    ensures m.Some? ==> |m.value| <= |s|
  {
    if s == [] then None
    else
      var init := MatchVowels(s[..|s| - 1]);
      assert forall i :: 0 <= i < |s| - 1 ==> s[..|s| - 1][i] == s[i];
      var found := if init.Some? then init.value else [];
      if IsVowel(s[|s| - 1]) then Some(found + [s[|s| - 1]])
      else init
  }

  /** `vowelCountFunction`: the number of matches, 0 when `match` gives `null`. */
  function VowelCount(uppercased: string): (count: nat)
    ensures count <= |uppercased|
    ensures count == 0 <==> forall i :: 0 <= i < |uppercased| ==> !IsVowel(uppercased[i])
  {
    match MatchVowels(uppercased)
    case None => 0
    case Some(vowels) => |vowels|
  }

  /** The count grows by one for each vowel: it is additive over concatenation. */
  lemma {:induction false} VowelCountAppend(a: string, b: string)
    ensures VowelCount(a + b) == VowelCount(a) + VowelCount(b)
    decreases |b|
  {
    if b == [] {
      assert a + b == a;
    } else {
      var b' := b[..|b| - 1];
      VowelCountAppend(a, b');
      assert (a + b)[..|a + b| - 1] == a + b';
      assert b[..|b| - 1] == b';
    }
  }

  /** Upper-casing does not change the count. */
  lemma {:induction false} UpperKeepsCount(text: string)
    ensures VowelCount(ToUpperCase(text)) == VowelCount(text)
    decreases |text|
  {
    if text != [] {
      var init := text[..|text| - 1];
      UpperKeepsCount(init);
      assert ToUpperCase(text) == ToUpperCase(init) + [UpperChar(text[|text| - 1])];
      VowelCountAppend(ToUpperCase(init), [UpperChar(text[|text| - 1])]);
      VowelCountAppend(init, [text[|text| - 1]]);
      assert init + [text[|text| - 1]] == text;
    }
  }

  /** The vowels of `s`, counted one character at a time from the front. */
  function Tally(s: string): nat {
    if s == [] then 0 else (if IsVowel(s[0]) then 1 else 0) + Tally(s[1..])
  }

  /** The count of matches agrees with the character-by-character tally. */
  lemma {:induction false} VowelCountIsTally(s: string)
    ensures VowelCount(s) == Tally(s)
    decreases |s|
  {
    if s != [] {
      VowelCountIsTally(s[1..]);
      VowelCountAppend([s[0]], s[1..]);
      assert [s[0]] + s[1..] == s;
    }
  }

  /** The vowels of the chain's input `hello world`: `e`, `o` and `o`. */
  lemma HelloWorldVowels()
    ensures VowelCount("hello world") == 3
  {
    VowelCountIsTally("hello world");
    HelloWorldTally();
  }

  lemma HelloWorldTally()
    ensures Tally("hello world") == 3
  {
  }

  /** The chain's input `hello world` gives a count of three. */
  lemma HelloWorldHasThree()
    ensures VowelCount(ToUpperCase("hello world")) == 3
  {
    UpperKeepsCount("hello world");
    HelloWorldVowels();
  }
}
