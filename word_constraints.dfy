/** The constraint check of the prompt unit tests: a generated text passes when its word
    count lies within bounds and every required word occurs in it, ignoring case. Words
    are the pieces `split(/\s+/)` cuts the text into. */
module WordConstraints {
  import opened Text

  predicate NoSpace(w: string) {
    forall i :: 0 <= i < |w| ==> !IsSpace(w[i])
  }

  /** `text.split(/\s+/)`: the pieces between runs of white space. A run at either end
      leaves an empty piece there, and the empty text is one empty piece. */
  function Split(s: string): (r: seq<string>)
    ensures |r| >= 1
    ensures forall i :: 0 <= i < |r| ==> NoSpace(r[i])
  {
    if s == [] then [""]
    else
      var init := Split(s[..|s| - 1]);
      var c := s[|s| - 1];
      if !IsSpace(c) then init[..|init| - 1] + [init[|init| - 1] + [c]]
      else if |s| >= 2 && IsSpace(s[|s| - 2]) then init
      else init + [""]
  }

  /** `text.split(/\s+/).length`. */
  function WordCount(s: string): nat {
    |Split(s)|
  }

  /** The number of white-space runs: positions holding white space right after a
      position that does not (or at the very start). */
  function Runs(s: string): nat {
    if s == [] then 0
    else Runs(s[..|s| - 1]) + (if IsSpace(s[|s| - 1]) && (|s| == 1 || !IsSpace(s[|s| - 2])) then 1 else 0)
  }

  /** There is one piece more than there are runs of white space. */
  lemma {:induction false} WordCountIsRunsPlusOne(s: string)
    ensures WordCount(s) == Runs(s) + 1
  {
    if s != [] {
      WordCountIsRunsPlusOne(s[..|s| - 1]);
    }
  }

  /** Characters without white space start no run, except that the first of them ends a
      text that ended in white space. */
  lemma {:induction false} RunsAppendWord(p: string, x: string)
    requires NoSpace(x)
    ensures Runs(p + x) == Runs(p)
    decreases |x|
  {
    if x == [] {
      assert p + x == p;
    } else {
      RunsAppendWord(p, x[..|x| - 1]);
      assert (p + x)[..|p + x| - 1] == p + x[..|x| - 1];
    }
  }

  lemma RunsAppendSpace(p: string)
    requires p != [] && !IsSpace(p[|p| - 1])
    ensures Runs(p + " ") == Runs(p) + 1
  {
    assert (p + " ")[..|p|] == p;
  }

  /** Words joined by single spaces count as as many words. */
  lemma {:induction false} RunsOfJoin(ws: seq<string>)
    requires |ws| >= 1
    requires forall i :: 0 <= i < |ws| ==> ws[i] != "" && NoSpace(ws[i])
    ensures Runs(Join(ws, " ")) == |ws| - 1
  {
    var last := ws[|ws| - 1];
    if |ws| == 1 {
      RunsAppendWord("", last);
      assert "" + last == last;
    } else {
      var init := ws[..|ws| - 1];
      RunsOfJoin(init);
      var j := Join(init, " ");
      JoinEndsWithLast(init, " ");
      var w := init[|init| - 1];
      assert j[|j| - 1] == w[|w| - 1];
      RunsAppendSpace(j);
      RunsAppendWord(j + " ", last);
      assert Join(ws, " ") == j + " " + last;
    }
  }

  lemma JoinEndsWithLast(ws: seq<string>, sep: string)
    requires |ws| >= 1
    ensures EndsWith(Join(ws, sep), ws[|ws| - 1])
  {
  }

  lemma WordCountOfJoin(ws: seq<string>)
    requires |ws| >= 1
    requires forall i :: 0 <= i < |ws| ==> ws[i] != "" && NoSpace(ws[i])
    ensures WordCount(Join(ws, " ")) == |ws|
  {
    RunsOfJoin(ws);
    WordCountIsRunsPlusOne(Join(ws, " "));
  }

  /** White space at the start leaves an empty first piece. */
  lemma {:induction false} LeadingSpaceCounts(s: string)
    requires s != [] && IsSpace(s[0])
    ensures |Split(s)| >= 2 && Split(s)[0] == ""
    decreases |s|
  {
    if |s| > 1 {
      assert s[..|s| - 1][0] == s[0];
      LeadingSpaceCounts(s[..|s| - 1]);
    }
  }

  /** White space at the end leaves an empty last piece. */
  lemma TrailingSpaceCounts(s: string)
    requires s != [] && IsSpace(s[|s| - 1])
    ensures Split(s)[|Split(s)| - 1] == ""
  {
    if |s| >= 2 && IsSpace(s[|s| - 2]) {
      TrailingSpaceCounts(s[..|s| - 1]);
    }
  }

  /** Every required word occurs in the text, both lower-cased. */
  function AllOccur(text: string, required: seq<string>): (b: bool)
    ensures b <==> forall i :: 0 <= i < |required| ==> Contains(Lower(text), Lower(required[i]))
  {
    if required == [] then true
    else Contains(Lower(text), Lower(required[0])) && AllOccur(text, required[1..])
  }

  function ValidateConstraints(text: string, minWords: int, maxWords: int, required: seq<string>): (ok: bool)
    ensures ok <==> minWords <= WordCount(text) <= maxWords
                    && forall i :: 0 <= i < |required| ==> Contains(Lower(text), Lower(required[i]))
    ensures required == [] ==> (ok <==> minWords <= WordCount(text) <= maxWords)
  {
    var n := WordCount(text);
    n >= minWords && n <= maxWords && AllOccur(text, required)
  }

  /** Visible ASCII characters are not white space. */
  predicate Visible(w: string) {
    forall i :: 0 <= i < |w| ==> '!' <= w[i] <= '~'
  }

  lemma VisibleHasNoSpace(w: string)
    requires Visible(w)
    ensures NoSpace(w)
  {
    forall i | 0 <= i < |w| ensures !IsSpace(w[i]) {
      assert '!' <= w[i] <= '~';
    }
  }

  /** Lower-casing keeps an occurrence where it was. */
  lemma LowerOccurs(s: string, p: string, k: int)
    requires OccursAt(s, p, k)
    ensures OccursAt(Lower(s), Lower(p), k)
  {
    assert Lower(s)[k..k + |p|] == Lower(s[k..k + |p|]);
  }

  /** A required word matches inside a longer word and in any letter case. */
  lemma SubstringMatches()
    ensures ValidateConstraints("Unhealthy", 1, 1, ["HEALTH"])
  {
    var text := "Unhealthy";
    assert Visible(text);
    VisibleHasNoSpace(text);
    assert Join([text], " ") == text;
    WordCountOfJoin([text]);
    assert OccursAt(text, "health", 2) by { assert text[2..8] == "health"; }
    LowerOccurs(text, "health", 2);
    assert Lower("HEALTH") == Lower("health");
    ContainsIff(Lower(text), Lower("HEALTH"));
  }

  /** The exercise summary of the unit test, as its words joined by single spaces. */
  const ExerciseWords := ["Regular", "exercise", "significantly", "improves", "health", "and", "fitness",
                          "by", "boosting", "energy,", "enhancing", "mood,", "and", "reducing", "the", "risk",
                          "of", "many", "chronic", "diseases."]
  const ExerciseText := Join(ExerciseWords, " ")

  lemma ExerciseWordsArePlain()
    ensures |ExerciseWords| == 20
    ensures forall i :: 0 <= i < |ExerciseWords| ==> ExerciseWords[i] != "" && NoSpace(ExerciseWords[i])
  {
    forall i | 0 <= i < |ExerciseWords|
      ensures ExerciseWords[i] != "" && NoSpace(ExerciseWords[i])
    {
      assert Visible(ExerciseWords[i]);
      VisibleHasNoSpace(ExerciseWords[i]);
    }
  }

  /** A word of the summary that is already lower case is found in the lower-cased text. */
  lemma SummaryMentions(i: nat)
    requires i < |ExerciseWords| && Lower(ExerciseWords[i]) == ExerciseWords[i]
    ensures Contains(Lower(ExerciseText), ExerciseWords[i])
  {
    JoinHasParts(ExerciseWords, " ");
    var k :| OccursAt(ExerciseText, ExerciseWords[i], k);
    LowerOccurs(ExerciseText, ExerciseWords[i], k);
    ContainsIff(Lower(ExerciseText), ExerciseWords[i]);
  }

  /** The exercise summary the unit test checks has 20 words and mentions both required
      words, so it meets the test's constraints. */
  lemma ExerciseSummaryPasses()
    ensures WordCount(ExerciseText) == 20
    ensures ValidateConstraints(ExerciseText, 20, 30, ["health", "fitness"])
  {
    ExerciseWordsArePlain();
    WordCountOfJoin(ExerciseWords);
    assert ExerciseWords[4] == "health" && Lower("health") == "health";
    assert ExerciseWords[6] == "fitness" && Lower("fitness") == "fitness";
    SummaryMentions(4);
    SummaryMentions(6);
  }
}
