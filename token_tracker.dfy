/** A running tally of the tokens a summarisation run spends, fed with the usage metadata
    the model returns after each call. */
module TokenTracker {
  import opened Wrappers

  /** One call's usage metadata; each count may be absent, and the whole record may be. */
  datatype Usage = Usage(inputTokens: Option<int>, outputTokens: Option<int>, totalTokens: Option<int>)

  /** A count read with `usage?.field ?? 0`. */
  function InputOf(u: Option<Usage>): int { if u.Some? then u.value.inputTokens.GetOr(0) else 0 }
  function OutputOf(u: Option<Usage>): int { if u.Some? then u.value.outputTokens.GetOr(0) else 0 }
  function TotalOf(u: Option<Usage>): int { if u.Some? then u.value.totalTokens.GetOr(0) else 0 }

  /** Sums of one count over all calls so far. */
  function SumInput(calls: seq<Option<Usage>>): int {
    if calls == [] then 0 else SumInput(calls[..|calls| - 1]) + InputOf(calls[|calls| - 1])
  }
  function SumOutput(calls: seq<Option<Usage>>): int {
    if calls == [] then 0 else SumOutput(calls[..|calls| - 1]) + OutputOf(calls[|calls| - 1])
  }
  function SumTotal(calls: seq<Option<Usage>>): int {
    if calls == [] then 0 else SumTotal(calls[..|calls| - 1]) + TotalOf(calls[|calls| - 1])
  }

  predicate NonNegative(u: Option<Usage>) {
    InputOf(u) >= 0 && OutputOf(u) >= 0 && TotalOf(u) >= 0
  }

  /** With non-negative usage on every call, every sum is non-negative. */
  lemma {:induction false} SumsNonNegative(calls: seq<Option<Usage>>)
    requires forall i :: 0 <= i < |calls| ==> NonNegative(calls[i])
    ensures SumInput(calls) >= 0 && SumOutput(calls) >= 0 && SumTotal(calls) >= 0
  {
    if calls != [] {
      SumsNonNegative(calls[..|calls| - 1]);
      assert NonNegative(calls[|calls| - 1]);
    }
  }

  /** What `getCurrentUsage` reports. */
  datatype CurrentUsage = CurrentUsage(
    totalInputTokens: int, totalOutputTokens: int, totalExecutionTokens: int, lastTotalTokens: int)

  /** What `getTokenDiff` reports. */
  datatype TokenDiff = TokenDiff(inputDiff: int, outputDiff: int, executionDiff: int)

  class Tracker {
    var totalInputTokens: int
    var totalOutputTokens: int
    var totalExecutionTokens: int
    var lastTotalTokens: int
    /** The usage records passed in so far, oldest first. */
    ghost var calls: seq<Option<Usage>>

    /** The totals are the sums over every call, and the last total is that of the latest
        call (0 before any). */
    ghost predicate Valid()
      reads this
    {
      && totalInputTokens == SumInput(calls)
      && totalOutputTokens == SumOutput(calls)
      && totalExecutionTokens == SumTotal(calls)
      && lastTotalTokens == (if calls == [] then 0 else TotalOf(calls[|calls| - 1]))
    }

    constructor ()
      ensures Valid() && calls == []
      ensures totalInputTokens == 0 && totalOutputTokens == 0 && totalExecutionTokens == 0 && lastTotalTokens == 0
    {
      totalInputTokens, totalOutputTokens, totalExecutionTokens, lastTotalTokens := 0, 0, 0, 0;
      calls := [];
    }

    /** Adds one call's counts to the totals (a missing count adds 0) and overwrites the
        last total with this call's. */
    method UpdateTokens(usage: Option<Usage>)
      requires Valid()
      modifies this
      ensures Valid() && calls == old(calls) + [usage]
      ensures totalInputTokens == old(totalInputTokens) + InputOf(usage)
      ensures totalOutputTokens == old(totalOutputTokens) + OutputOf(usage)
      ensures totalExecutionTokens == old(totalExecutionTokens) + TotalOf(usage)
      ensures lastTotalTokens == TotalOf(usage)
      ensures NonNegative(usage) ==>
        && totalInputTokens >= old(totalInputTokens) && totalOutputTokens >= old(totalOutputTokens)
        && totalExecutionTokens >= old(totalExecutionTokens)
    {
      totalInputTokens := totalInputTokens + InputOf(usage);
      totalOutputTokens := totalOutputTokens + OutputOf(usage);
      totalExecutionTokens := totalExecutionTokens + TotalOf(usage);
      lastTotalTokens := TotalOf(usage);
      calls := calls + [usage];
      assert calls[..|calls| - 1] == old(calls);
    }

    function GetCurrentUsage(): (u: CurrentUsage)
      reads this
      ensures Valid() ==> u == CurrentUsage(SumInput(calls), SumOutput(calls), SumTotal(calls), lastTotalTokens)
    {
      CurrentUsage(totalInputTokens, totalOutputTokens, totalExecutionTokens, lastTotalTokens)
    }

    /** Each component is the last total minus what the total exceeds it by, that is
        twice the last total less the running total. */
    function GetTokenDiff(): (d: TokenDiff)
      reads this
      ensures d.inputDiff == 2 * lastTotalTokens - totalInputTokens
      ensures d.outputDiff == 2 * lastTotalTokens - totalOutputTokens
      ensures d.executionDiff == 2 * lastTotalTokens - totalExecutionTokens
      ensures Valid() && |calls| == 1 ==> d.executionDiff == lastTotalTokens
    {
      assert |calls| == 1 ==> SumTotal(calls) == TotalOf(calls[0]) by {
        if |calls| == 1 { assert calls[..|calls| - 1] == []; }
      }
      var last := if lastTotalTokens != 0 then lastTotalTokens else 0;
      TokenDiff(lastTotalTokens - (totalInputTokens - last),
                lastTotalTokens - (totalOutputTokens - last),
                lastTotalTokens - (totalExecutionTokens - last))
    }
  }
}
