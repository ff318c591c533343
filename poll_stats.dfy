/** The statistics page of a poll: the chart series, the winner rule and the
    running total of daily votes. */
module PollStatsPage {
  import opened Wrappers
  import Polls
  import PollApi

  datatype DailyStat = DailyStat(date: string, voteCount: int)
  datatype OptionStat = OptionStat(id: string, text: string, imageUrl: Option<string>, voteCount: int,
                                   percentage: int)
  datatype TotalStats = TotalStats(uniqueVoters: int, totalVotes: int, firstVote: string, lastVote: string)
  datatype PollStats = PollStats(pollTitle: string, totalStats: TotalStats, dailyStats: seq<DailyStat>,
                                 optionStats: seq<OptionStat>)

  /** `reduce((sum, day) => sum + day.voteCount, 0)` */
  function Sum(days: seq<DailyStat>): int {
    if days == [] then 0 else Sum(days[..|days| - 1]) + days[|days| - 1].voteCount
  }

  /** Where `slice(0, end)` stops on a list of `len` elements: a negative end counts
      from the back, and both ends are clamped to the list. */
  function SliceEnd(len: nat, end: int): (k: nat)
    ensures k <= len
    ensures 0 <= end <= len ==> k == end
    ensures end > len ==> k == len
  {
    if end < 0 then (if len + end < 0 then 0 else len + end)
    else if end > len then len else end
  }

  /** `getCumulativeVotes(index)` on the daily series. */
  function Cumulative(days: seq<DailyStat>, index: int): int {
    Sum(days[..SliceEnd(|days|, index + 1)])
  }

  predicate NonNegative(days: seq<DailyStat>) {
    forall i :: 0 <= i < |days| ==> days[i].voteCount >= 0
  }

  lemma {:induction false} PrefixSumMonotone(days: seq<DailyStat>, a: nat, b: nat)
    requires NonNegative(days)
    requires a <= b <= |days|
    ensures Sum(days[..a]) <= Sum(days[..b])
    decreases b - a
  {
    if a < b {
      PrefixSumMonotone(days, a, b - 1);
      assert days[..b][..b - 1] == days[..b - 1];
    }
  }

  /** With non-negative counts the running total never decreases along the days. */
  lemma CumulativeMonotone(days: seq<DailyStat>, i: int, j: int)
    requires NonNegative(days)
    requires -1 <= i <= j
    ensures Cumulative(days, i) <= Cumulative(days, j)
  {
    PrefixSumMonotone(days, SliceEnd(|days|, i + 1), SliceEnd(|days|, j + 1));
  }

  /** Each day adds exactly its own count. */
  lemma CumulativeStep(days: seq<DailyStat>, i: nat)
    requires i < |days|
    ensures Cumulative(days, i) == Cumulative(days, i - 1) + days[i].voteCount
  {
    assert days[..i + 1][..i] == days[..i];
  }

  /** From the last day on, the slice is the whole series: the grand total. */
  lemma CumulativeAtEnd(days: seq<DailyStat>, i: int)
    requires i >= |days| - 1
    ensures Cumulative(days, i) == Sum(days)
  {
    assert days[..|days|] == days;
  }

  /** A negative index below -1 counts from the back: index -2 leaves out only the last day. */
  lemma CumulativeNegativeIndex(days: seq<DailyStat>)
    requires |days| >= 1
    ensures Cumulative(days, -2) == Sum(days) - days[|days| - 1].voteCount
  {
    assert days[..|days| - 1] == days[..|days| - 1];
  }

  function OptionCounts(options: seq<OptionStat>): (counts: seq<int>)
    ensures |counts| == |options|
    ensures forall i :: 0 <= i < |options| ==> counts[i] == options[i].voteCount
  {
    seq(|options|, i requires 0 <= i < |options| => options[i].voteCount)
  }

  class PollStatsView {
    var stats: Option<PollStats>
    var isLoading: bool
    var pieLabels: seq<string>
    var pieData: seq<int>
    /** Bar labels keep the raw dates; their locale formatting is not modelled. */
    var barLabels: seq<string>
    var barData: seq<int>

    constructor ()
      ensures stats == None && !isLoading
      ensures pieLabels == [] && pieData == [] && barLabels == [] && barData == []
    {
      stats := None;
      isLoading := false;
      pieLabels, pieData, barLabels, barData := [], [], [], [];
    }

    /** `loadPollStats(id)`: raise the loading flag and ask for the statistics. */
    method LoadPollStats(pollId: string) returns (req: PollApi.ApiGet)
      modifies this
      ensures isLoading && req == PollApi.ApiGet("/votes/stats/" + pollId, [])
      ensures stats == old(stats) && pieLabels == old(pieLabels) && pieData == old(pieData)
      ensures barLabels == old(barLabels) && barData == old(barData)
    {
      isLoading := true;
      req := PollApi.ApiGet("/votes/stats/" + pollId, []);
    }

    /** The route-parameter subscription of `ngOnInit`: load only for a truthy id. */
    method OnRouteParams(id: Option<string>) returns (req: Option<PollApi.ApiGet>)
      modifies this
      ensures req.Some? <==> Truthy(id)
      ensures req.Some? ==> req.value == PollApi.ApiGet("/votes/stats/" + id.value, []) && isLoading
      ensures req.None? ==> unchanged(this)
      ensures stats == old(stats) && pieLabels == old(pieLabels) && pieData == old(pieData)
      ensures barLabels == old(barLabels) && barData == old(barData)
    {
      req := None;
      if Truthy(id) {
        var r := LoadPollStats(id.value);
        req := Some(r);
      }
    }

    /** `updateCharts()`: one pie slice per option and one bar per day, in order;
        nothing changes without statistics. */
    method UpdateCharts()
      modifies this
      ensures old(stats).None? ==> unchanged(this)
      ensures stats == old(stats) && isLoading == old(isLoading)
      ensures stats.Some? ==>
                var s := stats.value;
                && |pieLabels| == |s.optionStats| == |pieData|
                && |barLabels| == |s.dailyStats| == |barData|
                && (forall i :: 0 <= i < |s.optionStats| ==>
                      pieLabels[i] == s.optionStats[i].text && pieData[i] == s.optionStats[i].voteCount)
                && (forall i :: 0 <= i < |s.dailyStats| ==>
                      barLabels[i] == s.dailyStats[i].date && barData[i] == s.dailyStats[i].voteCount)
    {
      if stats.Some? {
        var s := stats.value;
        pieLabels := seq(|s.optionStats|, i requires 0 <= i < |s.optionStats| => s.optionStats[i].text);
        pieData := OptionCounts(s.optionStats);
        barLabels := seq(|s.dailyStats|, i requires 0 <= i < |s.dailyStats| => s.dailyStats[i].date);
        barData := seq(|s.dailyStats|, i requires 0 <= i < |s.dailyStats| => s.dailyStats[i].voteCount);
      }
    }

    /** The `getPollStats` subscriber: success stores the statistics and redraws;
        an error keeps the previous statistics and charts. Both lower the flag. */
    method OnStatsReply(reply: Reply<PollStats>)
      modifies this
      ensures !isLoading
      ensures reply.Ok? ==> stats == Some(reply.body)
                            && pieData == OptionCounts(reply.body.optionStats)
      ensures reply.Ok? ==>
                var s := reply.body;
                && |pieLabels| == |s.optionStats| == |pieData|
                && |barLabels| == |s.dailyStats| == |barData|
                && (forall i :: 0 <= i < |s.optionStats| ==>
                      pieLabels[i] == s.optionStats[i].text && pieData[i] == s.optionStats[i].voteCount)
                && (forall i :: 0 <= i < |s.dailyStats| ==>
                      barLabels[i] == s.dailyStats[i].date && barData[i] == s.dailyStats[i].voteCount)
      ensures reply.Failed? ==> stats == old(stats) && pieLabels == old(pieLabels) && pieData == old(pieData)
                                && barLabels == old(barLabels) && barData == old(barData)
    {
      if reply.Ok? {
        stats := Some(reply.body);
        UpdateCharts();
      }
      isLoading := false;
    }

    /** `getCumulativeVotes(index)`: 0 without statistics. */
    function CumulativeVotes(index: int): (total: int)
      reads this
      ensures stats.None? ==> total == 0
      ensures stats.Some? && index >= |stats.value.dailyStats| - 1 ==> total == Sum(stats.value.dailyStats)
    {
      if stats.None? then 0
      else if index >= |stats.value.dailyStats| - 1 then
        CumulativeAtEnd(stats.value.dailyStats, index);
        Cumulative(stats.value.dailyStats, index)
      else Cumulative(stats.value.dailyStats, index)
    }

    /** `isWinner(option)` over `optionStats`. */
    function IsWinnerOption(option: OptionStat): (w: bool)
      reads this
      ensures stats.None? ==> !w
      ensures stats.Some? ==>
                (w <==> option.voteCount > 0
                        && (exists i :: 0 <= i < |stats.value.optionStats| && stats.value.optionStats[i].voteCount == option.voteCount)
                        && (forall i :: 0 <= i < |stats.value.optionStats| ==> stats.value.optionStats[i].voteCount <= option.voteCount))
    {
      stats.Some? && Polls.IsWinner(OptionCounts(stats.value.optionStats), option.voteCount)
    }
  }
}
