/** The vote history page of the profile: one page of the user's votes and the
    summary figures shown above it. */
module VoteHistoryPage {
  import opened Wrappers
  import PollApi

  datatype PollRef = PollRef(id: string, title: string)
  datatype OptionRef = OptionRef(id: string, text: string, imageUrl: Option<string>)
  datatype VoteRecord = VoteRecord(id: string, votedAt: string, poll: PollRef, option: OptionRef)

  /** The body of GET /votes/history: the page of votes (possibly absent) and
      `pagination.total`. */
  datatype HistoryPage = HistoryPage(votes: Option<seq<VoteRecord>>, total: int)

  /** `new Set(voteHistory.map(vote => vote.poll.id))` */
  function PollIds(history: seq<VoteRecord>): (ids: set<string>)
    ensures forall id :: id in ids <==> exists i :: 0 <= i < |history| && history[i].poll.id == id
  {
    if history == [] then {}
    else
      var init := history[..|history| - 1];
      assert forall i :: 0 <= i < |init| ==> init[i] == history[i];
      PollIds(init) + {history[|history| - 1].poll.id}
  }

  /** There are never more distinct polls than votes. */
  lemma {:induction false} PollIdsBounded(history: seq<VoteRecord>)
    ensures |PollIds(history)| <= |history|
  {
    if history != [] {
      PollIdsBounded(history[..|history| - 1]);
    }
  }

  /** Adding one vote adds its poll to the set. */
  lemma PollIdsSnoc(history: seq<VoteRecord>)
    requires history != []
    ensures PollIds(history) == PollIds(history[..|history| - 1]) + {history[|history| - 1].poll.id}
  {
  }

  /** Votes on pairwise different polls count one poll each. */
  lemma {:induction false} DistinctPollsCountAll(history: seq<VoteRecord>)
    requires forall i, j :: 0 <= i < j < |history| ==> history[i].poll.id != history[j].poll.id
    ensures |PollIds(history)| == |history|
  {
    if history != [] {
      var init := history[..|history| - 1];
      DistinctPollsCountAll(init);
      PollIdsSnoc(history);
      var last := history[|history| - 1].poll.id;
      assert forall i :: 0 <= i < |init| ==> init[i].poll.id != last;
      assert last !in PollIds(init);
    }
  }

  /** Two votes on the same poll make the count smaller than the number of votes. */
  lemma {:induction false} RepeatedPollCountsLess(history: seq<VoteRecord>, i: nat, j: nat)
    requires i < j < |history| && history[i].poll.id == history[j].poll.id
    ensures |PollIds(history)| < |history|
  {
    var init := history[..|history| - 1];
    PollIdsSnoc(history);
    PollIdsBounded(init);
    assert init[i] == history[i];
    if j == |history| - 1 {
      assert history[j].poll.id in PollIds(init);
    } else {
      assert init[j] == history[j];
      RepeatedPollCountsLess(init, i, j);
    }
  }

  /** `uniquePolls`. */
  function UniquePolls(history: seq<VoteRecord>): (n: nat)
    ensures n <= |history|
    ensures history != [] ==> n >= 1
  {
    PollIdsBounded(history);
    assert history != [] ==> history[0].poll.id in PollIds(history);
    |PollIds(history)|
  }

  /** `x?.votedAt || ''` */
  function VotedAtText(v: VoteRecord): string { v.votedAt }

  /** `firstVote`: the history is newest first, so the earliest vote is the last entry. */
  function FirstVote(history: seq<VoteRecord>): (t: string)
    ensures history == [] ==> t == ""
    ensures history != [] ==> t == history[|history| - 1].votedAt
  {
    if |history| == 0 then "" else VotedAtText(history[|history| - 1])
  }

  /** `lastVote`: the newest vote is the first entry. */
  function LastVote(history: seq<VoteRecord>): (t: string)
    ensures history == [] ==> t == ""
    ensures history != [] ==> t == history[0].votedAt
  {
    if |history| == 0 then "" else VotedAtText(history[0])
  }

  /** The page read oldest first. */
  function Reversed(history: seq<VoteRecord>): (r: seq<VoteRecord>)
    ensures |r| == |history|
    ensures forall i :: 0 <= i < |history| ==> r[i] == history[|history| - 1 - i]
  {
    if history == [] then [] else [history[|history| - 1]] + Reversed(history[..|history| - 1])
  }

  /** `firstVote` and `lastVote` trade places when the page is read the other way
      round, and agree on a page with a single vote. */
  lemma FirstAndLastSwapOnReversal(history: seq<VoteRecord>)
    ensures FirstVote(history) == LastVote(Reversed(history))
    ensures LastVote(history) == FirstVote(Reversed(history))
    ensures |history| == 1 ==> FirstVote(history) == LastVote(history)
  {
  }

  /** With the newest votes first, prepending newer votes keeps `firstVote` and
      appending older ones keeps `lastVote`. */
  lemma FirstAndLastUnderExtension(newer: seq<VoteRecord>, older: seq<VoteRecord>)
    ensures older != [] ==> FirstVote(newer + older) == FirstVote(older)
    ensures newer != [] ==> LastVote(newer + older) == LastVote(newer)
  {
    if older != [] {
      assert (newer + older)[|newer + older| - 1] == older[|older| - 1];
    }
    if newer != [] {
      assert (newer + older)[0] == newer[0];
    }
  }

  class VoteHistoryView {
    var voteHistory: seq<VoteRecord>
    var isLoading: bool
    var currentPage: int
    var pageSize: int
    var totalCount: int

    constructor ()
      ensures voteHistory == [] && !isLoading
      ensures currentPage == 1 && pageSize == 10 && totalCount == 0
    {
      voteHistory := [];
      isLoading := false;
      currentPage, pageSize, totalCount := 1, 10, 0;
    }

    /** `loadVoteHistory()`: raise the flag and ask for the current page. */
    method LoadVoteHistory() returns (req: PollApi.ApiGet)
      modifies this
      ensures isLoading
      ensures req == PollApi.ApiGet("/votes/history", PollApi.KeptParams(PollApi.PageQuery(currentPage, pageSize)))
      ensures voteHistory == old(voteHistory) && totalCount == old(totalCount)
      ensures currentPage == old(currentPage) && pageSize == old(pageSize)
    {
      isLoading := true;
      req := PollApi.GetVoteHistory(Some(PollApi.PageQuery(currentPage, pageSize)));
    }

    /** The `getVoteHistory` subscriber: success shows the page (none when absent)
        and the server's total; an error keeps both. The flag drops either way. */
    method OnHistoryReply(reply: Reply<HistoryPage>)
      modifies this
      ensures !isLoading
      ensures reply.Ok? ==> voteHistory == reply.body.votes.GetOr([]) && totalCount == reply.body.total
      ensures reply.Ok? ==> TotalVotes() == reply.body.total && UniquePolls(voteHistory) <= |reply.body.votes.GetOr([])|
      ensures reply.Failed? ==> voteHistory == old(voteHistory) && totalCount == old(totalCount)
      ensures currentPage == old(currentPage) && pageSize == old(pageSize)
    {
      if reply.Ok? {
        voteHistory := reply.body.votes.GetOr([]);
        totalCount := reply.body.total;
      }
      isLoading := false;
    }

    /** `onPageChange(event)`: the paginator counts pages from 0, the view from 1. */
    method OnPageChange(pageIndex: nat, size: int) returns (req: PollApi.ApiGet)
      modifies this
      ensures currentPage == pageIndex + 1 && pageSize == size && isLoading
      ensures req == PollApi.ApiGet("/votes/history", PollApi.KeptParams(PollApi.PageQuery(pageIndex + 1, size)))
      ensures voteHistory == old(voteHistory) && totalCount == old(totalCount)
    {
      currentPage := pageIndex + 1;
      pageSize := size;
      req := LoadVoteHistory();
    }

    /** `totalVotes`: the server's total over all pages, not the length of this page. */
    function TotalVotes(): (n: int)
      reads this
      ensures n == totalCount
    {
      totalCount
    }
  }
}
