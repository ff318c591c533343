/** The poll page: loading and renaming one poll, the vote percentages, option
    selection, voting, and the status and winner shown for it. */
module PollDetail {
  import opened Wrappers
  import opened Polls
  import PollApi

  /** The percentage shown for an option: the integer nearest to the exact share
      `100 * voteCount / totalVotes`, halves rounded up; 0 when there are no votes.
      The page itself rounds a double, so where the exact share is a half that the
      double falls just short of (23 of 40, 29 of 200) it shows one less. */
  function Percent(voteCount: int, totalVotes: int): (p: int)
    ensures totalVotes <= 0 ==> p == 0
    ensures totalVotes > 0 ==> 2 * totalVotes * p <= 200 * voteCount + totalVotes < 2 * totalVotes * (p + 1)
  {
    if totalVotes > 0 then (200 * voteCount + totalVotes) / (2 * totalVotes) else 0
  }

  lemma MulMono(t: int, a: int, b: int)
    requires t >= 0 && a <= b
    ensures t * a <= t * b
  {
  }

  lemma MulCancel(t: int, a: int, b: int)
    requires t > 0 && t * a < t * b
    ensures a < b
  {
    if a >= b {
      MulMono(t, b, a);
    }
  }

  /** A count between 0 and the total gets a percentage between 0 and 100. */
  lemma PercentInRange(voteCount: int, totalVotes: int)
    requires 0 <= voteCount <= totalVotes && totalVotes > 0
    ensures 0 <= Percent(voteCount, totalVotes) <= 100
  {
    var p, t2 := Percent(voteCount, totalVotes), 2 * totalVotes;
    assert t2 * p < t2 * 101;
    MulCancel(t2, p, 101);
    assert t2 * 0 < t2 * (p + 1);
    MulCancel(t2, 0, p + 1);
  }

  /** All votes give 100 and none give 0. */
  lemma PercentExtremes(totalVotes: int)
    requires totalVotes > 0
    ensures Percent(totalVotes, totalVotes) == 100
    ensures Percent(0, totalVotes) == 0
  {
    var p, z, t2 := Percent(totalVotes, totalVotes), Percent(0, totalVotes), 2 * totalVotes;
    assert t2 * p < t2 * 101;
    MulCancel(t2, p, 101);
    assert t2 * 100 < t2 * (p + 1);
    MulCancel(t2, 100, p + 1);
    assert t2 * z < t2 * 1;
    MulCancel(t2, z, 1);
    assert t2 * 0 < t2 * (z + 1);
    MulCancel(t2, 0, z + 1);
  }

  /** More votes never show a smaller percentage. */
  lemma PercentMonotone(a: int, b: int, totalVotes: int)
    requires a <= b
    ensures Percent(a, totalVotes) <= Percent(b, totalVotes)
  {
    if totalVotes > 0 {
      var pa, pb, t2 := Percent(a, totalVotes), Percent(b, totalVotes), 2 * totalVotes;
      assert t2 * pa < t2 * (pb + 1);
      MulCancel(t2, pa, pb + 1);
    }
  }

  /** `loadPoll`'s renaming of the API's poll: camelCase fields, a missing option list
      becomes empty, each option takes `image_url` and `vote_count`. */
  function ToDetailPoll(raw: RawPoll): (p: Poll)
    ensures p.id == raw.id && p.title == raw.title && p.description == raw.description
    ensures p.isActive == raw.is_active && p.endDate == raw.end_date && p.createdAt == raw.created_at
    ensures p.startDate == raw.start_date && p.creatorName == raw.creator_name
    ensures p.totalVotes == raw.total_votes && p.hasVotedToday == raw.has_voted_today
    ensures p.canEdit == raw.can_edit
    ensures raw.options.None? ==> p.options == []
    ensures raw.options.Some? ==> |p.options| == |raw.options.value|
    ensures raw.options.Some? ==> forall i :: 0 <= i < |p.options| ==>
              var o := raw.options.value[i];
              p.options[i] == PollOption(o.id, o.text, o.image_url, o.vote_count, None)
  {
    var opts := raw.options.GetOr([]);
    Poll(raw.id, raw.title, raw.description, raw.creator_name, raw.start_date, raw.end_date,
         raw.is_active, raw.created_at, raw.total_votes, raw.has_voted_today, raw.can_edit,
         seq(|opts|, i requires 0 <= i < |opts| =>
           PollOption(opts[i].id, opts[i].text, opts[i].image_url, opts[i].vote_count, None)))
  }

  class PollDetailView {
    var poll: Option<Poll>
    var selectedOptionId: Option<string>
    var isLoading: bool
    var isVoting: bool
    var isAuthenticated: bool

    /** A vote is only ever in flight for a loaded poll; nothing resets `poll`. */
    ghost predicate Valid()
      reads this
    {
      isVoting ==> poll.Some?
    }

    constructor ()
      ensures Valid()
      ensures poll == None && selectedOptionId == None
      ensures !isLoading && !isVoting && !isAuthenticated
    {
      poll := None;
      selectedOptionId := None;
      isLoading := false;
      isVoting := false;
      isAuthenticated := false;
    }

    /** The `isAuthenticated$` subscription. */
    method OnAuthChanged(authenticated: bool)
      modifies this
      ensures isAuthenticated == authenticated
      ensures poll == old(poll) && selectedOptionId == old(selectedOptionId)
      ensures isLoading == old(isLoading) && isVoting == old(isVoting)
    {
      isAuthenticated := authenticated;
    }

    /** `loadPoll(id)`: raise the loading flag and ask for the poll. */
    method LoadPoll(id: string) returns (req: PollApi.ApiGet)
      modifies this
      ensures req == PollApi.ApiGet("/polls/" + id, [])
      ensures isLoading
      ensures poll == old(poll) && selectedOptionId == old(selectedOptionId)
      ensures isVoting == old(isVoting) && isAuthenticated == old(isAuthenticated)
    {
      isLoading := true;
      req := PollApi.ApiGet("/polls/" + id, []);
    }

    /** The route-parameter subscription: a poll is loaded only for a truthy `id`. */
    method OnRouteParams(id: Option<string>) returns (req: Option<PollApi.ApiGet>)
      modifies this
      ensures req.Some? <==> Truthy(id)
      ensures req.Some? ==> req.value == PollApi.ApiGet("/polls/" + id.value, []) && isLoading
      ensures req.None? ==> unchanged(this)
      ensures poll == old(poll) && isVoting == old(isVoting)
      ensures selectedOptionId == old(selectedOptionId) && isAuthenticated == old(isAuthenticated)
    {
      req := None;
      if Truthy(id) {
        var r := LoadPoll(id.value);
        req := Some(r);
      }
    }

    /** `calculatePercentages()`: each option of the loaded poll gets the rounded
        share of `poll.totalVotes` (not of the sum of the counts). */
    method CalculatePercentages()
      modifies this
      ensures old(poll).None? ==> poll == None
      ensures old(poll).Some? ==> poll.Some? && |poll.value.options| == |old(poll).value.options|
      ensures old(poll).Some? ==> poll.value == old(poll).value.(options := poll.value.options)
      ensures old(poll).Some? ==> forall k :: 0 <= k < |poll.value.options| ==>
                var o := old(poll).value.options[k];
                poll.value.options[k] == o.(percentage := Some(Percent(o.voteCount, old(poll).value.totalVotes)))
      ensures selectedOptionId == old(selectedOptionId) && isLoading == old(isLoading)
      ensures isVoting == old(isVoting) && isAuthenticated == old(isAuthenticated)
    {
      if poll.Some? {
        var p := poll.value;
        var opts := p.options;
        var i := 0;
        while i < |opts|
          invariant 0 <= i <= |opts| && |opts| == |p.options|
          invariant forall k :: 0 <= k < i ==>
                      opts[k] == p.options[k].(percentage := Some(Percent(p.options[k].voteCount, p.totalVotes)))
          invariant forall k :: i <= k < |opts| ==> opts[k] == p.options[k]
        {
          opts := opts[i := opts[i].(percentage := Some(Percent(opts[i].voteCount, p.totalVotes)))];
          i := i + 1;
        }
        poll := Some(p.(options := opts));
      }
    }

    /** The `getPoll` subscriber: success renames the poll and computes the
        percentages, and either outcome lowers the loading flag. */
    method OnPollReply(reply: Reply<RawPoll>)
      requires Valid()
      modifies this
      ensures Valid()
      ensures !isLoading
      ensures reply.Ok? ==> poll.Some? && poll.value == ToDetailPoll(reply.body).(options := poll.value.options)
      ensures reply.Ok? ==> |poll.value.options| == |ToDetailPoll(reply.body).options|
      ensures reply.Ok? ==> forall k :: 0 <= k < |poll.value.options| ==>
                var o := ToDetailPoll(reply.body).options[k];
                poll.value.options[k] == o.(percentage := Some(Percent(o.voteCount, reply.body.total_votes)))
      ensures reply.Failed? ==> poll == old(poll)
      ensures selectedOptionId == old(selectedOptionId)
      ensures isVoting == old(isVoting) && isAuthenticated == old(isAuthenticated)
    {
      if reply.Ok? {
        poll := Some(ToDetailPoll(reply.body));
        CalculatePercentages();
      }
      isLoading := false;
    }

    /** The condition under which `selectOption` does anything. */
    predicate CanSelect()
      reads this
    {
      isAuthenticated && poll.Some? && poll.value.hasVotedToday != Some(true) && poll.value.isActive
    }

    /** `selectOption(id)`: ignored when not signed in, already voted today, or
        the poll is missing or inactive. */
    method SelectOption(optionId: string)
      modifies this
      ensures old(CanSelect()) ==> selectedOptionId == Some(optionId)
      ensures !old(CanSelect()) ==> selectedOptionId == old(selectedOptionId)
      ensures poll == old(poll) && isLoading == old(isLoading)
      ensures isVoting == old(isVoting) && isAuthenticated == old(isAuthenticated)
    {
      if CanSelect() {
        selectedOptionId := Some(optionId);
      }
    }

    /** `submitVote()`: a no-op without a (truthy) selection, without a poll, or while
        a vote is in flight; otherwise it raises `isVoting` and sends
        `{pollId: poll.id, optionId: selected}`. */
    method SubmitVote() returns (request: Option<PollApi.VoteRequest>)
      requires Valid()
      modifies this
      ensures Valid()
      ensures request.Some? <==> Truthy(old(selectedOptionId)) && old(poll).Some? && !old(isVoting)
      ensures request.Some? ==> isVoting
                                && request.value == PollApi.VoteRequest(old(poll).value.id, old(selectedOptionId).value)
      ensures request.None? ==> isVoting == old(isVoting)
      ensures poll == old(poll) && selectedOptionId == old(selectedOptionId)
      ensures isLoading == old(isLoading) && isAuthenticated == old(isAuthenticated)
    {
      request := None;
      if Truthy(selectedOptionId) && poll.Some? && !isVoting {
        isVoting := true;
        request := Some(PollApi.VoteRequest(poll.value.id, selectedOptionId.value));
      }
    }

    /** The `vote` subscriber: success reloads the poll; both outcomes lower `isVoting`. */
    method OnVoteReply(reply: Reply<()>) returns (reload: Option<PollApi.ApiGet>)
      requires Valid() && isVoting
      modifies this
      ensures Valid()
      ensures !isVoting
      ensures reply.Ok? ==> reload == Some(PollApi.ApiGet("/polls/" + old(poll).value.id, [])) && isLoading
      ensures reply.Failed? ==> reload == None && isLoading == old(isLoading)
      ensures poll == old(poll) && selectedOptionId == old(selectedOptionId)
      ensures isAuthenticated == old(isAuthenticated)
    {
      reload := None;
      if reply.Ok? {
        var r := LoadPoll(poll.value.id);
        reload := Some(r);
      }
      isVoting := false;
    }

    /** `getStatusColor()`: 'primary' without a poll. */
    function StatusColorAt(now: int): (c: Color)
      reads this
      ensures poll.None? ==> c == Primary
      ensures poll.Some? ==>
                (c == Warn <==> (!poll.value.isActive || (poll.value.endDate.Some? && poll.value.endDate.value < now)))
    {
      if poll.None? then Primary else StatusColor(Classify(poll.value.isActive, poll.value.endDate, now))
    }

    /** `getStatusText()`: '' without a poll. */
    function StatusTextAt(now: int): (text: string)
      reads this
      ensures poll.None? ==> text == ""
      ensures poll.Some? && !poll.value.isActive ==> text == DisabledText
      ensures poll.Some? && poll.value.isActive && poll.value.endDate.Some? && poll.value.endDate.value < now ==>
                text == EndedText
      ensures poll.Some? && poll.value.isActive && (poll.value.endDate.None? || now <= poll.value.endDate.value) ==>
                text == RunningText
    {
      if poll.None? then "" else StatusText(Classify(poll.value.isActive, poll.value.endDate, now))
    }

    /** `isPollEnded()`: false without a poll or an end date, ignoring `isActive`. */
    function IsPollEnded(now: int): (ended: bool)
      reads this
      ensures ended <==> poll.Some? && poll.value.endDate.Some? && poll.value.endDate.value < now
    {
      poll.Some? && poll.value.endDate.Some? && poll.value.endDate.value < now
    }

    /** How `isPollEnded()` relates to the badge: an ended poll always gets the
        warn colour, and the 已結束 text means it has ended; but an inactive poll
        past its end date counts as ended while its badge reads 已停用. */
    lemma EndedPollBadge(now: int)
      ensures IsPollEnded(now) ==> StatusColorAt(now) == Warn
      ensures StatusTextAt(now) == EndedText ==> IsPollEnded(now)
      ensures IsPollEnded(now) && poll.value.isActive ==> StatusTextAt(now) == EndedText
      ensures IsPollEnded(now) && !poll.value.isActive ==> StatusTextAt(now) == DisabledText
    {
    }

    /** `isWinner(option)` over the loaded poll's options. */
    function IsWinnerOption(option: PollOption): (w: bool)
      reads this
      ensures poll.None? ==> !w
      ensures poll.Some? ==>
                (w <==> option.voteCount > 0
                        && (exists i :: 0 <= i < |poll.value.options| && poll.value.options[i].voteCount == option.voteCount)
                        && (forall i :: 0 <= i < |poll.value.options| ==> poll.value.options[i].voteCount <= option.voteCount))
    {
      poll.Some? && IsWinner(VoteCounts(poll.value.options), option.voteCount)
    }
  }

  function VoteCounts(options: seq<PollOption>): (counts: seq<int>)
    ensures |counts| == |options|
    ensures forall i :: 0 <= i < |options| ==> counts[i] == options[i].voteCount
  {
    seq(|options|, i requires 0 <= i < |options| => options[i].voteCount)
  }
}
