/** Poll records as the API sends them (snake_case) and as the components use
    them (camelCase), the status shown for a poll and the "winner" rule. Dates
    are integers on one clock; `now` is the time of the call. */
module Polls {
  import opened Wrappers

  datatype RawOption = RawOption(id: string, text: string, image_url: Option<string>, vote_count: int)

  /** A poll as the API returns it; `options` only in the single-poll reply. */
  datatype RawPoll = RawPoll(id: string, title: string, description: Option<string>,
                             is_active: bool, end_date: Option<int>, created_at: string,
                             start_date: string, creator_name: string, total_votes: int,
                             has_voted_today: Option<bool>, can_edit: Option<bool>,
                             image_url: Option<string>, options: Option<seq<RawOption>>)

  /** An option as the components hold it; `percentage` is filled in by poll-detail. */
  datatype PollOption = PollOption(id: string, text: string, imageUrl: Option<string>, voteCount: int,
                                   percentage: Option<int>)

  /** A poll as poll-detail holds it after renaming. */
  datatype Poll = Poll(id: string, title: string, description: Option<string>, creatorName: string,
                       startDate: string, endDate: Option<int>, isActive: bool, createdAt: string,
                       totalVotes: int, hasVotedToday: Option<bool>, canEdit: Option<bool>,
                       options: seq<PollOption>)

  /** A poll as the list pages hold it after renaming. */
  datatype PollSummary = PollSummary(id: string, title: string, description: Option<string>,
                                     creatorName: string, startDate: string, endDate: Option<int>,
                                     isActive: bool, createdAt: string, totalVotes: int,
                                     imageUrl: Option<string>)

  /** `(response.polls || []).map(...)` with the renaming `rename` of one page. */
  function MapPage(polls: Option<seq<RawPoll>>, rename: RawPoll -> PollSummary): (r: seq<PollSummary>)
    ensures polls.None? ==> r == []
    ensures polls.Some? ==> |r| == |polls.value|
                            && forall i :: 0 <= i < |r| ==> r[i] == rename(polls.value[i])
  {
    if polls.None? then [] else seq(|polls.value|, i requires 0 <= i < |polls.value| => rename(polls.value[i]))
  }

  /** The three states a poll can be shown in. */
  datatype Status = Disabled | Ended | Running

  /** `!isActive` first, then `endDate && endDate < now`. A falsy end date never ends a poll. */
  function Classify(isActive: bool, endDate: Option<int>, now: int): (s: Status)
    ensures s == Disabled <==> !isActive
    ensures s == Ended <==> isActive && endDate.Some? && endDate.value < now
    ensures s == Running <==> isActive && (endDate.None? || now <= endDate.value)
  {
    if !isActive then Disabled
    else if endDate.Some? && endDate.value < now then Ended
    else Running
  }

  const DisabledText := "已停用"
  const EndedText := "已結束"
  const RunningText := "進行中"

  datatype Color = Primary | Warn | Accent

  function StatusText(s: Status): (text: string)
    ensures text in {DisabledText, EndedText, RunningText}
  {
    match s
    case Disabled => DisabledText
    case Ended => EndedText
    case Running => RunningText
  }

  function StatusColor(s: Status): (c: Color)
    ensures c == Warn <==> !s.Running?
  {
    if s.Running? then Primary else Warn
  }

  /** The three texts are distinct, so the text identifies the status. */
  lemma StatusTextInjective(s: Status, t: Status)
    requires StatusText(s) == StatusText(t)
    ensures s == t
  {
  }

  /** An inactive poll shows as disabled whatever its end date; a poll past its end
      date shows as ended only while active. */
  lemma DisabledTakesPrecedence(endDate: Option<int>, now: int)
    ensures StatusText(Classify(false, endDate, now)) == DisabledText
    ensures endDate.Some? && endDate.value < now ==> StatusText(Classify(true, endDate, now)) == EndedText
  {
  }

  /** Once ended, a poll stays ended: the classification only moves forward in time. */
  lemma EndedIsPermanent(isActive: bool, endDate: Option<int>, now: int, later: int)
    requires now <= later
    requires Classify(isActive, endDate, now) == Ended
    ensures Classify(isActive, endDate, later) == Ended
  {
  }

  /** The largest of the counts, absent for none (`Math.max()` is -Infinity). */
  function MaxCount(counts: seq<int>): (m: Option<int>)
    ensures m.None? <==> counts == []
    ensures m.Some? ==> (exists i :: 0 <= i < |counts| && counts[i] == m.value)
    ensures m.Some? ==> forall i :: 0 <= i < |counts| ==> counts[i] <= m.value
  {
    if counts == [] then None
    else
      var rest := MaxCount(counts[1..]);
      if rest.None? || counts[0] >= rest.value then Some(counts[0])
      else
        assert forall i :: 1 <= i < |counts| ==> counts[i] == counts[1..][i - 1];
        rest
  }

  /** `isWinner(option)`: its count equals the maximum over the poll and is positive. */
  function IsWinner(counts: seq<int>, count: int): (w: bool)
    ensures w <==> count > 0 && (exists i :: 0 <= i < |counts| && counts[i] == count)
                   && (forall i :: 0 <= i < |counts| ==> counts[i] <= count)
  {
    var m := MaxCount(counts);
    m.Some? && count == m.value && count > 0
  }

  /** Ties all win: two options with the same positive top count are both winners. */
  lemma TiesAllWin(counts: seq<int>, i: nat, j: nat)
    requires i < |counts| && j < |counts|
    requires counts[i] == counts[j] && IsWinner(counts, counts[i])
    ensures IsWinner(counts, counts[j])
  {
  }

  /** With no votes at all there is no winner. */
  lemma NoVotesNoWinner(counts: seq<int>, c: int)
    requires forall i :: 0 <= i < |counts| ==> counts[i] <= 0
    ensures !IsWinner(counts, c)
  {
  }

  /** Some option wins as soon as any option has a vote. */
  lemma SomeVoteSomeWinner(counts: seq<int>, k: nat)
    requires k < |counts| && counts[k] > 0
    ensures exists i :: 0 <= i < |counts| && IsWinner(counts, counts[i])
  {
    var m := MaxCount(counts);
    var i :| 0 <= i < |counts| && counts[i] == m.value;
    assert IsWinner(counts, counts[i]);
  }
}
