# Voting app client — verified model

This project models the logic of an Angular client for a REST voting API. The
client lets visitors browse polls and sign up or log in. Signed-in users vote
(once a day per poll), create polls with optional option images, and read
statistics of their own polls. They can also look at their vote history and
edit their profile.

The model covers these parts:

- **Session.** `AuthService` keeps a JSON Web Token in local storage. It also
  keeps the current user and an "authenticated" flag, which two
  BehaviorSubjects broadcast.
  - It checks the token's `exp` claim (section 4.1.4 of RFC 7519). The payload
    is decoded with `atob`, which uses the base64 alphabet rather than the
    base64url alphabet of section 2 of RFC 7515.
  - It schedules a token refresh.
  - It logs in, registers, logs out, refreshes, restores a session from a
    stored token and updates the profile.
- **Navigation and requests.**
  - `AuthGuard` and `NoAuthGuard` route on the flag.
  - The HTTP interceptor adds `Authorization: Bearer <token>` (section 2.1 of
    RFC 6750). On a 401 it logs out and re-raises the error.
- **`PollService`.** It builds the query parameters, keeping every key whose
  value is neither undefined nor null. It also lays out the create-poll upload.
- **Components.** The model covers poll list, my polls, poll detail, poll
  statistics, option detail, create poll, vote history, login, register and
  profile. For each it covers:
  - the state fields the component updates
  - the request each action sends
  - what each server reply does to the state
  - the pure display rules: percentages, winner, status badge, cumulative
    daily votes, distinct polls, first and last vote, and the shown image

Server replies, the clock (`now`, in seconds, as an integer), the user's
confirmation and the JWT payload parser are inputs. A request is modelled as
the value it would send. Each subscriber callback is a separate `On…Reply`
method that takes the reply.

A session restored from a stored token is split into two steps:
`LoadUserFromToken` and `OnProfileReply`. Guards and components read the flag
while the profile fetch is still pending, so the intermediate state can be
observed. `Auth.LogoutDuringProfileFetch` shows one consequence. A logout that
completes during that fetch does not cancel it. The fetch's success then raises
the flag again with no token stored. For that reason `AuthService.Valid()`
only states `authenticated ==> currentUser != null`.

Three behaviours of the code are kept on purpose:

- The refresh floor `Math.max(…, 60000)` is in seconds (16 h 40 min), though
  its comment says one minute. It is modelled as written.
  `Jwt.RefreshFiresAfterExpiry` states the effect: every token with less than
  60000 s left is refreshed only after it has expired.
- On a 401 the interceptor navigates to the login page twice on a successful
  logout: once from `logout()`'s `tap`, once from the `complete` handler. It
  does not navigate at all when the logout call itself fails. The logout POST
  also passes through the interceptor. If it answers 401 the interceptor runs
  again, and that is not modelled as a loop.
- Option detail calls `getPollOption` and uses the `PollOptionImage` type. In
  this version of the service, `poll.service.ts` declares neither, so the fetch
  is modelled only as the request it would send (`OptionFetch`).

## Model

| member | source | states |
|---|---|---|
| Wrappers.OrElse | src/app/modules/auth/components/login/login.component.ts:180 | `x \|\| fallback`: the value when it is a non-empty string, else the fallback; never empty with a non-empty fallback |
| Wrappers.ErrorText | src/app/modules/auth/components/register/register.component.ts:250 | the message shown for a failed call is the server's `error` text or the default, and is never empty |
| Text.NatToDecimal | src/app/services/poll.service.ts:132 | `toString()` of a count: at least one digit, digits only, no leading zero |
| Text.DecimalRoundTrip | src/app/services/poll.service.ts:132 | reading the decimal text back yields the number |
| Text.DecimalInjective | src/app/services/poll.service.ts:132 | different numbers give different parameter texts |
| Validators.Utf16Length | src/app/modules/auth/components/register/register.component.ts:210-212 | `value.length`, which `minLength`/`maxLength` compare: between the number of characters and twice it, equal to it when no character lies outside the Basic Multilingual Plane |
| Validators.Utf16LengthConcat | src/app/modules/auth/components/register/register.component.ts:210-212 | code-unit lengths add up over concatenation |
| Validators.RequiredMinLength | src/app/modules/auth/components/register/register.component.ts:210-212 | a filled-in field with `minLength(n)` has at least n UTF-16 code units, so at least n/2 characters |
| Validators.AstralCharactersCountTwice | src/app/modules/profile/components/profile/profile.component.ts:359 | one emoji alone passes `minLength(2)`; k of them break `maxLength(2k - 1)` |
| Jwt.PayloadSegment | src/app/services/auth.service.ts:91 | `token.split('.')[1]` exists iff the token has a dot, and contains no dot |
| Jwt.DecodeExp | src/app/services/auth.service.ts:89-99 | no payload segment, or a character outside atob's alphabet, is a decoding failure; otherwise the claim is the parser's |
| Jwt.ExpiredIffStrictlyPast | src/app/services/auth.service.ts:94 | with claim `exp`, the token is expired iff `exp < now`; at `now == exp` it is not |
| Jwt.ExpiryIsMonotone | src/app/services/auth.service.ts:89-99 | a token expired now stays expired at every later time |
| Jwt.UrlSafePayloadIsExpired | src/app/services/auth.service.ts:91-97 | a payload with a base64url character `-` or `_` makes the token expired for every parser and time |
| Jwt.DotlessTokenIsExpired | src/app/services/auth.service.ts:91-97 | a token without a payload segment is expired |
| Jwt.RefreshDelaySeconds | src/app/services/auth.service.ts:105-108 | the delay is `max(exp - now - 3600, 60000)` s: never below 60000, one hour before expiry above 63600 s left |
| Jwt.RefreshTimerMs | src/app/services/auth.service.ts:101-119 | a decoding failure sets no timer; an absent claim gives a NaN (zero) delay; otherwise 1000 × the delay, at least 60000000 ms |
| Jwt.RefreshFiresAfterExpiry | src/app/services/auth.service.ts:108 | for any token with under 60000 s left the refresh fires after expiry |
| Jwt.TimerWaitMs | src/app/services/auth.service.ts:112-115 | the wait a timer applies: the delay wrapped to a signed 32-bit integer, negative meaning zero; delays below 2^31 are kept, those in [2^31, 2^32) fire at once |
| Jwt.RefreshOneHourEarly | src/app/services/auth.service.ts:107-115 | for tokens with 63600 to 2151083 s left the timer waits exactly until 3600 s before expiry |
| Jwt.LongLivedTokenRefreshesAtOnce | src/app/services/auth.service.ts:108-115 | with 2151084 to 4298567 s left the millisecond delay wraps and the refresh fires immediately |
| Auth.AuthService.constructor | src/app/services/auth.service.ts:38-49 | the subjects start at null and false; the storage keeps what it held |
| Auth.AuthService.IsTokenValid | src/app/services/auth.service.ts:221-225 | false without a token; otherwise true iff the claim is absent or `now <= exp` |
| Auth.AuthService.ValidityOnlyLapses | src/app/services/auth.service.ts:221-225 | a token valid now was valid at every earlier time |
| Auth.AuthService.ClearAuthData | src/app/services/auth.service.ts:204-210 | token removed, user null, flag false |
| Auth.AuthService.Login | src/app/services/auth.service.ts:154-164 | success stores the token, publishes the user and the flag and schedules the refresh; an error changes nothing |
| Auth.AuthService.Register | src/app/services/auth.service.ts:142-152 | the same effect as login |
| Auth.AuthService.Logout | src/app/services/auth.service.ts:166-174 | clears the session and navigates to the login page only when the server call succeeds; otherwise nothing changes |
| Auth.AuthService.LoadUserFromToken | src/app/services/auth.service.ts:51-64 | no token: unchanged; expired: cleared and no fetch; live: the profile is fetched and nothing changes yet |
| Auth.AuthService.OnProfileReply | src/app/services/auth.service.ts:64-83 | success publishes the user and the flag and schedules a refresh for the token; 401 clears; any other status keeps token and state |
| Auth.AuthService.RefreshToken | src/app/services/auth.service.ts:121-140 | nothing without a token; success replaces only the token and reschedules; failure clears the session |
| Auth.AuthService.UpdateProfile | src/app/services/auth.service.ts:180-189 | a reply carrying a user replaces the current user; token and flag never change |
| Auth.LogoutDuringProfileFetch | src/app/services/auth.service.ts:64-71 | a logout completing during the profile fetch is undone by the fetch's success: authenticated with no stored token |
| Guards.AuthGuardVerdict | src/app/guards/auth.guard.ts:28-38 | allow iff authenticated; otherwise redirect to `/auth/login` with `returnUrl` = the requested url |
| Guards.NoAuthGuardVerdict | src/app/guards/auth.guard.ts:53-64 | allow iff not authenticated; otherwise redirect to `/polls` |
| Guards.GuardsAreComplementary | src/app/guards/auth.guard.ts:28-64 | exactly one of the two guards allows for any flag, and whichever redirects sends the visitor where the other guard, at the same flag, lets them in |
| Guards.AuthGuard.CanActivate | src/app/guards/auth.guard.ts:15-41 | starts `loadUserFromToken` iff the token is valid and the flag false; decides on the flag as read at call time, without waiting |
| Guards.NoAuthGuard.CanActivate | src/app/guards/auth.guard.ts:53-65 | decides on the flag as read at call time |
| Interceptor.WithBearer | src/app/interceptors/auth.interceptor.ts:22-28 | without a token the request is unchanged; with one, only the `Authorization` header is set, to `Bearer <token>` |
| Interceptor.BearerCredential | src/app/interceptors/auth.interceptor.ts:26 | a credential read back from a header is what follows `Bearer ` |
| Interceptor.BearerRoundTrip | src/app/interceptors/auth.interceptor.ts:24-28 | the credential a server reads from the forwarded request is the stored token |
| Interceptor.AuthInterceptor.Intercept | src/app/interceptors/auth.interceptor.ts:16-31 | the forwarded request is the original with the bearer header when a token is stored |
| Interceptor.AuthInterceptor.OnError | src/app/interceptors/auth.interceptor.ts:32-43 | every error is re-raised unchanged; only a 401 sends a logout, which clears the session and navigates to the login page only when it succeeds |
| PollApi.KeptParams | src/app/services/poll.service.ts:128-135 | never more parameters than keys |
| PollApi.KeptParamsExact | src/app/services/poll.service.ts:128-135 | a (key, text) pair is sent iff some key holds a defined value with that text |
| PollApi.KeptKeysDistinct | src/app/services/poll.service.ts:128-135 | an object naming each key once sends each parameter name at most once |
| PollApi.DroppedKeysAbsent | src/app/services/poll.service.ts:131 | keys whose values are all undefined or null never appear |
| PollApi.KeptParamsConcat | src/app/services/poll.service.ts:129-134 | each key is filtered on its own: the filter distributes over concatenation |
| PollApi.KeptParamsSingle | src/app/services/poll.service.ts:130-133 | one key is kept, with its text, iff its value is defined |
| PollApi.FalsyValuesKept | src/app/services/poll.service.ts:131 | `false`, `0` and `''` are sent; null is dropped |
| PollApi.BuildHttpParams | src/app/services/poll.service.ts:126-135 | absent params give no parameters; otherwise the loop yields exactly the kept parameters in key order |
| PollApi.PageQuery | src/app/modules/profile/components/vote-history/vote-history.component.ts:427-430 | `{ page, limit }` names two distinct keys and sends both, as decimal text |
| PollApi.GetPolls | src/app/services/poll.service.ts:118-138 | GET /polls with the kept parameters |
| PollApi.GetMyPolls | src/app/services/poll.service.ts:144-157 | GET /polls/my/polls with the kept parameters |
| PollApi.GetVoteHistory | src/app/services/poll.service.ts:176-189 | GET /votes/history with the kept parameters |
| PollApi.GetPollVotes | src/app/services/poll.service.ts:196-209 | GET /votes/poll/:id with the kept parameters |
| PollApi.BuildCreatePollForm | src/app/services/poll.service.ts:105-116 | one `pollData` entry first, then one `images` entry per file in order; none when the list is absent or empty |
| Polls.MapPage | src/app/modules/polls/components/poll-list/poll-list.component.ts:396-405 | a missing `polls` list becomes empty; otherwise one renamed poll per raw poll, in order |
| Polls.Classify | src/app/modules/polls/components/poll-detail/poll-detail.component.ts:704-716 | disabled iff inactive; ended iff active with `endDate < now`; running otherwise |
| Polls.StatusText | src/app/modules/polls/components/poll-detail/poll-detail.component.ts:711-716 | one of the three badge texts |
| Polls.StatusColor | src/app/modules/polls/components/poll-detail/poll-detail.component.ts:704-709 | `warn` exactly for disabled and ended |
| Polls.StatusTextInjective | src/app/modules/polls/components/poll-detail/poll-detail.component.ts:711-716 | the badge text identifies the status |
| Polls.DisabledTakesPrecedence | src/app/modules/polls/components/poll-detail/poll-detail.component.ts:713-714 | an inactive poll reads 已停用 whatever its end date; an active one past its end date reads 已結束 |
| Polls.EndedIsPermanent | src/app/modules/polls/components/poll-detail/poll-detail.component.ts:714 | an ended poll stays ended later |
| Polls.MaxCount | src/app/modules/polls/components/poll-detail/poll-detail.component.ts:725 | `Math.max(...counts)`: absent for no options; otherwise a count that is attained and bounds all counts |
| Polls.IsWinner | src/app/modules/polls/components/poll-detail/poll-detail.component.ts:723-727 | a winner's count is positive, attained and not exceeded |
| Polls.TiesAllWin | src/app/modules/polls/components/poll-detail/poll-detail.component.ts:726 | equal top counts all win |
| Polls.NoVotesNoWinner | src/app/modules/polls/components/poll-detail/poll-detail.component.ts:726 | no votes, no winner |
| Polls.SomeVoteSomeWinner | src/app/modules/polls/components/poll-detail/poll-detail.component.ts:725-726 | one vote anywhere makes some option a winner |
| PollDetail.Percent | src/app/modules/polls/components/poll-detail/poll-detail.component.ts:654 | the integer nearest to the exact share 100·votes/total, halves up, exactly bracketed; 0 when the total is not positive |
| PollDetail.PercentInRange | src/app/modules/polls/components/poll-detail/poll-detail.component.ts:654 | between 0 and 100 when `0 <= votes <= total` |
| PollDetail.PercentExtremes | src/app/modules/polls/components/poll-detail/poll-detail.component.ts:654 | all votes give 100, none give 0 |
| PollDetail.PercentMonotone | src/app/modules/polls/components/poll-detail/poll-detail.component.ts:654 | more votes never show a lower percentage |
| PollDetail.ToDetailPoll | src/app/modules/polls/components/poll-detail/poll-detail.component.ts:621-637 | snake_case renamed to camelCase; missing options become empty; each option keeps its place with `imageUrl`, `voteCount` |
| PollDetail.VoteCounts | src/app/modules/polls/components/poll-detail/poll-detail.component.ts:725 | the options' counts in order |
| PollDetail.PollDetailView.constructor | src/app/modules/polls/components/poll-detail/poll-detail.component.ts:589-593 | nothing loaded, nothing selected, all flags false |
| PollDetail.PollDetailView.OnAuthChanged | src/app/modules/polls/components/poll-detail/poll-detail.component.ts:604-606 | the flag mirrors the session |
| PollDetail.PollDetailView.OnRouteParams | src/app/modules/polls/components/poll-detail/poll-detail.component.ts:608-613 | loads iff the id is truthy |
| PollDetail.PollDetailView.LoadPoll | src/app/modules/polls/components/poll-detail/poll-detail.component.ts:616-618 | raises the flag and requests GET /polls/:id |
| PollDetail.PollDetailView.CalculatePercentages | src/app/modules/polls/components/poll-detail/poll-detail.component.ts:649-656 | nothing without a poll; otherwise every option's percentage is `Percent(count, poll.totalVotes)`, all else unchanged |
| PollDetail.PollDetailView.OnPollReply | src/app/modules/polls/components/poll-detail/poll-detail.component.ts:619-646 | success shows the renamed poll with percentages; an error keeps the poll; the flag drops either way |
| PollDetail.PollDetailView.SelectOption | src/app/modules/polls/components/poll-detail/poll-detail.component.ts:658-663 | selects only when authenticated, not voted today and the poll active |
| PollDetail.PollDetailView.SubmitVote | src/app/modules/polls/components/poll-detail/poll-detail.component.ts:665-675 | sends `{pollId, optionId}` iff an option is selected, a poll loaded and no vote in flight |
| PollDetail.PollDetailView.OnVoteReply | src/app/modules/polls/components/poll-detail/poll-detail.component.ts:676-687 | the vote flag drops on both outcomes; success reloads the poll |
| PollDetail.PollDetailView.StatusColorAt | src/app/modules/polls/components/poll-detail/poll-detail.component.ts:704-709 | primary without a poll; warn iff inactive or past its end date |
| PollDetail.PollDetailView.StatusTextAt | src/app/modules/polls/components/poll-detail/poll-detail.component.ts:711-716 | empty without a poll, then the disabled > ended > running precedence |
| PollDetail.PollDetailView.IsPollEnded | src/app/modules/polls/components/poll-detail/poll-detail.component.ts:718-721 | true iff an end date exists and lies before now, active or not |
| PollDetail.PollDetailView.EndedPollBadge | src/app/modules/polls/components/poll-detail/poll-detail.component.ts:704-721 | an ended poll always has the warn colour and reads 已結束 iff active; an inactive one past its end is ended yet reads 已停用; 已結束 implies ended |
| PollDetail.PollDetailView.IsWinnerOption | src/app/modules/polls/components/poll-detail/poll-detail.component.ts:723-727 | false without a poll; otherwise positive, attained and maximal among the options |
| PollStatsPage.SliceEnd | src/app/modules/polls/components/poll-stats/poll-stats.component.ts:788 | `slice(0, end)`'s end: in range as given, clamped past the end, counted from the back when negative |
| PollStatsPage.PrefixSumMonotone | src/app/modules/polls/components/poll-stats/poll-stats.component.ts:787-789 | with non-negative counts a longer prefix never sums to less |
| PollStatsPage.CumulativeMonotone | src/app/modules/polls/components/poll-stats/poll-stats.component.ts:785-790 | the running total is non-decreasing in the index, from -1 on |
| PollStatsPage.CumulativeStep | src/app/modules/polls/components/poll-stats/poll-stats.component.ts:785-790 | day i adds exactly its own count |
| PollStatsPage.CumulativeAtEnd | src/app/modules/polls/components/poll-stats/poll-stats.component.ts:788 | at or past the last index the running total is the grand total |
| PollStatsPage.CumulativeNegativeIndex | src/app/modules/polls/components/poll-stats/poll-stats.component.ts:788 | index -2 leaves out only the last day |
| PollStatsPage.OptionCounts | src/app/modules/polls/components/poll-stats/poll-stats.component.ts:765 | the options' counts in order |
| PollStatsPage.PollStatsView.constructor | src/app/modules/polls/components/poll-stats/poll-stats.component.ts:735-742 | no statistics and empty charts |
| PollStatsPage.PollStatsView.OnRouteParams | src/app/modules/polls/components/poll-stats/poll-stats.component.ts:736-741 | loads iff the id is truthy |
| PollStatsPage.PollStatsView.LoadPollStats | src/app/modules/polls/components/poll-stats/poll-stats.component.ts:744-746 | raises the flag and requests GET /votes/stats/:id |
| PollStatsPage.PollStatsView.UpdateCharts | src/app/modules/polls/components/poll-stats/poll-stats.component.ts:760-777 | nothing without statistics; else one pie slice per option and one bar per day, with their counts in order |
| PollStatsPage.PollStatsView.OnStatsReply | src/app/modules/polls/components/poll-stats/poll-stats.component.ts:747-757 | success stores the statistics and charts them: a pie label and count per option and a bar label and count per day, in order; an error keeps them; the flag drops either way |
| PollStatsPage.PollStatsView.CumulativeVotes | src/app/modules/polls/components/poll-stats/poll-stats.component.ts:785-790 | 0 without statistics; the grand total at or past the last day |
| PollStatsPage.PollStatsView.IsWinnerOption | src/app/modules/polls/components/poll-stats/poll-stats.component.ts:779-783 | false without statistics; otherwise positive, attained and maximal |
| CreatePoll.SpliceStart | src/app/modules/polls/components/create-poll/create-poll.component.ts:510 | the position `splice`/`removeAt` remove: as given when non-negative, counted from the back otherwise |
| CreatePoll.RemoveAt | src/app/modules/polls/components/create-poll/create-poll.component.ts:509-510 | exactly the element at that position goes, the rest keep their order; past the end nothing goes |
| CreatePoll.Uploads | src/app/modules/polls/components/create-poll/create-poll.component.ts:562-577 | each file comes from a truthy image slot, carries its data URL and index, in increasing index order |
| CreatePoll.UploadsComplete | src/app/modules/polls/components/create-poll/create-poll.component.ts:563-564 | every truthy slot gets its file |
| CreatePoll.RequestOptions | src/app/modules/polls/components/create-poll/create-poll.component.ts:554-557 | option i keeps its text and has `hasImage` iff its slot is not null |
| CreatePoll.FlagsMatchUploads | src/app/modules/polls/components/create-poll/create-poll.component.ts:554-577 | with no empty data URL, the flagged options are exactly those that get a file |
| CreatePoll.EmptyDataUrlFlaggedWithoutFile | src/app/modules/polls/components/create-poll/create-poll.component.ts:556-564 | an empty data URL is flagged yet sends no file |
| CreatePoll.ImagesArgument | src/app/modules/polls/components/create-poll/create-poll.component.ts:579 | no list when there are no files |
| CreatePoll.CollectUploads | src/app/modules/polls/components/create-poll/create-poll.component.ts:561-577 | the `forEach` loop builds exactly `Uploads` |
| CreatePoll.CreatePollComponent.constructor | src/app/modules/polls/components/create-poll/create-poll.component.ts:464-492 | two empty options, two null images, not submitting |
| CreatePoll.CreatePollComponent.AddOption | src/app/modules/polls/components/create-poll/create-poll.component.ts:498-505 | both lists grow by one empty entry; equal lengths kept |
| CreatePoll.CreatePollComponent.RemoveOption | src/app/modules/polls/components/create-poll/create-poll.component.ts:507-512 | at most two options: unchanged; else both lists lose the same position; at least two and equal lengths kept |
| CreatePoll.CreatePollComponent.OnImageSelected | src/app/modules/polls/components/create-poll/create-poll.component.ts:519-534 | no file: nothing; over 5 MB: refused, nothing changes; else slot i holds the data URL and option i is flagged |
| CreatePoll.CreatePollComponent.RemoveImage | src/app/modules/polls/components/create-poll/create-poll.component.ts:536-543 | only slot i is emptied and only option i unflagged |
| CreatePoll.CreatePollComponent.OnSubmit | src/app/modules/polls/components/create-poll/create-poll.component.ts:545-580 | nothing unless valid and idle; the request keeps the title, drops an empty description or end date, flags images per slot; files from the truthy slots |
| CreatePoll.CreatePollComponent.OnCreateReply | src/app/modules/polls/components/create-poll/create-poll.component.ts:580-588 | success navigates to the new poll; an error lowers the flag |
| VoteHistoryPage.PollIds | src/app/modules/profile/components/vote-history/vote-history.component.ts:476 | an id is in the set iff some vote is on that poll |
| VoteHistoryPage.PollIdsBounded | src/app/modules/profile/components/vote-history/vote-history.component.ts:475-478 | never more distinct polls than votes |
| VoteHistoryPage.DistinctPollsCountAll | src/app/modules/profile/components/vote-history/vote-history.component.ts:475-478 | votes on pairwise different polls count one each |
| VoteHistoryPage.RepeatedPollCountsLess | src/app/modules/profile/components/vote-history/vote-history.component.ts:475-478 | two votes on one poll make the count smaller than the number of votes |
| VoteHistoryPage.UniquePolls | src/app/modules/profile/components/vote-history/vote-history.component.ts:475-478 | between 1 and the number of votes for a non-empty page |
| VoteHistoryPage.FirstVote | src/app/modules/profile/components/vote-history/vote-history.component.ts:480-483 | empty for no votes, else the last entry's time |
| VoteHistoryPage.LastVote | src/app/modules/profile/components/vote-history/vote-history.component.ts:485-488 | empty for no votes, else the first entry's time |
| VoteHistoryPage.FirstAndLastSwapOnReversal | src/app/modules/profile/components/vote-history/vote-history.component.ts:480-488 | reading the page the other way round swaps first and last vote; they agree on a single vote |
| VoteHistoryPage.FirstAndLastUnderExtension | src/app/modules/profile/components/vote-history/vote-history.component.ts:480-488 | prepending newer votes keeps the first vote; appending older ones keeps the last vote |
| VoteHistoryPage.VoteHistoryView.constructor | src/app/modules/profile/components/vote-history/vote-history.component.ts:406-412 | no votes, page 1, size 10, total 0 |
| VoteHistoryPage.VoteHistoryView.LoadVoteHistory | src/app/modules/profile/components/vote-history/vote-history.component.ts:424-432 | raises the flag and requests the current page and size |
| VoteHistoryPage.VoteHistoryView.OnHistoryReply | src/app/modules/profile/components/vote-history/vote-history.component.ts:433-443 | success shows the votes (none when missing), and `totalVotes` becomes `pagination.total` whatever the page length; an error keeps both |
| VoteHistoryPage.VoteHistoryView.OnPageChange | src/app/modules/profile/components/vote-history/vote-history.component.ts:446-450 | page = pageIndex + 1, size from the event, then reload |
| VoteHistoryPage.VoteHistoryView.TotalVotes | src/app/modules/profile/components/vote-history/vote-history.component.ts:471-473 | the total the server reported with the last page (set by `OnHistoryReply`), not the page length |
| PollList.ListQuery | src/app/modules/polls/components/poll-list/poll-list.component.ts:384-391 | the list's query object names six distinct keys |
| PollList.ActiveParam | src/app/modules/polls/components/poll-list/poll-list.component.ts:390 | undefined iff the filter is `all`; otherwise `filter == 'true'` |
| PollList.ListQueryParams | src/app/modules/polls/components/poll-list/poll-list.component.ts:384-391 | page, limit, search (`''` when null), sortBy and DESC always sent; `active` sent iff the filter is not `all` |
| PollList.ListRename | src/app/modules/polls/components/poll-list/poll-list.component.ts:398-405 | the camelCase fields carry the snake_case values; no `imageUrl` |
| PollList.ListStatusText | src/app/modules/polls/components/poll-list/poll-list.component.ts:452-456 | disabled > ended > running (my-polls.component.ts:402-406 is the same rule) |
| PollList.ListStatusColor | src/app/modules/polls/components/poll-list/poll-list.component.ts:446-450 | warn iff disabled or ended (my-polls.component.ts:396-400 is the same rule) |
| PollList.CheckAuthStatus | src/app/modules/polls/components/poll-list/poll-list.component.ts:373-379 | starts `loadUserFromToken` iff the token is valid and the flag false; the session is unchanged |
| PollList.PollListView.constructor | src/app/modules/polls/components/poll-list/poll-list.component.ts:334-345 | search `''`, sort `created_at`, filter `true`, page 1, size 6 |
| PollList.PollListView.NgOnInit | src/app/modules/polls/components/poll-list/poll-list.component.ts:352-362 | checks the session, mirrors the flag, loads the list |
| PollList.PollListView.OnAuthChanged | src/app/modules/polls/components/poll-list/poll-list.component.ts:358-360 | the flag mirrors the session |
| PollList.PollListView.LoadPolls | src/app/modules/polls/components/poll-list/poll-list.component.ts:381-393 | raises the flag and requests GET /polls with the list query |
| PollList.PollListView.OnPollsReply | src/app/modules/polls/components/poll-list/poll-list.component.ts:394-411 | success shows the renamed page and the total; an error keeps both; the flag drops either way |
| PollList.PollListView.OnSortChange | src/app/modules/polls/components/poll-list/poll-list.component.ts:415-418 | back to page 1 with the new sort key |
| PollList.PollListView.OnFilterChange | src/app/modules/polls/components/poll-list/poll-list.component.ts:420-423 | back to page 1 with the new filter |
| PollList.PollListView.OnSearchChange | src/app/modules/polls/components/poll-list/poll-list.component.ts:365-371 | back to page 1 with the new search text |
| PollList.PollListView.OnPageChange | src/app/modules/polls/components/poll-list/poll-list.component.ts:425-429 | page = pageIndex + 1, size from the event |
| MyPolls.MyRename | src/app/modules/polls/components/my-polls/my-polls.component.ts:333-343 | the list's renaming plus `imageUrl = image_url` |
| MyPolls.MyPollsView.constructor | src/app/modules/polls/components/my-polls/my-polls.component.ts:304-308 | page 1, size 6, no polls |
| MyPolls.MyPollsView.LoadMyPolls | src/app/modules/polls/components/my-polls/my-polls.component.ts:322-332 | raises the flag and requests the current page and size |
| MyPolls.MyPollsView.OnMyPollsReply | src/app/modules/polls/components/my-polls/my-polls.component.ts:333-351 | success shows the renamed page (none when missing) and the total; an error keeps both |
| MyPolls.MyPollsView.OnPageChange | src/app/modules/polls/components/my-polls/my-polls.component.ts:354-358 | page = pageIndex + 1, size from the event |
| MyPolls.MyPollsView.DeletePoll | src/app/modules/polls/components/my-polls/my-polls.component.ts:368-371 | DELETE /polls/:id is sent iff the user confirms |
| MyPolls.MyPollsView.OnDeleteReply | src/app/modules/polls/components/my-polls/my-polls.component.ts:371-381 | success reloads the list; an error changes nothing |
| OptionDetail.FindPrimary | src/app/modules/polls/components/option-detail/option-detail.component.ts:260 | the first image marked primary, or none when no image is |
| OptionDetail.ChooseImage | src/app/modules/polls/components/option-detail/option-detail.component.ts:259-264 | first primary image, else the first image, else the default picture |
| OptionDetail.ChosenImageIsOffered | src/app/modules/polls/components/option-detail/option-detail.component.ts:259-264 | the shown picture is one of the option's images or the default |
| OptionDetail.UniquePrimaryIsShown | src/app/modules/polls/components/option-detail/option-detail.component.ts:260-261 | a unique primary image is shown wherever it sits |
| OptionDetail.OptionDetailView.constructor | src/app/modules/polls/components/option-detail/option-detail.component.ts:226-231 | nothing loaded, flags false |
| OptionDetail.OptionDetailView.OnRouteParams | src/app/modules/polls/components/option-detail/option-detail.component.ts:244-252 | the poll id is stored; loads iff both parameters are truthy |
| OptionDetail.OptionDetailView.LoadOption | src/app/modules/polls/components/option-detail/option-detail.component.ts:254-256 | raises the flag and fetches the option |
| OptionDetail.OptionDetailView.OnOptionReply | src/app/modules/polls/components/option-detail/option-detail.component.ts:257-272 | success shows the option and its chosen image; an error keeps them; the flag drops either way |
| OptionDetail.OptionDetailView.SelectImage | src/app/modules/polls/components/option-detail/option-detail.component.ts:275-277 | shows exactly that image |
| OptionDetail.OptionDetailView.SubmitVote | src/app/modules/polls/components/option-detail/option-detail.component.ts:279-288 | votes with the route's poll id and the option's id iff an option is loaded and no vote in flight |
| OptionDetail.OptionDetailView.OnVoteReply | src/app/modules/polls/components/option-detail/option-detail.component.ts:290-301 | the flag drops on both outcomes; success reloads; an error shows the server's message or the default |
| RegisterPage.ValidRegistration | src/app/modules/auth/components/register/register.component.ts:209-233 | a valid form has a name of 2+ and a password of 6+ UTF-16 code units, the password typed twice the same |
| RegisterPage.RegisterForm.constructor | src/app/modules/auth/components/register/register.component.ts:209-216 | empty fields, not loading |
| RegisterPage.RegisterForm.Fill | src/app/modules/auth/components/register/register.component.ts:209-213 | the four controls hold what was typed |
| RegisterPage.RegisterForm.OnSubmit | src/app/modules/auth/components/register/register.component.ts:235-239 | nothing unless valid and idle; the payload is the form value without `confirmPassword` |
| RegisterPage.RegisterForm.OnRegisterReply | src/app/modules/auth/components/register/register.component.ts:241-257 | success starts the session and goes to `/polls` with the flag still raised; an error shows the server's message or the default and lowers the flag |
| ProfilePage.MismatchValidatorsDiffer | src/app/modules/profile/components/profile/profile.component.ts:393-403 | the profile's match rule implies registration's; they differ exactly when one field is empty and the other not |
| ProfilePage.ValidPasswordChange | src/app/modules/profile/components/profile/profile.component.ts:363-367 | a valid password form has the new password, 6+ UTF-16 code units, typed twice the same |
| ProfilePage.ProfileView.constructor | src/app/modules/profile/components/profile/profile.component.ts:345-368 | empty forms, no user, flags false |
| ProfilePage.ProfileView.LoadUserProfile | src/app/modules/profile/components/profile/profile.component.ts:374-376 | raises the flag |
| ProfilePage.ProfileView.OnProfileLoaded | src/app/modules/profile/components/profile/profile.component.ts:376-390 | success shows the user in the form; an error keeps it; the flag drops either way |
| ProfilePage.ProfileView.OnSubmit | src/app/modules/profile/components/profile/profile.component.ts:405-411 | nothing unless valid and idle; sends only the name |
| ProfilePage.ProfileView.OnProfileUpdateReply | src/app/modules/profile/components/profile/profile.component.ts:413-425 | the flag drops on both outcomes; success reloads the profile |
| ProfilePage.ProfileView.OnPasswordChange | src/app/modules/profile/components/profile/profile.component.ts:428-434 | nothing unless valid and idle; sends the current and new password only |
| ProfilePage.ProfileView.OnPasswordReply | src/app/modules/profile/components/profile/profile.component.ts:436-447 | success empties the password form; the flag drops on both outcomes |
| LoginPage.LoginForm.constructor | src/app/modules/auth/components/login/login.component.ts:163-176 | empty fields, not loading, return to `/polls` |
| LoginPage.LoginForm.NgOnInit | src/app/modules/auth/components/login/login.component.ts:178-181 | `returnUrl` is the query parameter, or `/polls` when absent or empty |
| LoginPage.LoginForm.Fill | src/app/modules/auth/components/login/login.component.ts:172-175 | the two controls hold what was typed |
| LoginPage.LoginForm.OnSubmit | src/app/modules/auth/components/login/login.component.ts:183-186 | nothing unless valid and idle; sends the credentials |
| LoginPage.LoginForm.OnLoginReply | src/app/modules/auth/components/login/login.component.ts:187-203 | success starts the session and goes to `returnUrl` with the flag still raised; an error shows the server's message or the default and lowers the flag |
| LoginPage.ReturnAfterLogin | src/app/modules/auth/components/login/login.component.ts:180-193 | a guarded url redirects to login with `returnUrl`, login navigates with the command `[url]`, and the guard then allows it |

## Left out

- Templates, styles, Angular Material, chart.js drawing and the confirm-dialog and spinner components: presentation only.
- Observables, subscriptions, `tap`/`catchError`: each reply is an input of an `On…Reply` method. Interleavings other than the logout during a profile fetch are not explored.
- `setTimeout` and the refresh it fires later: only the delay is computed. The search control's `debounceTime`/`distinctUntilChanged` are not modelled. `OnSearchChange` is the moment a changed value arrives.
- `JSON.parse` of the token payload is an abstract total function. `atob` is modelled only by its alphabet check, so its padding and length rules are not. Local storage is the `storedToken` field.
- `FileReader`, `document.getElementById`, `window.confirm` (a boolean input) and the base64-to-`File` conversion loop are not modelled. A file is its size and data URL.
- Dates are integers on one clock. `new Date(...)`, `toLocaleDateString`, and `formatDate` of the end date are not modelled. The end date is the formatted text. The chart's bar labels are the raw dates.
- Angular's validators are predicates. The e-mail rule is "something, an `@`, something". Angular's full pattern is not modelled.
- PollDetail.Percent: rounds the exact share, not the double `voteCount / totalVotes * 100`. Where the exact share is a half that the double falls just short of, the page shows one less: 23 of 40 shows 57 there and 58 here, and 29 of 200 shows 14 there and 15 here.
- Jwt.RefreshOneHourEarly: stated for up to 2151083 s left. `LongLivedTokenRefreshesAtOnce` covers the first wrap of the 32-bit delay. Longer lifetimes wrap again and are described only by `TimerWaitMs`.
- LoginPage.ReturnAfterLogin: stops at the command `[url]` given to the router. The router treats it as path segments and percent-encodes a `?` or `#`, so a url with a query or fragment is not the location reached.
- Interceptor.WithBearer: compares header names case-sensitively. Angular's `HttpHeaders.set` ignores case, so it would also replace an existing `authorization` header. No request in this client sets one.
- The `setErrors` call inside both `passwordMatchValidator`s is not modelled. Its error can linger on the confirm control after the group validator passes.
- Module and routing declarations, `app.component.ts`, `getPoll`, `updatePoll` and `canVote` are not modelled. They are configuration or unused by the modelled logic.
- The profile page's `logout()` is not modelled. Its error path calls `logout()` again without subscribing, so it sends nothing.
- `CreatePoll.CreatePollComponent.OnImageSelected`: the file read and the slot update happen in one step. An option removed while the file is still being read is not modelled.
- Option detail's `getPollOption` request is only the pair of ids it carries. That service method is not part of this model.
- `Interceptor.AuthInterceptor.OnError`: the interceptor's reaction to a 401 from the logout call it sends is not modelled.
