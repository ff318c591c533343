/** The public poll list: search, sort, the active filter, pagination, and the
    status badge of each poll. */
module PollList {
  import opened Wrappers
  import opened Polls
  import PollApi
  import Auth

  /** The body of GET /polls: one page of polls (possibly absent) and `pagination.total`. */
  datatype PollsPage = PollsPage(polls: Option<seq<RawPoll>>, total: int)

  /** The `active` parameter for the filter: undefined for 'all', otherwise
      whether the filter is exactly 'true'. */
  function ActiveParam(filter: string): (v: PollApi.JsValue)
    ensures v.Undefined? <==> filter == "all"
    ensures filter != "all" ==> v == PollApi.Bool(filter == "true")
  {
    if filter == "all" then PollApi.Undefined else PollApi.Bool(filter == "true")
  }

  /** The query object `loadPolls` sends. */
  function ListQuery(page: int, size: int, search: Option<string>, sortBy: string, filter: string): (q: PollApi.QueryObject)
    ensures PollApi.DistinctKeys(q)
  {
    [("page", PollApi.Num(page)), ("limit", PollApi.Num(size)), ("search", PollApi.Str(OrElse(search, ""))),
     ("sortBy", PollApi.Str(sortBy)), ("sortOrder", PollApi.Str("DESC")), ("active", ActiveParam(filter))]
  }

  /** The parameters that reach the server: page, limit, the search text (even
      when empty), the sort key and DESC always; `active` exactly when the filter
      is not 'all', as 'true' only for the 'true' filter. */
  lemma ListQueryParams(page: int, size: int, search: Option<string>, sortBy: string, filter: string)
    ensures PollApi.KeptParams(ListQuery(page, size, search, sortBy, filter)) ==
              [("page", PollApi.ParamText(PollApi.Num(page))), ("limit", PollApi.ParamText(PollApi.Num(size))),
               ("search", OrElse(search, "")), ("sortBy", sortBy), ("sortOrder", "DESC")]
              + (if filter == "all" then [] else [("active", if filter == "true" then "true" else "false")])
  {
    var e0, e1, e2 := ("page", PollApi.Num(page)), ("limit", PollApi.Num(size)), ("search", PollApi.Str(OrElse(search, "")));
    var e3, e4, e5 := ("sortBy", PollApi.Str(sortBy)), ("sortOrder", PollApi.Str("DESC")), ("active", ActiveParam(filter));
    var s2 := [e0] + [e1];
    var s3 := s2 + [e2];
    var s4 := s3 + [e3];
    var s5 := s4 + [e4];
    assert ListQuery(page, size, search, sortBy, filter) == s5 + [e5];
    PollApi.KeptParamsSingle(e0);
    PollApi.KeptParamsSingle(e1);
    PollApi.KeptParamsConcat([e0], [e1]);
    PollApi.KeptParamsSingle(e2);
    PollApi.KeptParamsConcat(s2, [e2]);
    PollApi.KeptParamsSingle(e3);
    PollApi.KeptParamsConcat(s3, [e3]);
    PollApi.KeptParamsSingle(e4);
    PollApi.KeptParamsConcat(s4, [e4]);
    assert PollApi.KeptParams(s5) ==
             [("page", PollApi.ParamText(PollApi.Num(page))), ("limit", PollApi.ParamText(PollApi.Num(size))),
              ("search", OrElse(search, "")), ("sortBy", sortBy), ("sortOrder", "DESC")];
    PollApi.KeptParamsSingle(e5);
    PollApi.KeptParamsConcat(s5, [e5]);
  }

  /** The list's renaming: the spread keeps the snake_case fields and adds the
      camelCase ones; `imageUrl` is not among them. */
  function ListRename(p: RawPoll): (s: PollSummary)
    ensures s.id == p.id && s.title == p.title && s.description == p.description
    ensures s.isActive == p.is_active && s.endDate == p.end_date && s.createdAt == p.created_at
    ensures s.startDate == p.start_date && s.creatorName == p.creator_name && s.totalVotes == p.total_votes
    ensures s.imageUrl == None
  {
    PollSummary(p.id, p.title, p.description, p.creator_name, p.start_date, p.end_date, p.is_active,
                p.created_at, p.total_votes, None)
  }

  /** `getStatusText(poll)`: disabled before ended before running. */
  function ListStatusText(p: PollSummary, now: int): (text: string)
    ensures !p.isActive ==> text == DisabledText
    ensures p.isActive && p.endDate.Some? && p.endDate.value < now ==> text == EndedText
    ensures p.isActive && (p.endDate.None? || now <= p.endDate.value) ==> text == RunningText
  {
    StatusText(Classify(p.isActive, p.endDate, now))
  }

  /** `getStatusColor(poll)`: 'warn' exactly when the poll is disabled or ended. */
  function ListStatusColor(p: PollSummary, now: int): (c: Color)
    ensures c == Warn <==> !p.isActive || (p.endDate.Some? && p.endDate.value < now)
    ensures c != Warn ==> c == Primary
  {
    StatusColor(Classify(p.isActive, p.endDate, now))
  }

  class PollListView {
    var polls: seq<PollSummary>
    /** The search control's value; `null` when the control is reset. */
    var searchValue: Option<string>
    var sortBy: string
    var activeFilter: string
    var isLoading: bool
    var currentPage: int
    var pageSize: int
    var totalCount: int
    var isAuthenticated: bool

    constructor ()
      ensures polls == [] && searchValue == Some("") && sortBy == "created_at" && activeFilter == "true"
      ensures !isLoading && currentPage == 1 && pageSize == 6 && totalCount == 0 && !isAuthenticated
    {
      polls := [];
      searchValue := Some("");
      sortBy, activeFilter := "created_at", "true";
      isLoading := false;
      currentPage, pageSize, totalCount := 1, 6, 0;
      isAuthenticated := false;
    }

    /** `loadPolls()`: raise the flag and ask for the page the view is on. */
    method LoadPolls() returns (req: PollApi.ApiGet)
      modifies this
      ensures isLoading
      ensures req == PollApi.ApiGet("/polls",
                       PollApi.KeptParams(ListQuery(currentPage, pageSize, searchValue, sortBy, activeFilter)))
      ensures polls == old(polls) && searchValue == old(searchValue) && sortBy == old(sortBy)
      ensures activeFilter == old(activeFilter) && currentPage == old(currentPage) && pageSize == old(pageSize)
      ensures totalCount == old(totalCount) && isAuthenticated == old(isAuthenticated)
    {
      isLoading := true;
      req := PollApi.GetPolls(Some(ListQuery(currentPage, pageSize, searchValue, sortBy, activeFilter)));
    }

    /** The `getPolls` subscriber: success shows the renamed page (none when
        absent) and the server's total; an error keeps both. The flag drops either way. */
    method OnPollsReply(reply: Reply<PollsPage>)
      modifies this
      ensures !isLoading
      ensures reply.Ok? ==> polls == MapPage(reply.body.polls, ListRename) && totalCount == reply.body.total
      ensures reply.Failed? ==> polls == old(polls) && totalCount == old(totalCount)
      ensures searchValue == old(searchValue) && sortBy == old(sortBy) && activeFilter == old(activeFilter)
      ensures currentPage == old(currentPage) && pageSize == old(pageSize) && isAuthenticated == old(isAuthenticated)
    {
      if reply.Ok? {
        polls := MapPage(reply.body.polls, ListRename);
        totalCount := reply.body.total;
      }
      isLoading := false;
    }

    /** `onSortChange()` after the select has written `sortBy`: back to page 1. */
    method OnSortChange(newSortBy: string) returns (req: PollApi.ApiGet)
      modifies this
      ensures sortBy == newSortBy && currentPage == 1 && isLoading
      ensures req == PollApi.ApiGet("/polls", PollApi.KeptParams(ListQuery(1, pageSize, searchValue, newSortBy, activeFilter)))
      ensures polls == old(polls) && searchValue == old(searchValue) && activeFilter == old(activeFilter)
      ensures pageSize == old(pageSize) && totalCount == old(totalCount) && isAuthenticated == old(isAuthenticated)
    {
      sortBy := newSortBy;
      currentPage := 1;
      req := LoadPolls();
    }

    /** `onFilterChange()` after the select has written `activeFilter`: back to page 1. */
    method OnFilterChange(newFilter: string) returns (req: PollApi.ApiGet)
      modifies this
      ensures activeFilter == newFilter && currentPage == 1 && isLoading
      ensures req == PollApi.ApiGet("/polls", PollApi.KeptParams(ListQuery(1, pageSize, searchValue, sortBy, newFilter)))
      ensures polls == old(polls) && searchValue == old(searchValue) && sortBy == old(sortBy)
      ensures pageSize == old(pageSize) && totalCount == old(totalCount) && isAuthenticated == old(isAuthenticated)
    {
      activeFilter := newFilter;
      currentPage := 1;
      req := LoadPolls();
    }

    /** The search subscription, once the debounced value has changed: back to page 1. */
    method OnSearchChange(value: Option<string>) returns (req: PollApi.ApiGet)
      modifies this
      ensures searchValue == value && currentPage == 1 && isLoading
      ensures req == PollApi.ApiGet("/polls", PollApi.KeptParams(ListQuery(1, pageSize, value, sortBy, activeFilter)))
      ensures polls == old(polls) && sortBy == old(sortBy) && activeFilter == old(activeFilter)
      ensures pageSize == old(pageSize) && totalCount == old(totalCount) && isAuthenticated == old(isAuthenticated)
    {
      searchValue := value;
      currentPage := 1;
      req := LoadPolls();
    }

    /** `onPageChange(event)`: the paginator counts pages from 0, the view from 1. */
    method OnPageChange(pageIndex: nat, size: int) returns (req: PollApi.ApiGet)
      modifies this
      ensures currentPage == pageIndex + 1 && pageSize == size && isLoading
      ensures req == PollApi.ApiGet("/polls", PollApi.KeptParams(ListQuery(pageIndex + 1, size, searchValue, sortBy, activeFilter)))
      ensures polls == old(polls) && searchValue == old(searchValue) && sortBy == old(sortBy)
      ensures activeFilter == old(activeFilter) && totalCount == old(totalCount) && isAuthenticated == old(isAuthenticated)
    {
      currentPage := pageIndex + 1;
      pageSize := size;
      req := LoadPolls();
    }

    /** `ngOnInit()`: `checkAuthStatus()`, then the flag's current value (a
        BehaviorSubject emits it on subscription), then the first load. */
    method NgOnInit(auth: Auth.AuthService, now: int) returns (fetch: bool, req: PollApi.ApiGet)
      requires auth.Valid()
      modifies this, auth
      ensures unchanged(auth)
      ensures fetch <==> old(auth.IsTokenValid(now)) && !old(auth.authenticated)
      ensures isAuthenticated == old(auth.authenticated) && isLoading
      ensures req == PollApi.ApiGet("/polls",
                       PollApi.KeptParams(ListQuery(currentPage, pageSize, searchValue, sortBy, activeFilter)))
      ensures polls == old(polls) && searchValue == old(searchValue) && sortBy == old(sortBy)
      ensures activeFilter == old(activeFilter) && currentPage == old(currentPage) && pageSize == old(pageSize)
    {
      fetch := CheckAuthStatus(auth, now);
      isAuthenticated := auth.authenticated;
      req := LoadPolls();
    }

    /** The `isAuthenticated$` subscription. */
    method OnAuthChanged(authenticated: bool)
      modifies this
      ensures isAuthenticated == authenticated
      ensures polls == old(polls) && searchValue == old(searchValue) && sortBy == old(sortBy)
      ensures activeFilter == old(activeFilter) && currentPage == old(currentPage) && pageSize == old(pageSize)
      ensures totalCount == old(totalCount) && isLoading == old(isLoading)
    {
      isAuthenticated := authenticated;
    }
  }

  /** `checkAuthStatus()`: start `loadUserFromToken()` only for a valid token
      whose session flag is still false. The start itself changes nothing; the
      profile fetch answers later. */
  method CheckAuthStatus(auth: Auth.AuthService, now: int) returns (fetch: bool)
    requires auth.Valid()
    modifies auth
    ensures unchanged(auth)
    ensures fetch <==> old(auth.IsTokenValid(now)) && !old(auth.authenticated)
  {
    fetch := false;
    if auth.IsTokenValid(now) && !auth.authenticated {
      fetch := auth.LoadUserFromToken(now);
    }
  }
}
