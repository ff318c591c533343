/** The page listing the polls the user created, with deletion. */
module MyPolls {
  import opened Wrappers
  import opened Polls
  import PollApi
  import PollList

  /** The body of GET /polls/my/polls. */
  datatype MyPollsPage = MyPollsPage(polls: Option<seq<RawPoll>>, total: int)

  /** This page's renaming: like the list's, but `imageUrl` carries `image_url`. */
  function MyRename(p: RawPoll): (s: PollSummary)
    ensures s == PollList.ListRename(p).(imageUrl := p.image_url)
    ensures s.imageUrl == p.image_url
  {
    PollSummary(p.id, p.title, p.description, p.creator_name, p.start_date, p.end_date, p.is_active,
                p.created_at, p.total_votes, p.image_url)
  }

  class MyPollsView {
    var polls: seq<PollSummary>
    var isLoading: bool
    var currentPage: int
    var pageSize: int
    var totalCount: int

    constructor ()
      ensures polls == [] && !isLoading && currentPage == 1 && pageSize == 6 && totalCount == 0
    {
      polls := [];
      isLoading := false;
      currentPage, pageSize, totalCount := 1, 6, 0;
    }

    /** `loadMyPolls()`: raise the flag and ask for the current page. */
    method LoadMyPolls() returns (req: PollApi.ApiGet)
      modifies this
      ensures isLoading
      ensures req == PollApi.ApiGet("/polls/my/polls", PollApi.KeptParams(PollApi.PageQuery(currentPage, pageSize)))
      ensures polls == old(polls) && totalCount == old(totalCount)
      ensures currentPage == old(currentPage) && pageSize == old(pageSize)
    {
      isLoading := true;
      req := PollApi.GetMyPolls(Some(PollApi.PageQuery(currentPage, pageSize)));
    }

    /** The `getMyPolls` subscriber: success shows the renamed page (none when
        absent) and the server's total; an error keeps both. The flag drops either way. */
    method OnMyPollsReply(reply: Reply<MyPollsPage>)
      modifies this
      ensures !isLoading
      ensures reply.Ok? ==> polls == MapPage(reply.body.polls, MyRename) && totalCount == reply.body.total
      ensures reply.Failed? ==> polls == old(polls) && totalCount == old(totalCount)
      ensures currentPage == old(currentPage) && pageSize == old(pageSize)
    {
      if reply.Ok? {
        polls := MapPage(reply.body.polls, MyRename);
        totalCount := reply.body.total;
      }
      isLoading := false;
    }

    /** `onPageChange(event)`: the paginator counts pages from 0, the view from 1. */
    method OnPageChange(pageIndex: nat, size: int) returns (req: PollApi.ApiGet)
      modifies this
      ensures currentPage == pageIndex + 1 && pageSize == size && isLoading
      ensures req == PollApi.ApiGet("/polls/my/polls", PollApi.KeptParams(PollApi.PageQuery(pageIndex + 1, size)))
      ensures polls == old(polls) && totalCount == old(totalCount)
    {
      currentPage := pageIndex + 1;
      pageSize := size;
      req := LoadMyPolls();
    }

    /** `deletePoll(id, title)`: nothing is sent unless the user confirms the dialog. */
    method DeletePoll(pollId: string, confirmed: bool) returns (req: Option<PollApi.ApiDelete>)
      ensures req.Some? <==> confirmed
      ensures req.Some? ==> req.value == PollApi.ApiDelete("/polls/" + pollId)
    {
      req := if confirmed then Some(PollApi.ApiDelete("/polls/" + pollId)) else None;
    }

    /** The `deletePoll` subscriber: success reloads the list; an error changes nothing. */
    method OnDeleteReply(reply: Reply<()>) returns (reload: Option<PollApi.ApiGet>)
      modifies this
      ensures reply.Ok? ==> isLoading
      ensures reply.Ok? ==>
                reload == Some(PollApi.ApiGet("/polls/my/polls", PollApi.KeptParams(PollApi.PageQuery(currentPage, pageSize))))
      ensures reply.Failed? ==> reload == None && unchanged(this)
      ensures polls == old(polls) && totalCount == old(totalCount)
      ensures currentPage == old(currentPage) && pageSize == old(pageSize)
    {
      reload := None;
      if reply.Ok? {
        var r := LoadMyPolls();
        reload := Some(r);
      }
    }
  }
}
