/** The detail page of one poll option: its image gallery and a vote button. */
module OptionDetail {
  import opened Wrappers

  datatype OptionImage = OptionImage(url: string, isPrimary: bool)

  /** A poll option as `getPollOption` returns it. */
  datatype PollOptionDetail = PollOptionDetail(id: string, text: string, voteCount: int,
                                               images: Option<seq<OptionImage>>)

  /** The option fetch `loadOption(pollId, optionId)` starts. The route may lack
      `pollId` when a vote reloads the option, so it is optional here. */
  datatype OptionFetch = OptionFetch(pollId: Option<string>, optionId: string)

  /** The vote body; an undefined `pollId` is dropped when it is serialised. */
  datatype VoteBody = VoteBody(pollId: Option<string>, optionId: string)

  const DefaultImage := "/assets/default-option-image.svg"
  const VoteSucceeded := "投票成功！"
  const VoteFailed := "投票失敗，請稍後再試"

  /** `images.find(img => img.isPrimary)`, as a position. */
  function FindPrimary(images: seq<OptionImage>): (r: Option<nat>)
    ensures r.Some? ==> r.value < |images| && images[r.value].isPrimary
    ensures r.Some? ==> forall k :: 0 <= k < r.value ==> !images[k].isPrimary
    ensures r.None? ==> forall k :: 0 <= k < |images| ==> !images[k].isPrimary
  {
    if images == [] then None
    else if images[0].isPrimary then Some(0)
    else match FindPrimary(images[1..])
      case None => None
      case Some(k) => Some(k + 1)
  }

  /** The image shown first: the first primary image, else the first image, else
      the default picture. */
  function ChooseImage(images: Option<seq<OptionImage>>): (url: string)
    ensures images.None? || images.value == [] ==> url == DefaultImage
    ensures images.Some? && images.value != [] ==>
              match FindPrimary(images.value)
              case Some(k) => url == images.value[k].url
              case None => url == images.value[0].url
  {
    if images.Some? && |images.value| > 0 then
      match FindPrimary(images.value)
      case Some(k) => images.value[k].url
      case None => images.value[0].url
    else DefaultImage
  }

  /** The picture shown is always one of the option's own images or the default. */
  lemma ChosenImageIsOffered(images: Option<seq<OptionImage>>)
    ensures ChooseImage(images) == DefaultImage ||
              (images.Some? && exists i :: 0 <= i < |images.value| && images.value[i].url == ChooseImage(images))
  {
  }

  /** When exactly one image is primary, that image is shown, wherever it sits. */
  lemma UniquePrimaryIsShown(images: seq<OptionImage>, p: nat)
    requires p < |images| && images[p].isPrimary
    requires forall k :: 0 <= k < |images| && k != p ==> !images[k].isPrimary
    ensures ChooseImage(Some(images)) == images[p].url
  {
    var r := FindPrimary(images);
    assert r.Some?;
  }

  class OptionDetailView {
    var option: Option<PollOptionDetail>
    var selectedImageUrl: Option<string>
    var isLoading: bool
    var isVoting: bool
    /** The `pollId` route parameter, kept for voting and going back. */
    var pollId: Option<string>

    /** A vote is only ever in flight for a loaded option. */
    ghost predicate Valid()
      reads this
    {
      isVoting ==> option.Some?
    }

    constructor ()
      ensures Valid()
      ensures option == None && selectedImageUrl == None && !isLoading && !isVoting && pollId == None
    {
      option, selectedImageUrl := None, None;
      isLoading, isVoting := false, false;
      pollId := None;
    }

    /** `loadOption(pollId, optionId)`: raise the flag and fetch the option. */
    method LoadOption(forPoll: Option<string>, optionId: string) returns (fetch: OptionFetch)
      modifies this
      ensures fetch == OptionFetch(forPoll, optionId) && isLoading
      ensures option == old(option) && selectedImageUrl == old(selectedImageUrl)
      ensures isVoting == old(isVoting) && pollId == old(pollId)
    {
      isLoading := true;
      fetch := OptionFetch(forPoll, optionId);
    }

    /** The route-parameter subscription of `ngOnInit`: `pollId` is stored as
        given, and the option is loaded only when both parameters are truthy. */
    method OnRouteParams(pollParam: Option<string>, optionParam: Option<string>) returns (fetch: Option<OptionFetch>)
      requires Valid()
      modifies this
      ensures Valid()
      ensures pollId == pollParam
      ensures fetch.Some? <==> Truthy(pollParam) && Truthy(optionParam)
      ensures fetch.Some? ==> fetch.value == OptionFetch(pollParam, optionParam.value) && isLoading
      ensures fetch.None? ==> isLoading == old(isLoading)
      ensures option == old(option) && selectedImageUrl == old(selectedImageUrl) && isVoting == old(isVoting)
    {
      pollId := pollParam;
      fetch := None;
      if Truthy(pollParam) && Truthy(optionParam) {
        var f := LoadOption(pollParam, optionParam.value);
        fetch := Some(f);
      }
    }

    /** The `getPollOption` subscriber: success shows the option and its chosen
        image; an error keeps what was shown. The flag drops either way. */
    method OnOptionReply(reply: Reply<PollOptionDetail>)
      requires Valid()
      modifies this
      ensures Valid()
      ensures !isLoading
      ensures reply.Ok? ==> option == Some(reply.body) && selectedImageUrl == Some(ChooseImage(reply.body.images))
      ensures reply.Failed? ==> option == old(option) && selectedImageUrl == old(selectedImageUrl)
      ensures isVoting == old(isVoting) && pollId == old(pollId)
    {
      if reply.Ok? {
        option := Some(reply.body);
        selectedImageUrl := Some(ChooseImage(reply.body.images));
      }
      isLoading := false;
    }

    /** `selectImage(image)`: show exactly that image. */
    method SelectImage(image: OptionImage)
      requires Valid()
      modifies this
      ensures Valid()
      ensures selectedImageUrl == Some(image.url)
      ensures option == old(option) && isLoading == old(isLoading) && isVoting == old(isVoting) && pollId == old(pollId)
    {
      selectedImageUrl := Some(image.url);
    }

    /** `submitVote()`: nothing without an option or while a vote is in flight;
        otherwise raise the flag and vote for this option in the route's poll. */
    method SubmitVote() returns (vote: Option<VoteBody>)
      requires Valid()
      modifies this
      ensures Valid()
      ensures vote.Some? <==> old(option).Some? && !old(isVoting)
      ensures vote.Some? ==> isVoting && vote.value == VoteBody(pollId, old(option).value.id)
      ensures vote.None? ==> unchanged(this)
      ensures option == old(option) && selectedImageUrl == old(selectedImageUrl)
      ensures isLoading == old(isLoading) && pollId == old(pollId)
    {
      vote := None;
      if option.Some? && !isVoting {
        isVoting := true;
        vote := Some(VoteBody(pollId, option.value.id));
      }
    }

    /** The `vote` subscriber: success announces itself and reloads the option;
        an error shows the server's message or a default. The flag drops either way. */
    method OnVoteReply(reply: Reply<()>) returns (message: string, reload: Option<OptionFetch>)
      requires Valid() && isVoting
      modifies this
      ensures Valid()
      ensures !isVoting && message != ""
      ensures reply.Ok? ==> message == VoteSucceeded && isLoading &&
                              reload == Some(OptionFetch(pollId, old(option).value.id))
      ensures reply.Failed? ==> message == ErrorText(reply.error, VoteFailed) && reload == None
                                && isLoading == old(isLoading)
      ensures option == old(option) && selectedImageUrl == old(selectedImageUrl) && pollId == old(pollId)
    {
      reload := None;
      if reply.Ok? {
        message := VoteSucceeded;
        var f := LoadOption(pollId, option.value.id);
        reload := Some(f);
      } else {
        message := ErrorText(reply.error, VoteFailed);
      }
      isVoting := false;
    }
  }
}
