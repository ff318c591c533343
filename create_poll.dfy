/** The poll creation form: its option list with one optional image per option,
    the validity rule, and the request it submits. */
module CreatePoll {
  import opened Wrappers
  import Validators
  import PollApi

  /** Images larger than 5 MB are refused. */
  const MaxImageBytes := 5 * 1024 * 1024

  /** One entry of the `options` form array. */
  datatype OptionControl = OptionControl(text: string, hasImage: bool)

  /** The first file of the file input: its size in bytes and what `readAsDataURL` produced. */
  datatype SelectedFile = SelectedFile(size: int, dataUrl: string)

  /** What `onSubmit` hands to `createPoll`: the poll data and the image files (absent when none). */
  datatype Submission = Submission(request: PollApi.CreatePollRequest, images: Option<seq<PollApi.UploadFile>>)

  /** The position `splice(index, 1)` (and `FormArray.removeAt(index)`) removes:
      a negative index counts from the back and is clamped at 0. */
  function SpliceStart(len: nat, index: int): (k: nat)
    ensures index >= 0 ==> k == index
    ensures index < 0 && len + index >= 0 ==> k == len + index
    ensures index < 0 ==> k < len || len == 0
  {
    if index >= 0 then index else if len + index < 0 then 0 else len + index
  }

  /** `splice(index, 1)` on a list: the element at the start position goes, the
      others keep their order; an index past the end removes nothing. */
  function RemoveAt<T>(s: seq<T>, index: int): (r: seq<T>)
    ensures SpliceStart(|s|, index) >= |s| ==> r == s
    ensures SpliceStart(|s|, index) < |s| ==> |r| == |s| - 1
    ensures SpliceStart(|s|, index) < |s| ==>
              (forall j :: 0 <= j < SpliceStart(|s|, index) ==> r[j] == s[j])
              && (forall j :: SpliceStart(|s|, index) <= j < |r| ==> r[j] == s[j + 1])
  {
    var k := SpliceStart(|s|, index);
    if k < |s| then s[..k] + s[k + 1..] else s
  }

  /** The image files `onSubmit` builds: one per option whose data URL is truthy,
      named after that option's position, in option order. */
  function Uploads(images: seq<Option<string>>): (ups: seq<PollApi.UploadFile>)
    ensures |ups| <= |images|
    ensures forall j :: 0 <= j < |ups| ==>
              ups[j].index < |images| && Truthy(images[ups[j].index]) && ups[j].dataUrl == images[ups[j].index].value
    ensures forall j, k :: 0 <= j < k < |ups| ==> ups[j].index < ups[k].index
  {
    if images == [] then []
    else
      var last := images[|images| - 1];
      Uploads(images[..|images| - 1])
      + (if Truthy(last) then [PollApi.UploadFile(|images| - 1, last.value)] else [])
  }

  /** Every option with a truthy data URL gets its file. */
  lemma {:induction false} UploadsComplete(images: seq<Option<string>>, i: nat)
    requires i < |images| && Truthy(images[i])
    ensures exists j :: 0 <= j < |Uploads(images)| && Uploads(images)[j] == PollApi.UploadFile(i, images[i].value)
  {
    var n := |images| - 1;
    var ups := Uploads(images[..n]);
    if i == n {
      assert Uploads(images)[|ups|] == PollApi.UploadFile(i, images[i].value);
    } else {
      assert images[..n][i] == images[i];
      UploadsComplete(images[..n], i);
      var j :| 0 <= j < |ups| && ups[j] == PollApi.UploadFile(i, images[i].value);
      assert Uploads(images)[j] == ups[j];
    }
  }

  /** The `options` of the request: each text with `hasImage` set when the option's
      image slot is not null. */
  function RequestOptions(options: seq<OptionControl>, images: seq<Option<string>>): (r: seq<PollApi.CreatePollOption>)
    requires |options| == |images|
    ensures |r| == |options|
    ensures forall i :: 0 <= i < |r| ==> r[i].text == options[i].text && (r[i].hasImage <==> images[i].Some?)
  {
    seq(|options|, i requires 0 <= i < |options| => PollApi.CreatePollOption(options[i].text, images[i].Some?))
  }

  /** As long as no image slot holds an empty data URL, the options flagged
      `hasImage` are exactly the options that get a file. */
  lemma FlagsMatchUploads(options: seq<OptionControl>, images: seq<Option<string>>, i: nat)
    requires |options| == |images| && i < |images|
    requires forall k :: 0 <= k < |images| ==> images[k] != Some("")
    ensures RequestOptions(options, images)[i].hasImage <==>
              exists j :: 0 <= j < |Uploads(images)| && Uploads(images)[j].index == i
  {
    if images[i].Some? {
      UploadsComplete(images, i);
    }
  }

  /** The two tests differ on an empty data URL: it is flagged `hasImage` yet
      produces no file. A `FileReader` data URL always starts with `data:`, so the
      page itself never stores one; the lemma shows why `FlagsMatchUploads` needs
      its hypothesis. */
  lemma EmptyDataUrlFlaggedWithoutFile()
    ensures RequestOptions([OptionControl("a", true)], [Some("")])[0].hasImage
    ensures Uploads([Some("")]) == []
  {
    assert [Some("")][..0] == [];
  }

  /** The image list passed to `createPoll`: absent when there is no file. */
  function ImagesArgument(ups: seq<PollApi.UploadFile>): (r: Option<seq<PollApi.UploadFile>>)
    ensures r.None? <==> ups == []
    ensures r.Some? ==> r.value == ups
  {
    if |ups| > 0 then Some(ups) else None
  }

  class CreatePollComponent {
    var title: string
    var description: string
    /** The end date as the `yyyy-MM-dd` text it is formatted to; "" when unset. */
    var endDate: string
    var options: seq<OptionControl>
    var optionImages: seq<Option<string>>
    var isSubmitting: bool

    /** One image slot per option, at least two options, and each option's
        `hasImage` control agrees with its slot. */
    ghost predicate Valid()
      reads this
    {
      && |options| == |optionImages|
      && |options| >= 2
      && forall i :: 0 <= i < |options| ==> (options[i].hasImage <==> optionImages[i].Some?)
    }

    /** The constructor together with `ngOnInit`: two empty options, no images. */
    constructor ()
      ensures Valid()
      ensures title == "" && description == "" && endDate == ""
      ensures options == [OptionControl("", false), OptionControl("", false)]
      ensures optionImages == [None, None]
      ensures !isSubmitting
    {
      title, description, endDate := "", "", "";
      options := [OptionControl("", false), OptionControl("", false)];
      optionImages := [None, None];
      isSubmitting := false;
    }

    /** `addOption()`: an empty option without image at the end. */
    method AddOption()
      requires Valid()
      modifies this
      ensures Valid()
      ensures options == old(options) + [OptionControl("", false)]
      ensures optionImages == old(optionImages) + [None]
      ensures title == old(title) && description == old(description) && endDate == old(endDate)
      ensures isSubmitting == old(isSubmitting)
    {
      options := options + [OptionControl("", false)];
      optionImages := optionImages + [None];
    }

    /** `removeOption(index)`: only while more than two options remain, the
        option and its image slot at the same position go. */
    method RemoveOption(index: int)
      requires Valid()
      modifies this
      ensures Valid()
      ensures |old(options)| <= 2 ==> unchanged(this)
      ensures |old(options)| > 2 ==>
                options == RemoveAt(old(options), index) && optionImages == RemoveAt(old(optionImages), index)
      ensures title == old(title) && description == old(description) && endDate == old(endDate)
      ensures isSubmitting == old(isSubmitting)
    {
      if |options| > 2 {
        options := RemoveAt(options, index);
        optionImages := RemoveAt(optionImages, index);
      }
    }

    /** `onImageSelected(event, index)` with the file reader's result: no file
        changes nothing; a file over 5 MB is refused; otherwise the slot holds its
        data URL and the option is flagged. */
    method OnImageSelected(index: nat, file: Option<SelectedFile>) returns (refused: bool)
      requires Valid() && index < |options|
      modifies this
      ensures Valid()
      ensures refused <==> file.Some? && file.value.size > MaxImageBytes
      ensures (file.None? || refused) ==> unchanged(this)
      ensures file.Some? && !refused ==>
                && optionImages == old(optionImages)[index := Some(file.value.dataUrl)]
                && options == old(options)[index := old(options)[index].(hasImage := true)]
      ensures title == old(title) && description == old(description) && endDate == old(endDate)
      ensures isSubmitting == old(isSubmitting)
    {
      refused := false;
      if file.Some? {
        if file.value.size > MaxImageBytes {
          refused := true;
          return;
        }
        optionImages := optionImages[index := Some(file.value.dataUrl)];
        options := options[index := options[index].(hasImage := true)];
      }
    }

    /** `removeImage(index)`: the slot is emptied and the flag cleared. */
    method RemoveImage(index: nat)
      requires Valid() && index < |options|
      modifies this
      ensures Valid()
      ensures optionImages == old(optionImages)[index := None]
      ensures options == old(options)[index := old(options)[index].(hasImage := false)]
      ensures title == old(title) && description == old(description) && endDate == old(endDate)
      ensures isSubmitting == old(isSubmitting)
    {
      optionImages := optionImages[index := None];
      options := options[index := options[index].(hasImage := false)];
    }

    /** `pollForm.valid`: a title of at least 3 UTF-16 code units, a description of at
        most 500, and a text for every option. */
    predicate FormValid()
      reads this
    {
      && Validators.Required(title) && Validators.MinLength(title, 3)
      && Validators.MaxLength(description, 500)
      && forall i :: 0 <= i < |options| ==> Validators.Required(options[i].text)
    }

    /** `onSubmit()`: only for a valid form and no submission in flight. The
        request carries the title, the description and end date when filled in,
        and every option with its image flag; the files are collected from the
        truthy image slots. */
    method OnSubmit() returns (submission: Option<Submission>)
      requires Valid()
      modifies this
      ensures Valid()
      ensures submission.Some? <==> old(FormValid()) && !old(isSubmitting)
      ensures submission.None? ==> unchanged(this)
      ensures submission.Some? ==>
                var r := submission.value.request;
                && isSubmitting
                && Validators.Utf16Length(r.title) >= 3 && r.title == title
                && (r.description.None? <==> description == "")
                && (r.description.Some? ==> r.description.value == description)
                && (r.endDate.None? <==> endDate == "")
                && (r.endDate.Some? ==> r.endDate.value == endDate)
                && r.options == RequestOptions(options, optionImages)
                && |r.options| >= 2
                && submission.value.images == ImagesArgument(Uploads(optionImages))
      ensures title == old(title) && description == old(description) && endDate == old(endDate)
      ensures options == old(options) && optionImages == old(optionImages)
    {
      submission := None;
      if FormValid() && !isSubmitting {
        isSubmitting := true;
        Validators.RequiredMinLength(title, 3);
        var request := PollApi.CreatePollRequest(
          title,
          if description != "" then Some(description) else None,
          if endDate != "" then Some(endDate) else None,
          RequestOptions(options, optionImages));
        var files := CollectUploads(optionImages);
        submission := Some(Submission(request, ImagesArgument(files)));
      }
    }

    /** The `createPoll` subscriber: success navigates to the new poll (the flag
        stays raised while the page changes); an error lowers the flag. */
    method OnCreateReply(reply: Reply<string>) returns (navigation: Option<seq<string>>)
      modifies this
      ensures reply.Ok? ==> navigation == Some(["/polls", reply.body]) && isSubmitting == old(isSubmitting)
      ensures reply.Failed? ==> navigation == None && !isSubmitting
      ensures title == old(title) && description == old(description) && endDate == old(endDate)
      ensures options == old(options) && optionImages == old(optionImages)
    {
      if reply.Ok? {
        navigation := Some(["/polls", reply.body]);
      } else {
        navigation := None;
        isSubmitting := false;
      }
    }
  }

  /** The `optionImages.forEach` loop of `onSubmit`. */
  method CollectUploads(optionImages: seq<Option<string>>) returns (files: seq<PollApi.UploadFile>)
    ensures files == Uploads(optionImages)
  {
    files := [];
    var i := 0;
    while i < |optionImages|
      invariant 0 <= i <= |optionImages|
      invariant files == Uploads(optionImages[..i])
    {
      assert optionImages[..i + 1][..i] == optionImages[..i];
      if Truthy(optionImages[i]) {
        files := files + [PollApi.UploadFile(i, optionImages[i].value)];
      }
      i := i + 1;
    }
    assert optionImages[..i] == optionImages;
  }
}
