/** `PollService`: how query parameters and the create-poll upload are built
    before they reach the HTTP client. */
module PollApi {
  import opened Wrappers
  import Text

  /** A property value of a JavaScript object literal. */
  datatype JsValue = Undefined | Null | Num(n: int) | Bool(b: bool) | Str(s: string)

  /** The keys of an object literal with their values, in insertion order
      (the order `Object.keys` lists them). */
  type QueryObject = seq<(string, JsValue)>

  predicate Defined(v: JsValue) { !v.Undefined? && !v.Null? }

  /** `value.toString()` */
  function ParamText(v: JsValue): string
    requires Defined(v)
  {
    match v
    case Num(n) => Text.IntToDecimal(n)
    case Bool(b) => if b then "true" else "false"
    case Str(s) => s
  }

  /** The parameters kept from `params`: every defined value, stringified, in key order. */
  function KeptParams(params: QueryObject): (kept: seq<(string, string)>)
    ensures |kept| <= |params|
  {
    if params == [] then []
    else
      var last := params[|params| - 1];
      KeptParams(params[..|params| - 1]) + (if Defined(last.1) then [(last.0, ParamText(last.1))] else [])
  }

  /** A pair is in the built parameters exactly when some key of the object holds a
      defined value with that text. */
  lemma {:induction false} KeptParamsExact(params: QueryObject, key: string, text: string)
    ensures (key, text) in KeptParams(params) <==>
              exists i :: 0 <= i < |params| && params[i].0 == key && Defined(params[i].1)
                          && ParamText(params[i].1) == text
  {
    if params != [] {
      var init := params[..|params| - 1];
      KeptParamsExact(init, key, text);
      if (key, text) in KeptParams(params) {
        if (key, text) in KeptParams(init) {
          var i :| 0 <= i < |init| && init[i].0 == key && Defined(init[i].1) && ParamText(init[i].1) == text;
          assert params[i] == init[i];
        } else {
          assert params[|params| - 1].0 == key;
        }
      } else {
        forall i | 0 <= i < |params| && params[i].0 == key && Defined(params[i].1)
          ensures ParamText(params[i].1) != text
        {
          if i < |init| {
            assert params[i] == init[i];
          }
        }
      }
    }
  }

  /** No key is named twice, as in an object literal. */
  predicate DistinctKeys<V>(q: seq<(string, V)>) {
    forall i, j :: 0 <= i < j < |q| ==> q[i].0 != q[j].0
  }

  /** An object that names each key once sends each parameter name at most once. */
  lemma {:induction false} KeptKeysDistinct(params: QueryObject)
    requires DistinctKeys(params)
    ensures DistinctKeys(KeptParams(params))
  {
    if params != [] {
      var init, last := params[..|params| - 1], params[|params| - 1];
      forall i, j | 0 <= i < j < |init|
        ensures init[i].0 != init[j].0
      {
        assert init[i] == params[i] && init[j] == params[j];
      }
      KeptKeysDistinct(init);
      var k := KeptParams(init);
      forall j | 0 <= j < |k|
        ensures k[j].0 != last.0
      {
        assert k[j] in k;
        KeptParamsExact(init, k[j].0, k[j].1);
        var i :| 0 <= i < |init| && init[i].0 == k[j].0 && Defined(init[i].1) && ParamText(init[i].1) == k[j].1;
        assert init[i] == params[i];
      }
    }
  }

  /** The keys of `params` whose value is undefined or null never appear. */
  lemma {:induction false} DroppedKeysAbsent(params: QueryObject, key: string)
    requires forall i :: 0 <= i < |params| && params[i].0 == key ==> !Defined(params[i].1)
    ensures forall j :: 0 <= j < |KeptParams(params)| ==> KeptParams(params)[j].0 != key
  {
    if params != [] {
      DroppedKeysAbsent(params[..|params| - 1], key);
    }
  }

  /** Filtering distributes over concatenation: each key is judged on its own. */
  lemma {:induction false} KeptParamsConcat(a: QueryObject, b: QueryObject)
    ensures KeptParams(a + b) == KeptParams(a) + KeptParams(b)
  {
    if b == [] {
      assert a + b == a;
    } else {
      var init := b[..|b| - 1];
      assert (a + b)[..|a + b| - 1] == a + init;
      KeptParamsConcat(a, init);
    }
  }

  /** One key on its own: kept with its text exactly when its value is defined. */
  lemma KeptParamsSingle(entry: (string, JsValue))
    ensures KeptParams([entry]) == if Defined(entry.1) then [(entry.0, ParamText(entry.1))] else []
  {
    assert [entry][..0] == [];
  }

  /** Falsy values other than undefined and null survive: `false`, `0` and `''`. */
  lemma FalsyValuesKept()
    ensures KeptParams([("active", Bool(false)), ("page", Num(0)), ("search", Str("")), ("sortBy", Null)])
              == [("active", "false"), ("page", "0"), ("search", "")]
  {
    var p: QueryObject := [("active", Bool(false)), ("page", Num(0)), ("search", Str("")), ("sortBy", Null)];
    assert Text.NatToDecimal(0) == "0";
    assert p[..3][..2][..1][..0] == [];
    assert KeptParams(p[..3][..2][..1]) == [("active", "false")];
    assert KeptParams(p[..3][..2]) == [("active", "false"), ("page", "0")];
    assert KeptParams(p[..3]) == [("active", "false"), ("page", "0"), ("search", "")];
  }

  /** The common loop of `getPolls`, `getMyPolls`, `getVoteHistory` and
      `getPollVotes`: absent params give no parameters; otherwise each key whose
      value is neither undefined nor null is set to the value's text. Object keys
      are distinct, so `set` never overwrites. */
  method BuildHttpParams(params: Option<QueryObject>) returns (httpParams: seq<(string, string)>)
    ensures params.None? ==> httpParams == []
    ensures params.Some? ==> httpParams == KeptParams(params.value)
  {
    httpParams := [];
    if params.Some? {
      var keys := params.value;
      var i := 0;
      while i < |keys|
        invariant 0 <= i <= |keys|
        invariant httpParams == KeptParams(keys[..i])
      {
        var (key, value) := keys[i];
        if Defined(value) {
          httpParams := httpParams + [(key, ParamText(value))];
        }
        assert keys[..i + 1][..i] == keys[..i];
        i := i + 1;
      }
      assert keys[..i] == keys;
    }
  }

  /** The `{ page, limit }` query object of the paged views. */
  function PageQuery(page: int, size: int): (q: QueryObject)
    ensures |q| == 2 && q[0].0 == "page" && q[1].0 == "limit"
    ensures DistinctKeys(q)
    ensures KeptParams(q) == [("page", ParamText(Num(page))), ("limit", ParamText(Num(size)))]
  {
    var q: QueryObject := [("page", Num(page)), ("limit", Num(size))];
    assert q[..1][..0] == [];
    q
  }

  /** A GET request: path and query parameters. */
  datatype ApiGet = ApiGet(path: string, params: seq<(string, string)>)

  /** `deletePoll(id)`: DELETE /polls/:id. */
  datatype ApiDelete = ApiDelete(path: string)

  /** `getPolls(params)` */
  method GetPolls(params: Option<QueryObject>) returns (req: ApiGet)
    ensures req.path == "/polls"
    ensures params.None? ==> req.params == []
    ensures params.Some? ==> req.params == KeptParams(params.value)
  {
    var hp := BuildHttpParams(params);
    req := ApiGet("/polls", hp);
  }

  /** `getMyPolls(params)` */
  method GetMyPolls(params: Option<QueryObject>) returns (req: ApiGet)
    ensures req.path == "/polls/my/polls"
    ensures params.None? ==> req.params == []
    ensures params.Some? ==> req.params == KeptParams(params.value)
  {
    var hp := BuildHttpParams(params);
    req := ApiGet("/polls/my/polls", hp);
  }

  /** `getVoteHistory(params)` */
  method GetVoteHistory(params: Option<QueryObject>) returns (req: ApiGet)
    ensures req.path == "/votes/history"
    ensures params.None? ==> req.params == []
    ensures params.Some? ==> req.params == KeptParams(params.value)
  {
    var hp := BuildHttpParams(params);
    req := ApiGet("/votes/history", hp);
  }

  /** `getPollVotes(pollId, params)` */
  method GetPollVotes(pollId: string, params: Option<QueryObject>) returns (req: ApiGet)
    ensures req.path == "/votes/poll/" + pollId
    ensures params.None? ==> req.params == []
    ensures params.Some? ==> req.params == KeptParams(params.value)
  {
    var hp := BuildHttpParams(params);
    req := ApiGet("/votes/poll/" + pollId, hp);
  }

  /** Body of POST /votes. */
  datatype VoteRequest = VoteRequest(pollId: string, optionId: string)

  datatype CreatePollOption = CreatePollOption(text: string, hasImage: bool)

  datatype CreatePollRequest = CreatePollRequest(title: string, description: Option<string>,
                                                 endDate: Option<string>, options: seq<CreatePollOption>)

  /** An image file built from the data URL of option `index`, named `option-<index>.jpg`. */
  datatype UploadFile = UploadFile(index: nat, dataUrl: string) {
    function Name(): string { "option-" + Text.NatToDecimal(index) + ".jpg" }
  }

  /** One `formData.append(name, value)`. */
  datatype FormEntry = PollDataEntry(pollData: CreatePollRequest) | ImageEntry(file: UploadFile)

  /** `createPoll(pollData, images)`: one `pollData` entry, then one `images` entry
      per file in order; none when the list is absent or empty. */
  method BuildCreatePollForm(pollData: CreatePollRequest, images: Option<seq<UploadFile>>)
    returns (form: seq<FormEntry>)
    ensures |form| >= 1 && form[0] == PollDataEntry(pollData)
    ensures images.None? ==> |form| == 1
    ensures images.Some? ==> |form| == 1 + |images.value|
    ensures images.Some? ==> forall i :: 0 <= i < |images.value| ==> form[i + 1] == ImageEntry(images.value[i])
  {
    form := [PollDataEntry(pollData)];
    if images.Some? && |images.value| > 0 {
      var files := images.value;
      var i := 0;
      while i < |files|
        invariant 0 <= i <= |files|
        invariant |form| == 1 + i && form[0] == PollDataEntry(pollData)
        invariant forall j :: 0 <= j < i ==> form[j + 1] == ImageEntry(files[j])
      {
        form := form + [ImageEntry(files[i])];
        i := i + 1;
      }
    }
  }
}
