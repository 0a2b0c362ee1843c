/**
  The request builders of `src/lib/api.ts` that shape what is sent: the `getJobs`
  parameter record and its query string, the ordering of `getRecruitingCriterias`,
  and the multipart body of `createNewJob` / `updateJobById`. The HTTP transport
  itself is not modelled; a request is its verb, path and body.
*/
module Api {
  import opened Wrappers
  import opened Text
  import opened Js
  import opened Types
  import opened Seqs
  import Sorting
  import Helper

  // ---------------------------------------------------------------- records

  /** The value a record holds under `key`: its first field of that name. */
  function FieldOf(rec: seq<(string, Value)>, key: string): Option<Value>
    decreases |rec|
  {
    if rec == [] then None
    else if rec[0].0 == key then Some(rec[0].1)
    else FieldOf(rec[1..], key)
  }

  /** A field of a joined record comes from the first part if it has one there. */
  lemma {:induction false} FieldOfConcat(a: seq<(string, Value)>, b: seq<(string, Value)>, key: string)
    ensures FieldOf(a + b, key) == if FieldOf(a, key).Some? then FieldOf(a, key) else FieldOf(b, key)
    decreases |a|
  {
    if a == [] {
      assert a + b == b;
    } else {
      assert (a + b)[0] == a[0] && (a + b)[1..] == a[1..] + b;
      FieldOfConcat(a[1..], b, key);
    }
  }

  // ---------------------------------------------------------------- getJobs

  /** `companyID && companyID > 0`. */
  predicate PositiveId(companyID: Option<Number>)
  {
    companyID.Some? && companyID.value.Int? && companyID.value.v > 0
  }

  /** `list?.length && list?.length > 0`. */
  predicate NonEmptyList(list: Option<seq<string>>)
  {
    list.Some? && |list.value| > 0
  }

  /** An optional number argument as a record value: `undefined` when not passed. */
  function OptionalNumber(n: Option<Number>): Value
  {
    if n.None? then Undefined else Num(n.value)
  }

  /**
    The `getJobs` parameter record: page, limit, searchTerm and jobType always, in
    that order; then companyID only when positive, features and prefectures only
    when non-empty, each at most once.
  */
  predicate IsJobsRecord(param: seq<(string, Value)>, page: Number, limit: Number, searchTerm: string,
                         jobType: Option<Number>, companyID: Option<Number>, features: Option<seq<string>>,
                         prefectures: Option<seq<string>>)
  {
    |param| >= 4
    && param[..4] == [("page", Num(page)), ("limit", Num(limit)), ("searchTerm", Str(searchTerm)),
                      ("jobType", OptionalNumber(jobType))]
    && FieldOf(param, "companyID") == (if PositiveId(companyID) then Some(Num(companyID.value)) else None)
    && FieldOf(param, "features") == (if NonEmptyList(features) then Some(Arr(Strs(features.value))) else None)
    && FieldOf(param, "prefectures") ==
         (if NonEmptyList(prefectures) then Some(Arr(Strs(prefectures.value))) else None)
    && |param| == 4 + (if PositiveId(companyID) then 1 else 0) + (if NonEmptyList(features) then 1 else 0)
                    + (if NonEmptyList(prefectures) then 1 else 0)
  }

  /** The fields `getJobs` always sends. */
  function JobsBase(page: Number, limit: Number, searchTerm: string, jobType: Option<Number>): seq<(string, Value)>
  {
    [("page", Num(page)), ("limit", Num(limit)), ("searchTerm", Str(searchTerm)), ("jobType", OptionalNumber(jobType))]
  }

  /** A field that is present only under a condition. */
  function Optional(present: bool, e: (string, Value)): seq<(string, Value)>
  {
    if present then [e] else []
  }

  lemma {:induction false} FieldOfAbsent(rec: seq<(string, Value)>, key: string)
    requires forall i | 0 <= i < |rec| :: rec[i].0 != key
    ensures FieldOf(rec, key).None?
    decreases |rec|
  {
    if rec != [] {
      FieldOfAbsent(rec[1..], key);
    }
  }

  lemma FieldOfOptional(rec: seq<(string, Value)>, present: bool, e: (string, Value), key: string)
    ensures FieldOf(rec + Optional(present, e), key) ==
      if FieldOf(rec, key).Some? then FieldOf(rec, key) else if present && e.0 == key then Some(e.1) else None
  {
    FieldOfConcat(rec, Optional(present, e), key);
  }

  /** The base fields with the three optional ones appended in order form the `getJobs` record. */
  lemma JobsRecordOf(page: Number, limit: Number, searchTerm: string, jobType: Option<Number>,
                     companyID: Option<Number>, features: Option<seq<string>>, prefectures: Option<seq<string>>)
    requires companyID.Some? && features.Some? && prefectures.Some?
    ensures IsJobsRecord(JobsBase(page, limit, searchTerm, jobType)
        + Optional(PositiveId(companyID), ("companyID", Num(companyID.value)))
        + Optional(NonEmptyList(features), ("features", Arr(Strs(features.value))))
        + Optional(NonEmptyList(prefectures), ("prefectures", Arr(Strs(prefectures.value)))),
      page, limit, searchTerm, jobType, companyID, features, prefectures)
  {
    var r0 := JobsBase(page, limit, searchTerm, jobType);
    var e1 := ("companyID", Num(companyID.value));
    var e2 := ("features", Arr(Strs(features.value)));
    var e3 := ("prefectures", Arr(Strs(prefectures.value)));
    var r1 := r0 + Optional(PositiveId(companyID), e1);
    var r2 := r1 + Optional(NonEmptyList(features), e2);
    var r3 := r2 + Optional(NonEmptyList(prefectures), e3);
    FieldOfAbsent(r0, "companyID");
    FieldOfAbsent(r0, "features");
    FieldOfAbsent(r0, "prefectures");
    FieldOfOptional(r0, PositiveId(companyID), e1, "companyID");
    FieldOfOptional(r0, PositiveId(companyID), e1, "features");
    FieldOfOptional(r0, PositiveId(companyID), e1, "prefectures");
    FieldOfOptional(r1, NonEmptyList(features), e2, "companyID");
    FieldOfOptional(r1, NonEmptyList(features), e2, "features");
    FieldOfOptional(r1, NonEmptyList(features), e2, "prefectures");
    FieldOfOptional(r2, NonEmptyList(prefectures), e3, "companyID");
    FieldOfOptional(r2, NonEmptyList(prefectures), e3, "features");
    FieldOfOptional(r2, NonEmptyList(prefectures), e3, "prefectures");
    assert r3[..4] == r0;
  }

  /**
    The record built by conditional field assignment. Arguments the caller leaves
    out are `None`; `companyID`, `features` and `prefectures` are then absent.
  */
  method GetJobsParams(page: Number, limit: Number, searchTerm: string, jobType: Option<Number>,
                       companyID: Option<Number>, features: Option<seq<string>>,
                       prefectures: Option<seq<string>>) returns (param: seq<(string, Value)>)
    ensures IsJobsRecord(param, page, limit, searchTerm, jobType, companyID, features, prefectures)
  {
    var c := companyID.GetOr(NaN);
    var f := features.GetOr([]);
    var p := prefectures.GetOr([]);
    param := [("page", Num(page)), ("limit", Num(limit)), ("searchTerm", Str(searchTerm)),
              ("jobType", OptionalNumber(jobType))];
    ghost var r := JobsBase(page, limit, searchTerm, jobType);
    assert param == r;
    if companyID.Some? && companyID.value.Int? && companyID.value.v > 0 {
      param := param + [("companyID", Num(companyID.value))];
    }
    r := r + Optional(PositiveId(companyID), ("companyID", Num(c)));
    assert param == r;
    if features.Some? && |features.value| > 0 {
      param := param + [("features", Arr(Strs(features.value)))];
    }
    r := r + Optional(NonEmptyList(features), ("features", Arr(Strs(f))));
    assert param == r;
    if prefectures.Some? && |prefectures.value| > 0 {
      param := param + [("prefectures", Arr(Strs(prefectures.value)))];
    }
    r := r + Optional(NonEmptyList(prefectures), ("prefectures", Arr(Strs(p))));
    assert param == r;
    JobsRecordOfArgs(page, limit, searchTerm, jobType, companyID, features, prefectures);
  }

  /** `JobsRecordOf` for arguments that may be left out, each replaced by a stand-in that is never sent. */
  lemma JobsRecordOfArgs(page: Number, limit: Number, searchTerm: string, jobType: Option<Number>,
                         companyID: Option<Number>, features: Option<seq<string>>, prefectures: Option<seq<string>>)
    ensures IsJobsRecord(JobsBase(page, limit, searchTerm, jobType)
        + Optional(PositiveId(companyID), ("companyID", Num(companyID.GetOr(NaN))))
        + Optional(NonEmptyList(features), ("features", Arr(Strs(features.GetOr([])))))
        + Optional(NonEmptyList(prefectures), ("prefectures", Arr(Strs(prefectures.GetOr([]))))),
      page, limit, searchTerm, jobType, companyID, features, prefectures)
  {
    var c := Some(companyID.GetOr(NaN));
    var f := Some(features.GetOr([]));
    var p := Some(prefectures.GetOr([]));
    assert PositiveId(c) == PositiveId(companyID) && NonEmptyList(f) == NonEmptyList(features)
      && NonEmptyList(p) == NonEmptyList(prefectures);
    JobsRecordOf(page, limit, searchTerm, jobType, c, f, p);
  }

  /** `getJobs(...)`: a GET of `/jobs?` followed by exactly the query string of the parameter record. */
  method GetJobs(page: Number, limit: Number, searchTerm: string, jobType: Option<Number>,
                 companyID: Option<Number>, features: Option<seq<string>>,
                 prefectures: Option<seq<string>>, encode: string -> string)
    returns (param: seq<(string, Value)>, path: string)
    ensures IsJobsRecord(param, page, limit, searchTerm, jobType, companyID, features, prefectures)
    ensures path == "/jobs?" + Helper.ToQueryString(param, encode)
  {
    param := GetJobsParams(page, limit, searchTerm, jobType, companyID, features, prefectures);
    path := "/jobs?" + Helper.ToQueryString(param, encode);
  }

  /** A list parameter reaches the query string as `[a,b,…]`. */
  lemma ListQueryValue(xs: seq<string>)
    ensures Helper.QueryValue(Arr(Strs(xs))) == Some("[" + Join(xs, ",") + "]")
  {
    var items := Strs(xs);
    var elements := seq(|items|, i requires 0 <= i < |items| => JoinElement(items[i]));
    forall i | 0 <= i < |xs|
      ensures elements[i] == xs[i]
    {
      assert items[i] == Str(xs[i]);
      assert JoinElement(Str(xs[i])) == ToJsString(Str(xs[i])) == xs[i];
    }
    assert elements == xs;
  }

  // ---------------------------------------------------------------- criteria

  function DisplayOrder(c: RecruitingCriteria): int
  {
    c.displayOrder
  }

  /**
    `getRecruitingCriterias()`: the served list sorted in place by `display_order`,
    or a new empty list when the response has no data.
  */
  method GetRecruitingCriterias(data: Option<array<RecruitingCriteria>>) returns (sorted: array<RecruitingCriteria>)
    modifies if data.Some? then {data.value} else {}
    ensures data.Some? ==> sorted == data.value && multiset(sorted[..]) == multiset(old(data.value[..]))
    ensures data.None? ==> fresh(sorted) && sorted.Length == 0
    ensures Sorting.SortedBy(sorted[..], DisplayOrder)
  {
    if data.Some? {
      sorted := data.value;
    } else {
      sorted := new RecruitingCriteria[0];
    }
    Sorting.SortBy(sorted, DisplayOrder);
  }

  // ---------------------------------------------------------------- multipart

  /** A multipart field value: text, or a file (known by its MIME type). */
  datatype FormValue = TextValue(text: string) | FileValue(mimeType: string)

  datatype FormEntry = FormEntry(name: string, value: FormValue)

  /** The browser's `FormData`: entries in the order they were appended. */
  class FormData {
    var entries: seq<FormEntry>

    constructor()
      ensures entries == []
    {
      entries := [];
    }

    /** `formData.append(name, value)`. */
    method Append(name: string, value: FormValue)
      modifies this
      ensures entries == old(entries) + [FormEntry(name, value)]
    {
      entries := entries + [FormEntry(name, value)];
    }
  }

  /** An image appended as is: files stay files; a string, `null` or `undefined` becomes its text. */
  function UploadValue(u: Upload): FormValue
  {
    match u
    case File(m) => FileValue(m)
    case Path(p) => TextValue(p)
    case NullUpload => TextValue("null")
    case UnsetUpload => TextValue("undefined")
  }

  /**
    A parameter field as sent: a string verbatim, anything else JSON-encoded;
    `JSON.stringify(undefined)` is `undefined`, which is appended as "undefined".
  */
  function FieldText(v: Value): string
  {
    if v.Str? then v.s
    else
      match JsonStringify(v)
      case None => "undefined"
      case Some(t) => t
  }

  function ParamEntries(param: seq<(string, Value)>): (r: seq<FormEntry>)
    ensures |r| == |param|
  {
    seq(|param|, i requires 0 <= i < |param| => FormEntry(param[i].0, TextValue(FieldText(param[i].1))))
  }

  function ImageEntries(name: string, images: seq<Upload>): (r: seq<FormEntry>)
    ensures |r| == |images|
  {
    seq(|images|, i requires 0 <= i < |images| => FormEntry(name, UploadValue(images[i])))
  }

  /** The body of a job request: the parameter fields, the company images, the staff images, the thumbnail. */
  function JobEntries(param: seq<(string, Value)>, thumbnail: Upload, companyImages: seq<Upload>,
                      staffImages: seq<Upload>): seq<FormEntry>
  {
    ParamEntries(param) + ImageEntries("introImages", companyImages) + ImageEntries("staffImages", staffImages)
    + [FormEntry("thumbnail", UploadValue(thumbnail))]
  }

  /**
    One entry per parameter field in record order (strings verbatim), then one
    'introImages' entry per company image and one 'staffImages' entry per staff
    image, in order, and one 'thumbnail' entry, last and only.
  */
  lemma JobEntriesLayout(param: seq<(string, Value)>, thumbnail: Upload, companyImages: seq<Upload>,
                         staffImages: seq<Upload>)
    ensures var r := JobEntries(param, thumbnail, companyImages, staffImages);
      |r| == |param| + |companyImages| + |staffImages| + 1
      && (forall i | 0 <= i < |param| ::
            r[i].name == param[i].0 && r[i].value.TextValue?
            && (param[i].1.Str? ==> r[i].value.text == param[i].1.s))
      && (forall k | 0 <= k < |companyImages| :: r[|param| + k] == FormEntry("introImages", UploadValue(companyImages[k])))
      && (forall k | 0 <= k < |staffImages| ::
            r[|param| + |companyImages| + k] == FormEntry("staffImages", UploadValue(staffImages[k])))
      && r[|r| - 1] == FormEntry("thumbnail", UploadValue(thumbnail))
      && ((forall i | 0 <= i < |param| :: param[i].0 != "thumbnail") ==>
            forall i | 0 <= i < |r| - 1 :: r[i].name != "thumbnail")
  {
    var r := JobEntries(param, thumbnail, companyImages, staffImages);
    var a := ParamEntries(param);
    var b := ImageEntries("introImages", companyImages);
    var c := ImageEntries("staffImages", staffImages);
    assert forall i | 0 <= i < |a| :: r[i] == a[i];
    assert forall k | 0 <= k < |b| :: r[|a| + k] == b[k];
    assert forall k | 0 <= k < |c| :: r[|a| + |b| + k] == c[k];
  }

  /**
    The entry sequence both job requests build: the `Object.entries(param)` loop,
    the two image loops, and the thumbnail.
  */
  method BuildJobFormData(param: seq<(string, Value)>, thumbnail: Upload, companyImages: seq<Upload>,
                          staffImages: seq<Upload>) returns (formData: FormData)
    ensures fresh(formData)
    ensures formData.entries == JobEntries(param, thumbnail, companyImages, staffImages)
  {
    formData := new FormData();
    var i := 0;
    while i < |param|
      invariant 0 <= i <= |param|
      invariant formData.entries == ParamEntries(param)[..i]
    {
      var (k, v) := param[i];
      var str := if v.Str? then v.s else (match JsonStringify(v) case None => "undefined" case Some(t) => t);
      formData.Append(k, TextValue(str));
      assert ParamEntries(param)[..i + 1] == ParamEntries(param)[..i] + [FormEntry(k, TextValue(str))];
      i := i + 1;
    }
    ghost var head := ParamEntries(param);
    assert head[..|param|] == head;
    var j := 0;
    while j < |companyImages|
      invariant 0 <= j <= |companyImages|
      invariant formData.entries == head + ImageEntries("introImages", companyImages)[..j]
    {
      formData.Append("introImages", UploadValue(companyImages[j]));
      assert ImageEntries("introImages", companyImages)[..j + 1]
        == ImageEntries("introImages", companyImages)[..j] + [FormEntry("introImages", UploadValue(companyImages[j]))];
      j := j + 1;
    }
    head := head + ImageEntries("introImages", companyImages);
    assert ImageEntries("introImages", companyImages)[..|companyImages|] == ImageEntries("introImages", companyImages);
    j := 0;
    while j < |staffImages|
      invariant 0 <= j <= |staffImages|
      invariant formData.entries == head + ImageEntries("staffImages", staffImages)[..j]
    {
      formData.Append("staffImages", UploadValue(staffImages[j]));
      assert ImageEntries("staffImages", staffImages)[..j + 1]
        == ImageEntries("staffImages", staffImages)[..j] + [FormEntry("staffImages", UploadValue(staffImages[j]))];
      j := j + 1;
    }
    assert ImageEntries("staffImages", staffImages)[..|staffImages|] == ImageEntries("staffImages", staffImages);
    formData.Append("thumbnail", UploadValue(thumbnail));
  }

  /** A request as the transport receives it. */
  datatype Request = Request(verb: string, path: string, body: seq<FormEntry>)

  /** `createNewJob(...)`: a POST of the job body to `/jobs`. */
  method CreateNewJob(param: seq<(string, Value)>, thumbnail: Upload, companyImages: seq<Upload>,
                      staffImages: seq<Upload>) returns (request: Request)
    ensures request == Request("POST", "/jobs", JobEntries(param, thumbnail, companyImages, staffImages))
  {
    var formData := BuildJobFormData(param, thumbnail, companyImages, staffImages);
    request := Request("POST", "/jobs", formData.entries);
  }

  /** `updateJobById(...)`: the same body as a creation, PUT to `/jobs/{id}`. */
  method UpdateJobById(id: int, param: seq<(string, Value)>, thumbnail: Upload, companyImages: seq<Upload>,
                       staffImages: seq<Upload>) returns (request: Request)
    ensures request == Request("PUT", "/jobs/" + IntToString(id), JobEntries(param, thumbnail, companyImages, staffImages))
  {
    var formData := BuildJobFormData(param, thumbnail, companyImages, staffImages);
    request := Request("PUT", "/jobs/" + IntToString(id), formData.entries);
  }
}
