/**
  The application list of `src/app/mypage/application_mng/page.tsx`: the page,
  search term and job type kept in the URL, the query sent for the signed-in
  role, and the filtering of the loaded applications by job type and by a
  case-insensitive search over seven fields.
*/
module ApplicationMng {
  import opened Wrappers
  import opened Text
  import opened Js
  import opened Types
  import opened Seqs
  import opened Url
  import Constants

  /** An application as the list filters it: the job's template and the employer fields searched. */
  datatype Application = Application(templateId: int, clinicName: string, jobTitle: string, city: string, pay: string,
                                     zip: string, prefectures: int, tel: string)


  /**
    The query for the applications: limit, page and search term always; the job
    type, the job seeker and the employer only when set.
  */
  datatype FetchParams = FetchParams(limit: int, page: int, searchTerm: string, jobType: Option<Number>,
                                     jobSeekerId: Option<int>, employerId: Option<int>)

  // ------------------------------------------------------------- prefectures

  /**
    `getPrefectureName(id)`: the label of the option whose value reads as `id`;
    the placeholder's empty value reads as 0; no match gives "".
  */
  function PrefectureLabel(id: int): string
  {
    match Find(Constants.PrefectureOptions, (o: PickOption) => ToNumber(o.value) == Int(id))
    case Some(o) => o.option
    case None => ""
  }

  /** Each option's value reads as its position: the placeholder's "" as 0, then "1" to "47". */
  lemma PrefectureValuesRead()
    ensures |Constants.PrefectureOptions| == 48
    ensures Constants.PrefectureOptions[0].option == "選択してください"
    ensures forall k | 0 <= k < 48 :: ToNumber(Constants.PrefectureOptions[k].value) == Int(k)
  {
    Constants.PrefectureOptionsValues();
    ValuesReadAsPositions(Constants.PrefectureOptions);
  }

  /** Values "" and then the numerals 1, 2, … read as their positions. */
  lemma ValuesReadAsPositions(opts: seq<PickOption>)
    requires |opts| >= 1 && opts[0].value == ""
    requires forall i | 1 <= i < |opts| :: opts[i].value == NatToString(i)
    ensures forall k | 0 <= k < |opts| :: ToNumber(opts[k].value) == Int(k)
  {
    assert Trim("") == "";
    forall k | 1 <= k < |opts|
      ensures ToNumber(opts[k].value) == Int(k)
    {
      ToNumberOfIntToString(k);
    }
  }

  /** Ids 1..47 name their prefecture, 0 gives the placeholder's label, and any other id "". */
  lemma PrefectureLabelSpec(id: int)
    ensures 1 <= id <= 47 ==> PrefectureLabel(id) == Constants.PrefectureOptions[id].option
    ensures id == 0 ==> PrefectureLabel(id) == "選択してください"
    ensures (id < 0 || id > 47) ==> PrefectureLabel(id) == ""
  {
    PrefectureValuesRead();
    var opts := Constants.PrefectureOptions;
    var p := (o: PickOption) => ToNumber(o.value) == Int(id);
    if 0 <= id <= 47 {
      FindFirst(opts, p, id);
    }
  }

  // -------------------------------------------------------------- filtering

  /** `jobType !== '0'`: keep the applications whose template is `Number(jobType)`. */
  function ByJobType(jobType: string): Application -> bool
  {
    (a: Application) => jobType == "0" || Int(a.templateId) == ToNumber(jobType)
  }

  /** The search term (already lower-cased) occurs in one of the seven lower-cased fields. */
  predicate MatchesTerm(a: Application, needle: string)
  {
    Contains(ToLower(a.clinicName), needle) || Contains(ToLower(a.jobTitle), needle)
    || Contains(ToLower(a.city), needle) || Contains(ToLower(a.pay), needle)
    || Contains(ToLower(a.zip), needle) || Contains(ToLower(PrefectureLabel(a.prefectures)), needle)
    || Contains(ToLower(a.tel), needle)
  }

  /** A blank term keeps everything; otherwise the lower-cased term, untrimmed, must occur. */
  function BySearch(searchTerm: string): Application -> bool
  {
    (a: Application) => Trim(searchTerm) == "" || MatchesTerm(a, ToLower(searchTerm))
  }

  /**
    The filtering effect: `filtered` starts as all applications, is filtered by job
    type unless it is '0', then by the search term unless it is blank.
  */
  method FilterApplications(all: seq<Application>, jobType: string, searchTerm: string) returns (filtered: seq<Application>)
    ensures filtered == Filter(Filter(all, ByJobType(jobType)), BySearch(searchTerm))
  {
    filtered := all;
    if jobType != "0" {
      var templateId := ToNumber(jobType);
      filtered := Filter(filtered, (app: Application) => Int(app.templateId) == templateId);
      FilterSame(all, (app: Application) => Int(app.templateId) == templateId, ByJobType(jobType));
    } else {
      FilterAll(all, ByJobType(jobType));
    }
    if Trim(searchTerm) != "" {
      var searchLower := ToLower(searchTerm);
      var before := filtered;
      filtered := Filter(filtered, (app: Application) => MatchesTerm(app, searchLower));
      FilterSame(before, (app: Application) => MatchesTerm(app, searchLower), BySearch(searchTerm));
    } else {
      FilterAll(filtered, BySearch(searchTerm));
    }
  }

  /** Two predicates that agree on every element filter alike. */
  lemma {:induction false} FilterSame<T>(xs: seq<T>, p: T -> bool, q: T -> bool)
    requires forall k | 0 <= k < |xs| :: p(xs[k]) == q(xs[k])
    ensures Filter(xs, p) == Filter(xs, q)
    decreases |xs|
  {
    if xs != [] {
      FilterSame(xs[1..], p, q);
    }
  }

  /**
    The list shown is a subsequence of the loaded applications, in their order, and
    holds exactly those of the chosen job type (any, for '0') that match the search
    term; a term of only whitespace matches everything.
  */
  lemma FilteredSpec(all: seq<Application>, jobType: string, searchTerm: string, x: Application)
    ensures var r := Filter(Filter(all, ByJobType(jobType)), BySearch(searchTerm));
      IsSubsequence(r, all)
      && (x in r <==> x in all && (jobType == "0" || Int(x.templateId) == ToNumber(jobType))
                      && (AllWhitespace(searchTerm) || MatchesTerm(x, ToLower(searchTerm))))
  {
    FilterCompose(all, ByJobType(jobType), BySearch(searchTerm));
    FilterIsSubsequence(all, And(ByJobType(jobType), BySearch(searchTerm)));
    FilterMembership(all, And(ByJobType(jobType), BySearch(searchTerm)), x);
    TrimEmpty(searchTerm);
  }

  // ------------------------------------------------------------------ query

  /** `jobType === '1' || jobType === '2'`: the only job types sent to the server and kept in the URL. */
  predicate SentJobType(jobType: string)
  {
    jobType == "1" || jobType == "2"
  }

  // ------------------------------------------------------------------- page

  class ApplicationList {
    const limit: int
    var currentPage: int
    var totalPage: int
    var searchTerm: string
    var tempSearch: string
    var jobType: string
    /** Whether the URL has been read once (`hasLoaded.current`). */
    var hasLoaded: bool
    var allApplications: seq<Application>
    var applications: seq<Application>
    /** The queries handed to `router.push`, oldest first. */
    var pushedUrls: seq<Query>

    constructor()
      ensures limit == 10 && currentPage == 1 && totalPage == 1
      ensures searchTerm == "" && tempSearch == "" && jobType == "0"
      ensures !hasLoaded && allApplications == [] && applications == [] && pushedUrls == []
    {
      limit := 10;
      currentPage := 1;
      totalPage := 1;
      searchTerm := "";
      tempSearch := "";
      jobType := "0";
      hasLoaded := false;
      allApplications := [];
      applications := [];
      pushedUrls := [];
    }

    /**
      The URL-reading effect, with its state updates applied (as the next render
      sees them): the job type defaults to '0' (also for an empty value), the search
      term and the input box to "". The page is not read from the URL.
    */
    method ReadUrl(url: Query)
      modifies this
      ensures jobType == JobTypeOf(url)
      ensures searchTerm == QueryGet(url, "searchTerm").GetOr("") && tempSearch == searchTerm
      ensures hasLoaded
      ensures currentPage == old(currentPage) && totalPage == old(totalPage)
      ensures allApplications == old(allApplications) && applications == old(applications)
      ensures pushedUrls == old(pushedUrls)
    {
      var jobTypeParam := QueryGet(url, "jobType");
      var searchText := QueryGet(url, "searchTerm");
      jobType := if jobTypeParam.GetOr("") == "" then "0" else jobTypeParam.value;
      assert jobType == JobTypeOf(url);
      searchTerm := searchText.GetOr("");
      tempSearch := searchText.GetOr("");
      hasLoaded := true;
    }

    /**
      The query the list is fetched with, or `None` while no one is signed in (the
      query is disabled). The job type is sent only when it is '1' or '2'; a job
      seeker is filtered by their id, an employer by theirs, anyone else by neither.
    */
    method Params(profile: Option<Profile>) returns (params: Option<FetchParams>)
      ensures params.None? <==> profile.None?
      ensures params.Some? ==>
        var p := params.value;
        p.limit == limit && p.page == currentPage && p.searchTerm == searchTerm
        && (p.jobType.Some? <==> SentJobType(jobType))
        && (p.jobType.Some? ==> p.jobType.value == Int(if jobType == "1" then 1 else 2))
        && p.jobSeekerId == (if profile.value.role == "JobSeeker" then Some(profile.value.id) else None)
        && p.employerId == (if profile.value.role == "Employer" then Some(profile.value.id) else None)
        && !(p.jobSeekerId.Some? && p.employerId.Some?)
    {
      if profile.None? {
        return None;
      }
      var p := FetchParams(limit, currentPage, searchTerm, None, None, None);
      if jobType == "1" || jobType == "2" {
        p := p.(jobType := Some(ToNumber(jobType)));
        ToNumberOfIntToString(if jobType == "1" then 1 else 2);
        assert jobType == IntToString(if jobType == "1" then 1 else 2) by {
          assert NatToString(1) == [DigitChar(1)] && NatToString(2) == [DigitChar(2)];
        }
      }
      if profile.value.role == "JobSeeker" {
        p := p.(jobSeekerId := Some(profile.value.id));
      } else if profile.value.role == "Employer" {
        p := p.(employerId := Some(profile.value.id));
      }
      params := Some(p);
    }

    /** A response replaces the loaded applications and the page count. */
    method OnResponse(response: Option<(seq<Application>, int)>)
      modifies this
      ensures response.Some? ==> allApplications == response.value.0 && totalPage == response.value.1
      ensures response.None? ==> allApplications == old(allApplications) && totalPage == old(totalPage)
      ensures currentPage == old(currentPage) && searchTerm == old(searchTerm) && tempSearch == old(tempSearch)
      ensures jobType == old(jobType) && hasLoaded == old(hasLoaded) && applications == old(applications)
      ensures pushedUrls == old(pushedUrls)
    {
      if response.Some? {
        allApplications := response.value.0;
        totalPage := response.value.1;
      }
    }

    /** The filtering effect, on the current state. */
    method UpdateApplications()
      modifies this
      ensures applications == Filter(Filter(allApplications, ByJobType(jobType)), BySearch(searchTerm))
      ensures currentPage == old(currentPage) && totalPage == old(totalPage) && searchTerm == old(searchTerm)
      ensures tempSearch == old(tempSearch) && jobType == old(jobType) && hasLoaded == old(hasLoaded)
      ensures allApplications == old(allApplications) && pushedUrls == old(pushedUrls)
    {
      applications := FilterApplications(allApplications, jobType, searchTerm);
    }

    /**
      The URL-writing effect: once the URL has been read, push page, limit and
      search term, and the job type only when it is '1' or '2'.
    */
    method WriteUrl()
      modifies this
      ensures !old(hasLoaded) ==> pushedUrls == old(pushedUrls)
      ensures old(hasLoaded) ==> pushedUrls == old(pushedUrls) + [UrlOf(currentPage, limit, searchTerm, jobType)]
      ensures currentPage == old(currentPage) && totalPage == old(totalPage) && searchTerm == old(searchTerm)
      ensures tempSearch == old(tempSearch) && jobType == old(jobType) && hasLoaded == old(hasLoaded)
      ensures allApplications == old(allApplications) && applications == old(applications)
    {
      if !hasLoaded {
        return;
      }
      var params: Query := [];
      params := QuerySet(params, "page", IntToString(currentPage));
      params := QuerySet(params, "limit", IntToString(limit));
      params := QuerySet(params, "searchTerm", searchTerm);
      if jobType == "1" || jobType == "2" {
        params := QuerySet(params, "jobType", jobType);
      } else {
        params := RemoveName(params, "jobType");
      }
      pushedUrls := pushedUrls + [params];
    }

    /**
      A commit in which both URL effects run, as on mount: the reading effect sets
      the flag at once but its state updates wait for the next render, so the
      writing effect, which runs after it, already pushes, and pushes the state
      from before the read. From the constructor's state that is page 1, limit 10,
      an empty search term and no job type, whatever the URL held.
    */
    method MountCommit(url: Query)
      modifies this
      ensures pushedUrls == old(pushedUrls) + [UrlOf(old(currentPage), limit, old(searchTerm), old(jobType))]
      ensures jobType == JobTypeOf(url)
      ensures searchTerm == QueryGet(url, "searchTerm").GetOr("") && tempSearch == searchTerm
      ensures hasLoaded
      ensures currentPage == old(currentPage) && totalPage == old(totalPage)
      ensures allApplications == old(allApplications) && applications == old(applications)
    {
      hasLoaded := true;
      WriteUrl();
      ReadUrl(url);
    }

    method OnPageChange(page: int)
      modifies this
      ensures currentPage == page
      ensures totalPage == old(totalPage) && searchTerm == old(searchTerm) && tempSearch == old(tempSearch)
      ensures jobType == old(jobType) && hasLoaded == old(hasLoaded) && allApplications == old(allApplications)
      ensures applications == old(applications) && pushedUrls == old(pushedUrls)
    {
      currentPage := page;
    }

    /** Typing changes only the input box. */
    method OnChangeSearchTerm(value: string)
      modifies this
      ensures tempSearch == value
      ensures currentPage == old(currentPage) && totalPage == old(totalPage) && searchTerm == old(searchTerm)
      ensures jobType == old(jobType) && hasLoaded == old(hasLoaded) && allApplications == old(allApplications)
      ensures applications == old(applications) && pushedUrls == old(pushedUrls)
    {
      tempSearch := value;
    }

    /** The search button commits the typed term and goes back to page 1. */
    method OnConfirmSearchTerm()
      modifies this
      ensures searchTerm == old(tempSearch) && currentPage == 1
      ensures totalPage == old(totalPage) && tempSearch == old(tempSearch)
      ensures jobType == old(jobType) && hasLoaded == old(hasLoaded) && allApplications == old(allApplications)
      ensures applications == old(applications) && pushedUrls == old(pushedUrls)
    {
      searchTerm := tempSearch;
      currentPage := 1;
    }

    /** Enter commits the typed term but keeps the page. */
    method OnKeyDown(key: string)
      modifies this
      ensures searchTerm == (if key == "Enter" then old(tempSearch) else old(searchTerm))
      ensures currentPage == old(currentPage) && totalPage == old(totalPage) && tempSearch == old(tempSearch)
      ensures jobType == old(jobType) && hasLoaded == old(hasLoaded) && allApplications == old(allApplications)
      ensures applications == old(applications) && pushedUrls == old(pushedUrls)
    {
      if key == "Enter" {
        searchTerm := tempSearch;
      }
    }

    /** Choosing a job type goes back to page 1. */
    method OnSelectJobType(value: string)
      modifies this
      ensures jobType == value && currentPage == 1
      ensures totalPage == old(totalPage) && searchTerm == old(searchTerm) && tempSearch == old(tempSearch)
      ensures hasLoaded == old(hasLoaded) && allApplications == old(allApplications)
      ensures applications == old(applications) && pushedUrls == old(pushedUrls)
    {
      jobType := value;
      currentPage := 1;
    }
  }

  /** `params.get('jobType') || '0'`: a missing or empty job type means every type. */
  function JobTypeOf(url: Query): string
  {
    match QueryGet(url, "jobType")
    case Some(t) => if t == "" then "0" else t
    case None => "0"
  }

  /** The query the page pushes. */
  function UrlOf(page: int, limit: int, searchTerm: string, jobType: string): Query
  {
    var q := UrlBase(page, limit, searchTerm);
    if SentJobType(jobType) then QuerySet(q, "jobType", jobType) else RemoveName(q, "jobType")
  }

  /** The URL's page, limit and search term, set in that order. */
  function UrlBase(page: int, limit: int, searchTerm: string): Query
  {
    QuerySet(QuerySet(QuerySet([], "page", IntToString(page)), "limit", IntToString(limit)), "searchTerm", searchTerm)
  }

  lemma UrlBaseGet(page: int, limit: int, searchTerm: string)
    ensures var q := UrlBase(page, limit, searchTerm);
      QueryGet(q, "searchTerm") == Some(searchTerm) && QueryGet(q, "page") == Some(IntToString(page))
      && QueryGet(q, "jobType").None?
  {
    var q1 := QuerySet([], "page", IntToString(page));
    var q2 := QuerySet(q1, "limit", IntToString(limit));
    QuerySetGet([], "page", IntToString(page), "page");
    QuerySetGet(q1, "limit", IntToString(limit), "page");
    QuerySetGet(q2, "searchTerm", searchTerm, "page");
    QuerySetGet(q2, "searchTerm", searchTerm, "searchTerm");
    QuerySetGet([], "page", IntToString(page), "jobType");
    QuerySetGet(q1, "limit", IntToString(limit), "jobType");
    QuerySetGet(q2, "searchTerm", searchTerm, "jobType");
  }

  /**
    Reading back a pushed URL restores the search term, and the job type when it
    was '1' or '2'; any other job type reads back as '0', so each of the select's
    choices '0', '1' and '2' survives the round trip. The URL also carries the page,
    but the reading effect does not take it back.
  */
  lemma UrlRoundTrip(page: int, limit: int, searchTerm: string, jobType: string)
    ensures var url := UrlOf(page, limit, searchTerm, jobType);
      QueryGet(url, "searchTerm") == Some(searchTerm)
      && QueryGet(url, "page") == Some(IntToString(page))
      && QueryGet(url, "jobType") == (if SentJobType(jobType) then Some(jobType) else None)
      && JobTypeOf(url) == (if SentJobType(jobType) then jobType else "0")
  {
    var q := UrlBase(page, limit, searchTerm);
    UrlBaseGet(page, limit, searchTerm);
    if SentJobType(jobType) {
      QuerySetGet(q, "jobType", jobType, "page");
      QuerySetGet(q, "jobType", jobType, "searchTerm");
      QuerySetGet(q, "jobType", jobType, "jobType");
    } else {
      QueryGetRemoveName(q, "jobType", "page");
      QueryGetRemoveName(q, "jobType", "searchTerm");
      assert QueryGet(RemoveName(q, "jobType"), "jobType").None?;
    }
  }
}
