/**
  The job list page of `src/components/pages/jobs/JobOpenings.tsx`: its search
  state (page, search term, selected feature and prefecture ids), the URL that
  mirrors it, where selected ids travel as comma-joined NAMES, and the search tags.
  React effects are methods the caller invokes in the order React would run them;
  the feature catalog served by `/features` is a parameter (`None` while loading).
*/
module JobOpenings {
  import opened Wrappers
  import opened Text
  import opened Js
  import opened Types
  import opened Seqs
  import opened Url
  import Constants

  // -------------------------------------------------- name <-> id translation

  /** A row of a lookup table: a feature or a map-search city, by its id as text (`id.toString()`) and name. */
  datatype Entry = Entry(key: string, name: string)

  function FeatureEntries(catalog: seq<FeatureItem>): (r: seq<Entry>)
    ensures |r| == |catalog|
    ensures forall i | 0 <= i < |r| :: r[i] == Entry(IntToString(catalog[i].id), catalog[i].name)
  {
    seq(|catalog|, i requires 0 <= i < |catalog| => Entry(IntToString(catalog[i].id), catalog[i].name))
  }

  function CityEntries(cities: seq<City>): (r: seq<Entry>)
    ensures |r| == |cities|
    ensures forall i | 0 <= i < |r| :: r[i] == Entry(IntToString(cities[i].id), cities[i].text)
  {
    seq(|cities|, i requires 0 <= i < |cities| => Entry(IntToString(cities[i].id), cities[i].text))
  }

  /** `table.find(i => i.id.toString() === key)`, as the position found. */
  function LookupById(entries: seq<Entry>, key: string): (r: Option<nat>)
    ensures r.Some? ==> r.value < |entries| && entries[r.value].key == key
    ensures r.Some? ==> forall k | 0 <= k < r.value :: entries[k].key != key
    ensures r.None? <==> forall k | 0 <= k < |entries| :: entries[k].key != key
  {
    FirstIndex(entries, (e: Entry) => e.key == key)
  }

  /** `table.find(i => i.name === name)`, as the position found. */
  function LookupByName(entries: seq<Entry>, name: string): (r: Option<nat>)
    ensures r.Some? ==> r.value < |entries| && entries[r.value].name == name
    ensures r.Some? ==> forall k | 0 <= k < r.value :: entries[k].name != name
    ensures r.None? <==> forall k | 0 <= k < |entries| :: entries[k].name != name
  {
    FirstIndex(entries, (e: Entry) => e.name == name)
  }

  /** The names of the selected ids, in selection order; ids not in the table are skipped. */
  function NamesOf(entries: seq<Entry>, ids: seq<string>): (r: seq<string>)
    ensures |r| <= |ids|
    decreases |ids|
  {
    if ids == [] then []
    else
      var rest := NamesOf(entries, ids[..|ids| - 1]);
      match LookupById(entries, ids[|ids| - 1])
      case None => rest
      case Some(k) => rest + [entries[k].name]
  }

  /** The ids of the named entries, in token order; tokens naming nothing are dropped. */
  function IdsOf(entries: seq<Entry>, tokens: seq<string>): (r: seq<string>)
    ensures |r| <= |tokens|
    decreases |tokens|
  {
    if tokens == [] then []
    else
      var rest := IdsOf(entries, tokens[..|tokens| - 1]);
      match LookupByName(entries, tokens[|tokens| - 1])
      case None => rest
      case Some(k) => rest + [entries[k].key]
  }

  /** Reading one comma-joined URL parameter back into ids. */
  function DecodeParam(entries: seq<Entry>, param: string): seq<string>
  {
    IdsOf(entries, Split(param, ','))
  }

  /** The ids encoded for the URL all resolve in the table. */
  predicate AllResolve(entries: seq<Entry>, ids: seq<string>)
  {
    forall i | 0 <= i < |ids| :: LookupById(entries, ids[i]).Some?
  }

  /** Names identify entries and can travel in a comma-joined parameter. */
  predicate NamesUsable(entries: seq<Entry>)
  {
    (forall i, j | 0 <= i < |entries| && 0 <= j < |entries| && entries[i].name == entries[j].name :: i == j)
    && forall i | 0 <= i < |entries| :: Constants.PlainName(entries[i].name)
  }

  lemma AllResolvePrefix(entries: seq<Entry>, ids: seq<string>, n: nat)
    requires AllResolve(entries, ids) && n <= |ids|
    ensures AllResolve(entries, ids[..n])
  {
    forall i | 0 <= i < n
      ensures LookupById(entries, ids[..n][i]).Some?
    {
      assert ids[..n][i] == ids[i];
    }
  }

  lemma NamesOfLast(entries: seq<Entry>, ids: seq<string>)
    requires ids != [] && LookupById(entries, ids[|ids| - 1]).Some?
    ensures NamesOf(entries, ids) ==
      NamesOf(entries, ids[..|ids| - 1]) + [entries[LookupById(entries, ids[|ids| - 1]).value].name]
  {
  }

  lemma IdsOfLast(entries: seq<Entry>, tokens: seq<string>)
    requires tokens != [] && LookupByName(entries, tokens[|tokens| - 1]).Some?
    ensures IdsOf(entries, tokens) ==
      IdsOf(entries, tokens[..|tokens| - 1]) + [entries[LookupByName(entries, tokens[|tokens| - 1]).value].key]
  {
  }

  /** Every selected id that resolves produces a name, so a fully resolving selection keeps its length. */
  lemma {:induction false} NamesOfResolving(entries: seq<Entry>, ids: seq<string>)
    requires AllResolve(entries, ids)
    ensures |NamesOf(entries, ids)| == |ids|
    ensures forall i | 0 <= i < |ids| ::
      NamesOf(entries, ids)[i] == entries[LookupById(entries, ids[i]).value].name
    decreases |ids|
  {
    if ids != [] {
      var init := ids[..|ids| - 1];
      AllResolvePrefix(entries, ids, |ids| - 1);
      NamesOfResolving(entries, init);
      assert LookupById(entries, ids[|ids| - 1]).Some?;
      NamesOfLast(entries, ids);
      forall i | 0 <= i < |init|
        ensures NamesOf(entries, ids)[i] == entries[LookupById(entries, ids[i]).value].name
      {
        assert init[i] == ids[i];
      }
    }
  }

  /** With distinct names, looking up the name of a resolved id finds the same entry. */
  lemma LookupNameOfId(entries: seq<Entry>, id: string)
    requires NamesUsable(entries) && LookupById(entries, id).Some?
    ensures LookupByName(entries, entries[LookupById(entries, id).value].name) == LookupById(entries, id)
  {
    var k := LookupById(entries, id).value;
    var name := entries[k].name;
    assert LookupByName(entries, name).Some? by {
      assert entries[k].name == name;
    }
    var k' := LookupByName(entries, name).value;
    assert entries[k'].name == entries[k].name;
  }

  /** Every token names an entry. */
  predicate AllNamed(entries: seq<Entry>, tokens: seq<string>)
  {
    forall i | 0 <= i < |tokens| :: LookupByName(entries, tokens[i]).Some?
  }

  lemma AllNamedPrefix(entries: seq<Entry>, tokens: seq<string>, n: nat)
    requires AllNamed(entries, tokens) && n <= |tokens|
    ensures AllNamed(entries, tokens[..n])
  {
    forall i | 0 <= i < n
      ensures LookupByName(entries, tokens[..n][i]).Some?
    {
      assert tokens[..n][i] == tokens[i];
    }
  }

  /** Tokens that all name an entry each produce that entry's id, in order. */
  lemma {:induction false} IdsOfNamed(entries: seq<Entry>, tokens: seq<string>)
    requires AllNamed(entries, tokens)
    ensures |IdsOf(entries, tokens)| == |tokens|
    ensures forall i | 0 <= i < |tokens| ::
      IdsOf(entries, tokens)[i] == entries[LookupByName(entries, tokens[i]).value].key
    decreases |tokens|
  {
    if tokens != [] {
      var init := tokens[..|tokens| - 1];
      AllNamedPrefix(entries, tokens, |tokens| - 1);
      IdsOfNamed(entries, init);
      assert LookupByName(entries, tokens[|tokens| - 1]).Some?;
      IdsOfLast(entries, tokens);
      forall i | 0 <= i < |init|
        ensures IdsOf(entries, tokens)[i] == entries[LookupByName(entries, tokens[i]).value].key
      {
        assert init[i] == tokens[i];
      }
    }
  }

  /** Looking the names of resolving ids up again gives the ids back. */
  lemma IdsOfNamesOf(entries: seq<Entry>, ids: seq<string>)
    requires AllResolve(entries, ids) && NamesUsable(entries)
    ensures IdsOf(entries, NamesOf(entries, ids)) == ids
  {
    var names := NamesOf(entries, ids);
    NamesOfResolving(entries, ids);
    forall i | 0 <= i < |names|
      ensures LookupByName(entries, names[i]) == LookupById(entries, ids[i])
    {
      LookupNameOfId(entries, ids[i]);
    }
    IdsOfNamed(entries, names);
  }

  /**
    Decoding the encoded parameter returns the original id list, provided every id
    resolves and the table's names are distinct, non-empty and comma-free.
  */
  lemma DecodeEncode(entries: seq<Entry>, ids: seq<string>)
    requires AllResolve(entries, ids) && NamesUsable(entries)
    ensures DecodeParam(entries, Join(NamesOf(entries, ids), ",")) == ids
  {
    var names := NamesOf(entries, ids);
    NamesOfResolving(entries, ids);
    if ids == [] {
      assert Split("", ',') == [""];
      assert LookupByName(entries, "").None?;
    } else {
      forall p | p in names
        ensures ',' !in p
      {
        var i :| 0 <= i < |names| && names[i] == p;
        assert Constants.PlainName(entries[LookupById(entries, ids[i]).value].name);
      }
      SplitJoin(names, ',');
      IdsOfNamesOf(entries, ids);
    }
  }

  /** The map-search cities satisfy the conditions of the round trip. */
  lemma CityNamesUsable()
    ensures NamesUsable(CityEntries(Constants.AllCities(Constants.MapData)))
  {
    Constants.MapDataCityNamesDistinct();
    Constants.MapDataCityNamesPlain();
  }

  /** `getFeaturesParam`: the names of the selected features joined by commas; "" until the catalog has loaded. */
  function FeaturesParam(catalog: Option<seq<FeatureItem>>, features: seq<string>): string
  {
    match catalog
    case None => ""
    case Some(c) => Join(NamesOf(FeatureEntries(c), features), ",")
  }

  /** `getPrefecturesParam`: the names of the selected map-search cities joined by commas. */
  function PrefecturesParam(prefectures: seq<string>): string
  {
    Join(NamesOf(CityEntries(Constants.AllCities(Constants.MapData)), prefectures), ",")
  }

  /** Appending a region appends its cities. */
  lemma {:induction false} AllCitiesSnoc(areas: seq<MapInfo>, a: MapInfo)
    ensures Constants.AllCities(areas + [a]) == Constants.AllCities(areas) + a.cities
    decreases |areas|
  {
    if areas == [] {
      assert [a][1..] == [];
    } else {
      AllCitiesSnoc(areas[1..], a);
      assert (areas + [a])[1..] == areas[1..] + [a];
    }
  }

  /** `cityAll`: the cities of every region of `MapData`, concatenated in order. */
  method CityAll() returns (res: seq<City>)
    ensures res == Constants.AllCities(Constants.MapData)
  {
    res := [];
    var i := 0;
    while i < |Constants.MapData|
      invariant 0 <= i <= |Constants.MapData|
      invariant res == Constants.AllCities(Constants.MapData[..i])
    {
      AllCitiesSnoc(Constants.MapData[..i], Constants.MapData[i]);
      assert Constants.MapData[..i + 1] == Constants.MapData[..i] + [Constants.MapData[i]];
      res := res + Constants.MapData[i].cities;
      i := i + 1;
    }
    assert Constants.MapData[..i] == Constants.MapData;
  }

  // --------------------------------------------------------------- search tags

  /** A search tag: the selected id and, at the same index, the piece of the encoded parameter (`undefined` past its end). */
  datatype Tag = Tag(value: string, caption: Option<string>)

  function TagsOf(ids: seq<string>, labels: seq<string>): (r: seq<Tag>)
    ensures |r| == |ids|
    ensures forall i | 0 <= i < |ids| ::
      r[i].value == ids[i] && r[i].caption == (if i < |labels| then Some(labels[i]) else None)
  {
    seq(|ids|, i requires 0 <= i < |ids| => Tag(ids[i], if i < |labels| then Some(labels[i]) else None))
  }

  /** One `forEach` of the search-tag effect: push a tag per id, labelled by the piece at its index. */
  method PushTags(tags: seq<Tag>, ids: seq<string>, labels: seq<string>) returns (res: seq<Tag>)
    ensures res == tags + TagsOf(ids, labels)
  {
    res := tags;
    var index := 0;
    while index < |ids|
      invariant 0 <= index <= |ids|
      invariant res == tags + TagsOf(ids[..index], labels)
    {
      res := res + [Tag(ids[index], if index < |labels| then Some(labels[index]) else None)];
      index := index + 1;
    }
    assert ids[..index] == ids;
  }

  /** When every id resolves, each tag is labelled with the name of its own id. */
  lemma TagsAligned(entries: seq<Entry>, ids: seq<string>)
    requires AllResolve(entries, ids) && NamesUsable(entries)
    ensures forall i | 0 <= i < |ids| ::
      TagsOf(ids, Split(Join(NamesOf(entries, ids), ","), ','))[i]
      == Tag(ids[i], Some(entries[LookupById(entries, ids[i]).value].name))
  {
    var names := NamesOf(entries, ids);
    NamesOfResolving(entries, ids);
    if ids != [] {
      forall p | p in names
        ensures ',' !in p
      {
        var i :| 0 <= i < |names| && names[i] == p;
        assert Constants.PlainName(entries[LookupById(entries, ids[i]).value].name);
      }
      SplitJoin(names, ',');
    }
  }

  /**
    A selected id missing from the table shifts every later label: with the
    selection ["999", "1"] and only feature 1 ("A") in the table, the tag of "999"
    reads "A" and the tag of "1" has no label.
  */
  lemma TagsMisalignedAfterDrop()
    ensures TagsOf(["999", "1"], Split(Join(NamesOf([Entry("1", "A")], ["999", "1"]), ","), ','))
      == [Tag("999", Some("A")), Tag("1", None)]
  {
    var es := [Entry("1", "A")];
    assert IntToString(1) == "1";
    assert IntToString(1) != "999";
    assert LookupById(es, "999").None?;
    assert LookupById(es, "1") == Some(0);
    assert NamesOf(es, ["999"]) == [];
    assert ["999", "1"][..1] == ["999"];
    assert NamesOf(es, ["999", "1"]) == ["A"];
    assert Split("A", ',') == ["A"] by {
      SplitNoSeparator("A", ',');
    }
  }

  // ------------------------------------------------------------------ the page

  /** `Number(page) || 1`: a missing, non-numeric or zero page is 1; any other number stays, negatives included. */
  function PageOf(page: Option<string>): (p: int)
    ensures p != 0
  {
    var n := NullableToNumber(page);
    if NumberTruthy(n) then n.v else 1
  }

  lemma PageOfWritten(p: int)
    ensures PageOf(Some(IntToString(p))) == if p != 0 then p else 1
    ensures PageOf(None) == 1
  {
    ToNumberOfIntToString(p);
  }

  /** The query the page pushes: page, limit, searchTerm, prefectures and features, in that order. */
  function UrlParams(page: int, limit: int, searchTerm: string, prefecturesParam: string, featuresParam: string): Query
  {
    QuerySet(QuerySet(QuerySet(QuerySet(QuerySet([],
      "page", IntToString(page)),
      "limit", IntToString(limit)),
      "searchTerm", searchTerm),
      "prefectures", prefecturesParam),
      "features", featuresParam)
  }

  /** `get` of each name of the pushed query gives the value it was set to. */
  lemma UrlParamsGet(page: int, limit: int, searchTerm: string, pp: string, fp: string)
    ensures QueryGet(UrlParams(page, limit, searchTerm, pp, fp), "page") == Some(IntToString(page))
    ensures QueryGet(UrlParams(page, limit, searchTerm, pp, fp), "searchTerm") == Some(searchTerm)
    ensures QueryGet(UrlParams(page, limit, searchTerm, pp, fp), "prefectures") == Some(pp)
    ensures QueryGet(UrlParams(page, limit, searchTerm, pp, fp), "features") == Some(fp)
  {
    var q1 := QuerySet([], "page", IntToString(page));
    var q2 := QuerySet(q1, "limit", IntToString(limit));
    var q3 := QuerySet(q2, "searchTerm", searchTerm);
    var q4 := QuerySet(q3, "prefectures", pp);
    var q5 := QuerySet(q4, "features", fp);
    QuerySetGet([], "page", IntToString(page), "page");
    QuerySetGet(q1, "limit", IntToString(limit), "page");
    QuerySetGet(q2, "searchTerm", searchTerm, "page");
    QuerySetGet(q3, "prefectures", pp, "page");
    QuerySetGet(q4, "features", fp, "page");
    QuerySetGet(q2, "searchTerm", searchTerm, "searchTerm");
    QuerySetGet(q3, "prefectures", pp, "searchTerm");
    QuerySetGet(q4, "features", fp, "searchTerm");
    QuerySetGet(q3, "prefectures", pp, "prefectures");
    QuerySetGet(q4, "features", fp, "prefectures");
    QuerySetGet(q4, "features", fp, "features");
  }

  /** `value.key || []` on the submitted filter form. */
  function FormList(value: map<string, seq<Number>>, key: string): seq<Number>
  {
    if key in value then value[key] else []
  }

  /** `list.map(String)`. */
  function NumberStrings(xs: seq<Number>): (r: seq<string>)
    ensures |r| == |xs| && forall i | 0 <= i < |xs| :: r[i] == NumberToString(xs[i])
  {
    seq(|xs|, i requires 0 <= i < |xs| => NumberToString(xs[i]))
  }

  /** One `forEach` of `parseFeaturesAndPrefecturesParam`: look each token up by name and push the id found. */
  method DecodeTokens(entries: seq<Entry>, tokens: seq<string>) returns (ids: seq<string>)
    ensures ids == IdsOf(entries, tokens)
  {
    ids := [];
    var i := 0;
    while i < |tokens|
      invariant 0 <= i <= |tokens|
      invariant ids == IdsOf(entries, tokens[..i])
    {
      assert tokens[..i + 1][..i] == tokens[..i];
      var find := LookupByName(entries, tokens[i]);
      if find.Some? {
        ids := ids + [entries[find.value].key];
      }
      i := i + 1;
    }
    assert tokens[..i] == tokens;
  }

  class JobList {
    const limit: int
    var currentPage: int
    var searchTerm: string
    var prefectures: seq<string>
    var features: seq<string>
    var searchTags: seq<Tag>
    var filterModalShown: bool
    /** Whether the URL has been read once (`hasLoaded.current`). */
    var hasLoaded: bool
    /** The queries handed to `router.push`, oldest first. */
    var pushedUrls: seq<Query>

    constructor()
      ensures limit == 10 && currentPage == 1 && searchTerm == ""
      ensures prefectures == [] && features == [] && searchTags == []
      ensures !filterModalShown && !hasLoaded && pushedUrls == []
    {
      limit := 10;
      currentPage := 1;
      searchTerm := "";
      prefectures := [];
      features := [];
      searchTags := [];
      filterModalShown := false;
      hasLoaded := false;
      pushedUrls := [];
    }

    /**
      `parseFeaturesAndPrefecturesParam`: each comma-separated token becomes the id of
      the first feature (or city) with exactly that name; other tokens are dropped.
    */
    method ParseFeaturesAndPrefecturesParam(featuresParam: string, prefecturesParam: string, catalog: seq<FeatureItem>)
      modifies this
      ensures features == DecodeParam(FeatureEntries(catalog), featuresParam)
      ensures prefectures == DecodeParam(CityEntries(Constants.AllCities(Constants.MapData)), prefecturesParam)
      ensures currentPage == old(currentPage) && searchTerm == old(searchTerm) && searchTags == old(searchTags)
      ensures filterModalShown == old(filterModalShown) && hasLoaded == old(hasLoaded) && pushedUrls == old(pushedUrls)
    {
      var cityAll := CityAll();
      var fTemp := DecodeTokens(FeatureEntries(catalog), Split(featuresParam, ','));
      var pTemp := DecodeTokens(CityEntries(cityAll), Split(prefecturesParam, ','));
      features := fTemp;
      prefectures := pTemp;
    }

    /**
      The URL-reading effect, with its state updates applied (as the next render
      sees them): nothing happens until the catalog has loaded; then the search
      term, page and selections are taken from the query, and the page is marked
      as loaded.
    */
    method ReadUrl(url: Query, catalog: Option<seq<FeatureItem>>)
      modifies this
      ensures catalog.None? ==>
        currentPage == old(currentPage) && searchTerm == old(searchTerm) && features == old(features)
        && prefectures == old(prefectures) && hasLoaded == old(hasLoaded)
      ensures catalog.Some? ==>
        searchTerm == QueryGet(url, "searchTerm").GetOr("")
        && currentPage == PageOf(QueryGet(url, "page"))
        && features == DecodeParam(FeatureEntries(catalog.value), QueryGet(url, "features").GetOr(""))
        && prefectures == DecodeParam(CityEntries(Constants.AllCities(Constants.MapData)), QueryGet(url, "prefectures").GetOr(""))
        && hasLoaded
      ensures searchTags == old(searchTags) && filterModalShown == old(filterModalShown) && pushedUrls == old(pushedUrls)
    {
      if catalog.None? {
        return;
      }
      searchTerm := QueryGet(url, "searchTerm").GetOr("");
      currentPage := PageOf(QueryGet(url, "page"));
      ParseFeaturesAndPrefecturesParam(QueryGet(url, "features").GetOr(""), QueryGet(url, "prefectures").GetOr(""), catalog.value);
      hasLoaded := true;
    }

    /** The URL-writing effect: once the URL has been read, push the current state as a query. */
    method WriteUrl(catalog: Option<seq<FeatureItem>>)
      modifies this
      ensures !old(hasLoaded) ==> pushedUrls == old(pushedUrls)
      ensures old(hasLoaded) ==> (pushedUrls == old(pushedUrls) +
        [UrlParams(currentPage, limit, searchTerm, PrefecturesParam(prefectures), FeaturesParam(catalog, features))])
      ensures currentPage == old(currentPage) && searchTerm == old(searchTerm) && features == old(features)
      ensures prefectures == old(prefectures) && searchTags == old(searchTags)
      ensures filterModalShown == old(filterModalShown) && hasLoaded == old(hasLoaded)
    {
      if !hasLoaded {
        return;
      }
      var params: Query := [];
      params := QuerySet(params, "page", IntToString(currentPage));
      params := QuerySet(params, "limit", IntToString(limit));
      params := QuerySet(params, "searchTerm", searchTerm);
      params := QuerySet(params, "prefectures", PrefecturesParam(prefectures));
      params := QuerySet(params, "features", FeaturesParam(catalog, features));
      pushedUrls := pushedUrls + [params];
    }

    /**
      The mount commit, in which both URL effects run: when the catalog is already
      there, the reading effect sets the flag at once but its state updates wait
      for the next render, so the writing effect, which runs after it, pushes the
      state from before the read (from the constructor's state: page 1, an empty
      term and no selection). Without the catalog nothing is read, and the writing
      effect pushes only if the URL was read before.
    */
    method MountCommit(url: Query, catalog: Option<seq<FeatureItem>>)
      modifies this
      ensures (old(hasLoaded) || catalog.Some?) ==>
        pushedUrls == old(pushedUrls) + [UrlParams(old(currentPage), limit, old(searchTerm),
          PrefecturesParam(old(prefectures)), FeaturesParam(catalog, old(features)))]
      ensures !(old(hasLoaded) || catalog.Some?) ==> pushedUrls == old(pushedUrls)
      ensures catalog.None? ==>
        currentPage == old(currentPage) && searchTerm == old(searchTerm) && features == old(features)
        && prefectures == old(prefectures) && hasLoaded == old(hasLoaded)
      ensures catalog.Some? ==>
        searchTerm == QueryGet(url, "searchTerm").GetOr("")
        && currentPage == PageOf(QueryGet(url, "page"))
        && features == DecodeParam(FeatureEntries(catalog.value), QueryGet(url, "features").GetOr(""))
        && prefectures == DecodeParam(CityEntries(Constants.AllCities(Constants.MapData)), QueryGet(url, "prefectures").GetOr(""))
        && hasLoaded
      ensures searchTags == old(searchTags) && filterModalShown == old(filterModalShown)
    {
      if catalog.Some? {
        hasLoaded := true;
      }
      WriteUrl(catalog);
      ReadUrl(url, catalog);
    }

    /**
      The search-tag effect: one tag per selected feature, then one per selected
      prefecture, each labelled by the piece at the same index of the split parameter.
    */
    method UpdateSearchTags(catalog: Option<seq<FeatureItem>>)
      modifies this
      ensures searchTags ==
        TagsOf(features, Split(FeaturesParam(catalog, features), ','))
        + TagsOf(prefectures, Split(PrefecturesParam(prefectures), ','))
      ensures currentPage == old(currentPage) && searchTerm == old(searchTerm) && features == old(features)
      ensures prefectures == old(prefectures) && filterModalShown == old(filterModalShown)
      ensures hasLoaded == old(hasLoaded) && pushedUrls == old(pushedUrls)
    {
      var fArray := Split(FeaturesParam(catalog, features), ',');
      var pArray := Split(PrefecturesParam(prefectures), ',');
      var fTags := PushTags([], features, fArray);
      assert fTags == TagsOf(features, fArray);
      var res := PushTags(fTags, prefectures, pArray);
      searchTags := res;
    }

    method OnPageChange(page: int)
      modifies this
      ensures currentPage == page
      ensures searchTerm == old(searchTerm) && features == old(features) && prefectures == old(prefectures)
      ensures searchTags == old(searchTags) && filterModalShown == old(filterModalShown)
      ensures hasLoaded == old(hasLoaded) && pushedUrls == old(pushedUrls)
    {
      currentPage := page;
    }

    /**
      `onSubmitFilterForm`: closes the modal; prefectures become the form's prefectures
      as strings; features become conditions, employment types, items and job types, in
      that order, as strings; the search term is replaced.
    */
    method OnSubmitFilterForm(value: map<string, seq<Number>>, searchText: string)
      modifies this
      ensures !filterModalShown
      ensures prefectures == NumberStrings(FormList(value, "prefectures"))
      ensures features == NumberStrings(FormList(value, "conditions") + FormList(value, "employmentTypes")
        + FormList(value, "items") + FormList(value, "jobTypes"))
      ensures searchTerm == searchText
      ensures currentPage == old(currentPage) && searchTags == old(searchTags)
      ensures hasLoaded == old(hasLoaded) && pushedUrls == old(pushedUrls)
    {
      filterModalShown := false;
      prefectures := NumberStrings(FormList(value, "prefectures"));
      features := NumberStrings(FormList(value, "conditions") + FormList(value, "employmentTypes")
        + FormList(value, "items") + FormList(value, "jobTypes"));
      searchTerm := searchText;
    }
  }

  /**
    What the page pushes reads back as the same state: the page (when not 0), the
    search term, and the selections whenever every selected id resolves and the
    feature names are distinct, non-empty and comma-free.
  */
  lemma UrlRoundTrip(page: int, limit: int, searchTerm: string, prefectures: seq<string>, features: seq<string>,
                     catalog: seq<FeatureItem>)
    requires page != 0
    requires AllResolve(FeatureEntries(catalog), features) && NamesUsable(FeatureEntries(catalog))
    requires AllResolve(CityEntries(Constants.AllCities(Constants.MapData)), prefectures)
    ensures var url := UrlParams(page, limit, searchTerm, PrefecturesParam(prefectures), FeaturesParam(Some(catalog), features));
      PageOf(QueryGet(url, "page")) == page
      && QueryGet(url, "searchTerm").GetOr("") == searchTerm
      && DecodeParam(FeatureEntries(catalog), QueryGet(url, "features").GetOr("")) == features
      && DecodeParam(CityEntries(Constants.AllCities(Constants.MapData)), QueryGet(url, "prefectures").GetOr("")) == prefectures
  {
    UrlParamsGet(page, limit, searchTerm, PrefecturesParam(prefectures), FeaturesParam(Some(catalog), features));
    PageOfWritten(page);
    DecodeEncode(FeatureEntries(catalog), features);
    CityNamesUsable();
    DecodeEncode(CityEntries(Constants.AllCities(Constants.MapData)), prefectures);
  }

  // ------------------------------------------------------------ job cards

  /** The features `getPrefecture` treats as prefectures: a parent id strictly between 34 and 43. */
  predicate IsPrefectureFeature(f: FeatureItem)
  {
    f.parentId.Some? && f.parentId.value != 0 && 34 < f.parentId.value < 43
  }

  /** `getPrefecture(features)`: the name of the first prefecture feature, or 'None'. */
  function GetPrefecture(features: seq<FeatureItem>): (r: string)
    ensures (forall k | 0 <= k < |features| :: !IsPrefectureFeature(features[k])) ==> r == "None"
    ensures forall k | 0 <= k < |features| && IsPrefectureFeature(features[k]) ::
      (forall j | 0 <= j < k :: !IsPrefectureFeature(features[j])) ==> r == features[k].name
  {
    match FirstIndex(features, IsPrefectureFeature)
    case None => "None"
    case Some(k) => features[k].name
  }

  /** The hard-coded bounds are exactly the region values of the prefecture search: "35" to "42". */
  lemma PrefectureBoundsAreRegions(p: int)
    ensures 34 < p < 43 <==> Constants.IsRegionValue(IntToString(p))
  {
    Constants.RegionSearchOptionsValues();
    if 34 < p < 43 {
      assert Constants.RegionSearchOptions[p - 35].value == IntToString(p);
    } else if Constants.IsRegionValue(IntToString(p)) {
      var j :| 0 <= j < |Constants.RegionSearchOptions| && Constants.RegionSearchOptions[j].value == IntToString(p);
      IntToStringInjective(35 + j, p);
    }
  }

  /** `i.parent_id === 4`: the features listed as employment types. */
  predicate IsEmploymentType(f: FeatureItem)
  {
    f.parentId == Some(4)
  }

  /** The employment-type tags: the features whose parent is 4, in order. */
  function EmploymentTypeTags(features: seq<FeatureItem>): seq<string>
  {
    var filtered := Filter(features, IsEmploymentType);
    seq(|filtered|, i requires 0 <= i < |filtered| => filtered[i].name)
  }

  /** Some feature listed as an employment type is named `t`. */
  predicate NamesEmploymentType(features: seq<FeatureItem>, t: string)
  {
    exists g | g in features :: IsEmploymentType(g) && g.name == t
  }

  /**
    A feature whose parent is 4 gets a tag, and every tag is the name of such a
    feature; there are never more tags than features.
  */
  lemma EmploymentTypeTagsSpec(features: seq<FeatureItem>, f: FeatureItem)
    requires f in features
    ensures f.parentId == Some(4) ==> f.name in EmploymentTypeTags(features)
    ensures forall i | 0 <= i < |EmploymentTypeTags(features)| ::
      NamesEmploymentType(features, EmploymentTypeTags(features)[i])
    ensures |EmploymentTypeTags(features)| <= |features|
  {
    FilterMembership(features, IsEmploymentType, f);
    var filtered := Filter(features, IsEmploymentType);
    if f.parentId == Some(4) {
      var i :| 0 <= i < |filtered| && filtered[i] == f;
      assert EmploymentTypeTags(features)[i] == f.name;
    }
    forall i | 0 <= i < |EmploymentTypeTags(features)|
      ensures NamesEmploymentType(features, EmploymentTypeTags(features)[i])
    {
      assert filtered[i] in filtered;
      FilterMembership(features, IsEmploymentType, filtered[i]);
      assert EmploymentTypeTags(features)[i] == filtered[i].name;
      assert filtered[i] in features && filtered[i].parentId == Some(4);
    }
  }
}
