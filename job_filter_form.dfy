/**
  The search filter form of `src/components/pages/jobs/JobFilterForm.tsx`: the
  catalog split into four categories, the selection seeded from the page's
  current search when the form mounts, clicks that toggle an id in the array
  held under a key (in place), the map area picker, and submission.
*/
module JobFilterForm {
  import opened Wrappers
  import opened Text
  import opened Js
  import opened Types
  import opened Seqs
  import opened JsArrays
  import Constants

  // ------------------------------------------------------------ categories

  /** The four option lists the form offers, by category. */
  datatype FilterOptions = FilterOptions(
    jobTypes: seq<FeatureItem>,
    items: seq<FeatureItem>,
    conditions: seq<FeatureItem>,
    employmentTypes: seq<FeatureItem>)

  /** The catalog features whose parent is `parent`, in catalog order. */
  function OfParent(catalog: seq<FeatureItem>, parent: int): seq<FeatureItem>
  {
    Filter(catalog, (f: FeatureItem) => f.parentId == Some(parent))
  }

  /**
    `filterOptions`: with no catalog (still loading) or an empty one every list is
    empty; otherwise each category holds the features with parent 1, 2, 3 or 4.
  */
  function FilterOptionsOf(data: Option<seq<FeatureItem>>): FilterOptions
  {
    if data.None? || |data.value| == 0 then FilterOptions([], [], [], [])
    else
      FilterOptions(OfParent(data.value, 1), OfParent(data.value, 2),
                    OfParent(data.value, 3), OfParent(data.value, 4))
  }

  /** `Object.entries(filterOptions)`: the categories under their keys, in declaration order. */
  function CategoryEntries(o: FilterOptions): (r: seq<(string, seq<FeatureItem>)>)
  {
    [("jobTypes", o.jobTypes), ("items", o.items), ("conditions", o.conditions),
     ("employmentTypes", o.employmentTypes)]
  }

  /** A feature lands in the category of its parent, exactly; no other feature does. */
  lemma OfParentMembership(catalog: seq<FeatureItem>, parent: int, f: FeatureItem)
    ensures f in OfParent(catalog, parent) <==> f in catalog && f.parentId == Some(parent)
    ensures IsSubsequence(OfParent(catalog, parent), catalog)
  {
    FilterMembership(catalog, (g: FeatureItem) => g.parentId == Some(parent), f);
    FilterIsSubsequence(catalog, (g: FeatureItem) => g.parentId == Some(parent));
  }

  /**
    The categories partition the features with parent 1 to 4 by parent, each in
    catalog order; without a catalog all four are empty.
  */
  lemma FilterOptionsPartition(data: Option<seq<FeatureItem>>, f: FeatureItem)
    ensures data.None? ==> FilterOptionsOf(data) == FilterOptions([], [], [], [])
    ensures data.Some? ==>
      (f in FilterOptionsOf(data).jobTypes <==> f in data.value && f.parentId == Some(1))
      && (f in FilterOptionsOf(data).items <==> f in data.value && f.parentId == Some(2))
      && (f in FilterOptionsOf(data).conditions <==> f in data.value && f.parentId == Some(3))
      && (f in FilterOptionsOf(data).employmentTypes <==> f in data.value && f.parentId == Some(4))
    ensures data.Some? ==>
      IsSubsequence(FilterOptionsOf(data).jobTypes, data.value)
      && IsSubsequence(FilterOptionsOf(data).items, data.value)
      && IsSubsequence(FilterOptionsOf(data).conditions, data.value)
      && IsSubsequence(FilterOptionsOf(data).employmentTypes, data.value)
  {
    if data.Some? && |data.value| > 0 {
      OfParentMembership(data.value, 1, f);
      OfParentMembership(data.value, 2, f);
      OfParentMembership(data.value, 3, f);
      OfParentMembership(data.value, 4, f);
    }
  }

  /** The form's category keys are the keys of the `JobFilterOptions` table, in the same order. */
  lemma CategoryKeysAreFilterGroups(o: FilterOptions)
    ensures |CategoryEntries(o)| == |Constants.JobFilterOptions|
    ensures forall i | 0 <= i < |CategoryEntries(o)| :: CategoryEntries(o)[i].0 == Constants.JobFilterOptions[i].key
  {
  }

  // -------------------------------------------------- initial selection

  /** `features.includes(id.toString())` kept as numeric ids: the preselected options of a category. */
  function SelectedIds(options: seq<FeatureItem>, features: seq<string>): seq<Number>
  {
    var chosen := Filter(options, (f: FeatureItem) => IntToString(f.id) in features);
    seq(|chosen|, i requires 0 <= i < |chosen| => Int(chosen[i].id))
  }

  /** An id is preselected exactly when some option of the category has it and its text is among the features. */
  lemma SelectedIdsMembership(options: seq<FeatureItem>, features: seq<string>, id: int)
    ensures Int(id) in SelectedIds(options, features) <==>
      exists f | f in options :: f.id == id && IntToString(id) in features
  {
    var p := (f: FeatureItem) => IntToString(f.id) in features;
    var chosen := Filter(options, p);
    var r := SelectedIds(options, features);
    if Int(id) in r {
      var i :| 0 <= i < |r| && r[i] == Int(id);
      FilterMembership(options, p, chosen[i]);
    }
    if exists f | f in options :: f.id == id && IntToString(id) in features {
      var f :| f in options && f.id == id && IntToString(id) in features;
      FilterMembership(options, p, f);
      var i :| 0 <= i < |chosen| && chosen[i] == f;
      assert r[i] == Int(id);
    }
  }

  /** `[...prefectures].map(Number)`. */
  function ToNumbers(xs: seq<string>): (r: seq<Number>)
    ensures |r| == |xs|
  {
    seq(|xs|, i requires 0 <= i < |xs| => ToNumber(xs[i]))
  }

  /** `map.city.find(i => prefectures.includes(i.id.toString()))` finds a city. */
  predicate RegionPreselected(m: MapInfo, prefectures: seq<string>)
  {
    Find(m.cities, (c: City) => IntToString(c.id) in prefectures).Some?
  }

  /** The position of the first of `regions` holding a preselected city. */
  function FirstRegionWith(regions: seq<MapInfo>, prefectures: seq<string>): Option<nat>
  {
    FirstIndex(regions, (m: MapInfo) => RegionPreselected(m, prefectures))
  }

  /** The first of `regions` holding a preselected city: the area the form opens on. */
  function FirstRegion(regions: seq<MapInfo>, prefectures: seq<string>): Option<MapInfo>
  {
    match FirstRegionWith(regions, prefectures)
    case None => None
    case Some(i) => Some(regions[i])
  }

  /**
    A region is picked exactly when one of its cities is preselected; it is the
    first such region and every region before it has no preselected city.
  */
  lemma FirstRegionSpec(regions: seq<MapInfo>, prefectures: seq<string>)
    ensures FirstRegion(regions, prefectures).None? <==>
      forall i, k | 0 <= i < |regions| && 0 <= k < |regions[i].cities| ::
        IntToString(regions[i].cities[k].id) !in prefectures
    ensures FirstRegion(regions, prefectures).Some? ==>
      var i := FirstRegionWith(regions, prefectures).value;
      i < |regions| && FirstRegion(regions, prefectures).value == regions[i]
      && (exists k | 0 <= k < |regions[i].cities| :: IntToString(regions[i].cities[k].id) in prefectures)
      && forall j, k | 0 <= j < i && 0 <= k < |regions[j].cities| ::
        IntToString(regions[j].cities[k].id) !in prefectures
  {
    var r := FirstRegionWith(regions, prefectures);
    if r.Some? {
      assert RegionPreselected(regions[r.value], prefectures);
    }
  }

  lemma FirstRegionAt(regions: seq<MapInfo>, prefectures: seq<string>, i: nat)
    requires i < |regions| && RegionPreselected(regions[i], prefectures)
    requires forall j | 0 <= j < i :: !RegionPreselected(regions[j], prefectures)
    ensures FirstRegion(regions, prefectures) == Some(regions[i])
  {
    FirstIndexAt(regions, (m: MapInfo) => RegionPreselected(m, prefectures), i);
  }

  lemma FirstRegionNone(regions: seq<MapInfo>, prefectures: seq<string>)
    requires forall j | 0 <= j < |regions| :: !RegionPreselected(regions[j], prefectures)
    ensures FirstRegion(regions, prefectures).None?
  {
  }

  /**
    The `forEach` over `Object.entries(filterOptions)` of the mount effect: a new
    array of preselected ids under each of the four keys (the four steps written out).
  */
  method SeedCategories(o: FilterOptions, features: seq<string>) returns (temp: map<string, JsArray<Number>>)
    ensures temp.Keys == {"jobTypes", "items", "conditions", "employmentTypes"}
    ensures temp["jobTypes"].items == SelectedIds(o.jobTypes, features)
    ensures temp["items"].items == SelectedIds(o.items, features)
    ensures temp["conditions"].items == SelectedIds(o.conditions, features)
    ensures temp["employmentTypes"].items == SelectedIds(o.employmentTypes, features)
    ensures forall k | k in temp :: fresh(temp[k])
    ensures forall k1, k2 | k1 in temp && k2 in temp && temp[k1] == temp[k2] :: k1 == k2
  {
    var jobTypes := new JsArray(SelectedIds(o.jobTypes, features));
    var items := new JsArray(SelectedIds(o.items, features));
    var conditions := new JsArray(SelectedIds(o.conditions, features));
    var employmentTypes := new JsArray(SelectedIds(o.employmentTypes, features));
    temp := map["jobTypes" := jobTypes, "items" := items, "conditions" := conditions,
                "employmentTypes" := employmentTypes];
  }

  /** The search of the `for (const map of MapData)` loop, up to its `break`. */
  method FindRegion(regions: seq<MapInfo>, prefectures: seq<string>) returns (found: Option<MapInfo>)
    ensures found == FirstRegion(regions, prefectures)
  {
    var i := 0;
    while i < |regions|
      invariant 0 <= i <= |regions|
      invariant forall j | 0 <= j < i :: !RegionPreselected(regions[j], prefectures)
    {
      if RegionPreselected(regions[i], prefectures) {
        FirstRegionAt(regions, prefectures, i);
        return Some(regions[i]);
      }
      i := i + 1;
    }
    FirstRegionNone(regions, prefectures);
    return None;
  }

  // ------------------------------------------------------------- the form

  class FilterForm {
    /** The id of the map region shown, '' before any is chosen. */
    var area: string
    /** The cities listed for selection: those of the chosen region. */
    var cityList: seq<City>
    /** Selected ids per key: 'prefectures' and the four category keys, each its own array. */
    var selectedOptions: map<string, JsArray<Number>>
    var searchTerm: string

    /** Every key holds an array of its own, so toggling under one key changes no other. */
    predicate Valid()
      reads this
    {
      forall k1, k2 | k1 in selectedOptions && k2 in selectedOptions && selectedOptions[k1] == selectedOptions[k2] ::
        k1 == k2
    }

    function Arrays(): set<JsArray<Number>>
      reads this
    {
      set k | k in selectedOptions :: selectedOptions[k]
    }

    /** The selection as plain lists, as `onSubmit` receives it. */
    function Snapshot(): map<string, seq<Number>>
      reads this, Arrays()
    {
      map k | k in selectedOptions :: selectedOptions[k].items
    }

    /** The `useState` defaults. */
    constructor()
      ensures area == "" && cityList == [] && selectedOptions == map[] && searchTerm == ""
      ensures Valid()
    {
      area := "";
      cityList := [];
      selectedOptions := map[];
      searchTerm := "";
    }

    /**
      The selection the mount effect builds: 'prefectures' holds the preselected
      strings as numbers and each category key the ids of its options whose text is
      among `features`.
    */
    predicate SeededFrom(catalog: Option<seq<FeatureItem>>, features: seq<string>, prefectures: seq<string>)
      reads this, Arrays()
    {
      selectedOptions.Keys == {"prefectures", "jobTypes", "items", "conditions", "employmentTypes"}
      && selectedOptions["prefectures"].items == ToNumbers(prefectures)
      && selectedOptions["jobTypes"].items == SelectedIds(FilterOptionsOf(catalog).jobTypes, features)
      && selectedOptions["items"].items == SelectedIds(FilterOptionsOf(catalog).items, features)
      && selectedOptions["conditions"].items == SelectedIds(FilterOptionsOf(catalog).conditions, features)
      && selectedOptions["employmentTypes"].items == SelectedIds(FilterOptionsOf(catalog).employmentTypes, features)
    }

    /**
      The mount effect: the first region holding a preselected prefecture becomes
      the area, the selection is seeded from the page's search, and the search term
      is taken over. `catalog` is the feature data at mount time.
    */
    method OnMount(catalog: Option<seq<FeatureItem>>, features: seq<string>, prefectures: seq<string>,
                   searchText: string)
      modifies this
      ensures FirstRegion(Constants.MapData, prefectures).Some? ==>
        area == FirstRegion(Constants.MapData, prefectures).value.id
        && cityList == FirstRegion(Constants.MapData, prefectures).value.cities
      ensures FirstRegion(Constants.MapData, prefectures).None? ==> area == old(area) && cityList == old(cityList)
      ensures SeededFrom(catalog, features, prefectures)
      ensures forall k | k in selectedOptions :: fresh(selectedOptions[k])
      ensures Valid()
      ensures searchTerm == searchText
    {
      PickArea(Constants.MapData, prefectures);
      SeedSelection(catalog, features, prefectures, searchText);
    }

    /** The rest of the mount effect: the `temp` record, the new `selectedOptions` and the search term. */
    method SeedSelection(catalog: Option<seq<FeatureItem>>, features: seq<string>, prefectures: seq<string>,
                         searchText: string)
      modifies this
      ensures SeededFrom(catalog, features, prefectures)
      ensures forall k | k in selectedOptions :: fresh(selectedOptions[k])
      ensures Valid()
      ensures searchTerm == searchText
      ensures area == old(area) && cityList == old(cityList)
    {
      var temp := SeedCategories(FilterOptionsOf(catalog), features);
      var prefs := new JsArray(ToNumbers(prefectures));
      // `{ prefectures, ...temp }`: `temp` never holds 'prefectures', so nothing is overridden.
      selectedOptions := temp["prefectures" := prefs];
      searchTerm := searchText;
    }

    /** The `for (const map of MapData)` loop of the mount effect, with its `break`. */
    method PickArea(regions: seq<MapInfo>, prefectures: seq<string>)
      modifies this
      ensures FirstRegion(regions, prefectures).Some? ==>
        area == FirstRegion(regions, prefectures).value.id
        && cityList == FirstRegion(regions, prefectures).value.cities
      ensures FirstRegion(regions, prefectures).None? ==> area == old(area) && cityList == old(cityList)
      ensures selectedOptions == old(selectedOptions) && searchTerm == old(searchTerm)
    {
      var found := FindRegion(regions, prefectures);
      ShowArea(found);
    }

    /** The `setArea` and `setCityList` calls for the region found, if any. */
    method ShowArea(found: Option<MapInfo>)
      modifies this
      ensures found.Some? ==> area == found.value.id && cityList == found.value.cities
      ensures found.None? ==> area == old(area) && cityList == old(cityList)
      ensures selectedOptions == old(selectedOptions) && searchTerm == old(searchTerm)
    {
      if found.Some? {
        area := found.value.id;
        cityList := found.value.cities;
      }
    }

    /** `onClickArea(map)`: show that region and its cities; the selection is untouched. */
    method OnClickArea(m: MapInfo)
      modifies this
      ensures area == m.id && cityList == m.cities
      ensures selectedOptions == old(selectedOptions) && searchTerm == old(searchTerm)
    {
      area := m.id;
      cityList := m.cities;
    }

    /** Typing in the search input: only the search term changes. */
    method OnChangeSearchText(text: string)
      modifies this
      ensures searchTerm == text
      ensures area == old(area) && cityList == old(cityList) && selectedOptions == old(selectedOptions)
    {
      searchTerm := text;
    }

    /**
      `onClickOptions(key, id)`: the id is appended when absent and its first
      occurrence removed when present, in the key's own array; a missing key gets
      a new array. No other key's array changes.
    */
    method OnClickOptions(key: string, id: int)
      requires Valid()
      modifies this, Arrays()
      ensures Valid()
      ensures key in selectedOptions
      ensures selectedOptions[key].items ==
        Toggle(if key in old(selectedOptions) then old(selectedOptions[key].items) else [], Int(id))
      ensures key in old(selectedOptions) ==> selectedOptions == old(selectedOptions)
      ensures key !in old(selectedOptions) ==>
        fresh(selectedOptions[key]) && selectedOptions == old(selectedOptions)[key := selectedOptions[key]]
      ensures forall k | k in old(selectedOptions) && k != key ::
        k in selectedOptions && selectedOptions[k].items == old(selectedOptions[k].items)
      ensures area == old(area) && cityList == old(cityList) && searchTerm == old(searchTerm)
    {
      var keyObj: JsArray<Number>;
      if key in selectedOptions {
        keyObj := selectedOptions[key];
      } else {
        keyObj := new JsArray([]);
      }
      var index := IndexOf(keyObj.items, Int(id));
      if index < 0 {
        keyObj.Push(Int(id));
      } else {
        keyObj.SpliceOne(index);
      }
      selectedOptions := selectedOptions[key := keyObj];
    }

    /** The search button: `onSubmit(selectedOptions, searchTerm)` with the state as it is. */
    method Submit() returns (value: map<string, seq<Number>>, text: string)
      ensures value.Keys == selectedOptions.Keys
      ensures forall k | k in selectedOptions :: value[k] == selectedOptions[k].items
      ensures text == searchTerm
    {
      value := Snapshot();
      text := searchTerm;
    }
  }
}
