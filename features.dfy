/**
  The feature picker of `src/components/pages/jobs/Features.tsx`. A job's
  features are kept as keys `"<section>-<id>"`: the sections are the type-1
  features of the catalog, a section with type-2 children (regions) offers a
  region/prefecture pair of selects, any other section a checkbox group of its
  type-3 children.
*/
module Features {
  import opened Wrappers
  import opened Text
  import opened Js
  import opened Types
  import opened Seqs
  import CheckBoxGroup

  // --------------------------------------------------------------- keys

  /** `key.split('-')[0]`: the section (or region) part of a feature key. */
  function KeyPrefix(key: string): string
  {
    Split(key, '-')[0]
  }

  /** `key.split('-')[1]`, `undefined` (here `None`) when the key has no '-'. */
  function KeySecond(key: string): Option<string>
  {
    var pieces := Split(key, '-');
    if |pieces| > 1 then Some(pieces[1]) else None
  }

  /** The key of feature `id` under section (or region) `owner`: `` `${owner}-${id}` ``. */
  function FeatureKey(owner: int, id: int): string
  {
    IntToString(owner) + "-" + IntToString(id)
  }

  lemma NatStringHasNoDash(n: int)
    requires n >= 0
    ensures '-' !in IntToString(n)
  {
    assert AllDigits(IntToString(n));
  }

  /** A key whose first part has no '-' splits back into that part. */
  lemma KeyPrefixOf(owner: string, rest: string)
    requires '-' !in owner
    ensures KeyPrefix(owner + "-" + rest) == owner
  {
    assert owner + "-" + rest == owner + ['-'] + rest;
    SplitAtSeparator(owner, rest, '-');
  }

  /** For non-negative ids the key splits into exactly the two rendered ids. */
  lemma FeatureKeyPieces(owner: int, id: int)
    requires owner >= 0 && id >= 0
    ensures Split(FeatureKey(owner, id), '-') == [IntToString(owner), IntToString(id)]
    ensures KeyPrefix(FeatureKey(owner, id)) == IntToString(owner)
    ensures KeySecond(FeatureKey(owner, id)) == Some(IntToString(id))
  {
    NatStringHasNoDash(owner);
    NatStringHasNoDash(id);
    assert FeatureKey(owner, id) == IntToString(owner) + ['-'] + IntToString(id);
    SplitAtSeparator(IntToString(owner), IntToString(id), '-');
    SplitNoSeparator(IntToString(id), '-');
  }

  /** `Number(key.split('-')[1])` recovers the feature id from its key. */
  lemma FeatureKeyDecodes(owner: int, id: int)
    requires owner >= 0 && id >= 0
    ensures |Split(FeatureKey(owner, id), '-')| == 2 && ToNumber(Split(FeatureKey(owner, id), '-')[1]) == Int(id)
    ensures ToNumber(KeyPrefix(FeatureKey(owner, id))) == Int(owner)
  {
    FeatureKeyPieces(owner, id);
    ToNumberOfIntToString(id);
    ToNumberOfIntToString(owner);
  }

  // ----------------------------------------------------------- sections

  /** A section as stored in `sectionObj`: the feature and whether it has regions. */
  datatype Section = Section(item: FeatureItem, hasSubSection: bool)

  /** `data?.data || []`: the catalog, empty while there is none. */
  function CatalogOf(data: Option<seq<FeatureItem>>): seq<FeatureItem>
  {
    if data.None? then [] else data.value
  }

  /** `array.filter(i => i.type === 1)`: the sections, in catalog order. */
  function SectionArray(catalog: seq<FeatureItem>): seq<FeatureItem>
  {
    Filter(catalog, (i: FeatureItem) => i.kind == 1)
  }

  /** `!!array.find(i => i.type === 2 && i.parent_id === id)`. */
  predicate HasSubSection(catalog: seq<FeatureItem>, id: int)
  {
    Find(catalog, (g: FeatureItem) => g.kind == 2 && g.parentId == Some(id)).Some?
  }

  /** A section has sub-sections exactly when some type-2 feature of the catalog has it as parent. */
  lemma HasSubSectionSpec(catalog: seq<FeatureItem>, id: int)
    ensures HasSubSection(catalog, id) <==> exists g | g in catalog :: g.kind == 2 && g.parentId == Some(id)
  {
    var p := (g: FeatureItem) => g.kind == 2 && g.parentId == Some(id);
    if exists g | g in catalog :: p(g) {
      var g :| g in catalog && p(g);
      var i :| 0 <= i < |catalog| && catalog[i] == g;
      assert p(catalog[i]);
    }
  }

  /** The record the `forEach` over `sections` writes, one id at a time, later writes winning. */
  function SectionMap(sections: seq<FeatureItem>, catalog: seq<FeatureItem>): map<int, Section>
    decreases |sections|
  {
    if sections == [] then map[]
    else
      var last := sections[|sections| - 1];
      SectionMap(sections[..|sections| - 1], catalog)[last.id := Section(last, HasSubSection(catalog, last.id))]
  }

  /** An id is a key exactly when some section has it, and it holds the last section with that id. */
  lemma {:induction false} SectionMapKeys(sections: seq<FeatureItem>, catalog: seq<FeatureItem>, id: int)
    ensures id in SectionMap(sections, catalog) <==> exists k | 0 <= k < |sections| :: sections[k].id == id
    ensures id in SectionMap(sections, catalog) ==>
      (exists k | 0 <= k < |sections| ::
        SectionMap(sections, catalog)[id].item == sections[k]
        && forall j | k < j < |sections| :: sections[j].id != id)
      && SectionMap(sections, catalog)[id].item.id == id
      && SectionMap(sections, catalog)[id].hasSubSection == HasSubSection(catalog, id)
    decreases |sections|
  {
    if sections != [] {
      var n := |sections| - 1;
      var init := sections[..n];
      SectionMapKeys(init, catalog, id);
      assert forall k | 0 <= k < n :: init[k] == sections[k];
      if sections[n].id != id && id in SectionMap(init, catalog) {
        var k :| 0 <= k < n && SectionMap(init, catalog)[id].item == init[k]
          && forall j | k < j < n :: init[j].id != id;
        assert SectionMap(sections, catalog)[id].item == sections[k];
      }
    }
  }

  /**
    An id is a key exactly when some section has it; it holds the last section
    with that id, and `hasSubSection` is set exactly when some type-2 feature of
    the catalog has that id as parent.
  */
  lemma SectionMapSpec(sections: seq<FeatureItem>, catalog: seq<FeatureItem>, id: int)
    ensures id in SectionMap(sections, catalog) <==> exists k | 0 <= k < |sections| :: sections[k].id == id
    ensures id in SectionMap(sections, catalog) ==>
      (exists k | 0 <= k < |sections| ::
        SectionMap(sections, catalog)[id].item == sections[k]
        && forall j | k < j < |sections| :: sections[j].id != id)
      && SectionMap(sections, catalog)[id].item.id == id
      && (SectionMap(sections, catalog)[id].hasSubSection <==>
            exists g | g in catalog :: g.kind == 2 && g.parentId == Some(id))
  {
    SectionMapKeys(sections, catalog, id);
    HasSubSectionSpec(catalog, id);
  }

  /**
    Built from a catalog, the record has a key for exactly the ids of the type-1
    features, each holding a type-1 feature with that id.
  */
  lemma SectionsOfCatalog(catalog: seq<FeatureItem>, id: int)
    ensures id in SectionMap(SectionArray(catalog), catalog) <==> exists f | f in catalog :: f.kind == 1 && f.id == id
    ensures id in SectionMap(SectionArray(catalog), catalog) ==>
      var s := SectionMap(SectionArray(catalog), catalog)[id];
      s.item in catalog && s.item.kind == 1 && s.item.id == id
      && (s.hasSubSection <==> exists g | g in catalog :: g.kind == 2 && g.parentId == Some(id))
  {
    var sections := SectionArray(catalog);
    var p := (i: FeatureItem) => i.kind == 1;
    SectionMapSpec(sections, catalog, id);
    if exists f | f in catalog :: f.kind == 1 && f.id == id {
      var f :| f in catalog && f.kind == 1 && f.id == id;
      FilterMembership(catalog, p, f);
    }
    if id in SectionMap(sections, catalog) {
      var k :| 0 <= k < |sections| && sections[k].id == id;
      FilterMembership(catalog, p, sections[k]);
      var item := SectionMap(sections, catalog)[id].item;
      FilterMembership(catalog, p, item);
    }
  }

  // ------------------------------------------------------- region sync

  /** `Number(key.split('-')[0]) > 5`: the key names a region (ids above the five sections). */
  predicate RegionKey(key: string)
  {
    var n := ToNumber(KeyPrefix(key));
    n.Int? && n.v > 5
  }

  /** The position of the last region key in `list`. */
  function LastRegionKey(list: seq<string>): Option<nat>
  {
    LastIndex(list, RegionKey)
  }

  // ---------------------------------------------------- list updates

  /** `Number(key.split('-')[0]) < count`, false when the prefix is not a number. */
  predicate PrefixBelow(key: string, count: int)
  {
    var n := ToNumber(KeyPrefix(key));
    n.Int? && n.v < count
  }

  /**
    The list `onChangeSubSectionItems` hands to `onUpdate`: the keys whose
    numeric prefix is below the number of sections, then the new region key.
  */
  function SubSectionUpdate(list: seq<string>, sectionCount: nat, region: string, value: string): seq<string>
  {
    Filter(list, (k: string) => PrefixBelow(k, sectionCount)) + [region + "-" + value]
  }

  /**
    The new region key comes last; before it are exactly the old keys whose
    prefix is below the section count, in their old order.
  */
  lemma SubSectionUpdateSpec(list: seq<string>, sectionCount: nat, region: string, value: string, x: string)
    ensures var r := SubSectionUpdate(list, sectionCount, region, value);
      |r| >= 1 && r[|r| - 1] == region + "-" + value
      && IsSubsequence(r[..|r| - 1], list)
      && (forall k | 0 <= k < |r| - 1 :: PrefixBelow(r[k], sectionCount))
      && (x in r[..|r| - 1] <==> x in list && PrefixBelow(x, sectionCount))
  {
    var p := (k: string) => PrefixBelow(k, sectionCount);
    var r := SubSectionUpdate(list, sectionCount, region, value);
    assert r[..|r| - 1] == Filter(list, p);
    FilterIsSubsequence(list, p);
    FilterMembership(list, p, x);
  }

  /**
    When the region's id is not below the section count, the region key is the
    only key of the new list whose prefix is not below it: the prefecture slot
    holds one key.
  */
  lemma SinglePrefectureSlot(list: seq<string>, sectionCount: nat, region: int, value: string)
    requires region >= sectionCount
    ensures var r := SubSectionUpdate(list, sectionCount, IntToString(region), value);
      forall k | 0 <= k < |r| :: !PrefixBelow(r[k], sectionCount) <==> k == |r| - 1
  {
    var r := SubSectionUpdate(list, sectionCount, IntToString(region), value);
    NatStringHasNoDash(region);
    KeyPrefixOf(IntToString(region), value);
    ToNumberOfIntToString(region);
    assert !PrefixBelow(r[|r| - 1], sectionCount);
  }

  /** The list `onUpdateSectionItems(items, s)` hands to `onUpdate`: the other sections' keys, then `items`. */
  function SectionUpdate(list: seq<string>, items: seq<string>, sectionId: int): seq<string>
  {
    Filter(list, (k: string) => KeyPrefix(k) != IntToString(sectionId)) + items
  }

  /**
    The old keys of other sections keep their order and come first, then the
    new items; a key of the section survives only if it is among the new items.
  */
  lemma SectionUpdateSpec(list: seq<string>, items: seq<string>, sectionId: int, x: string)
    ensures var r := SectionUpdate(list, items, sectionId);
      |r| >= |items| && r[|r| - |items|..] == items
      && IsSubsequence(r[..|r| - |items|], list)
      && (forall k | 0 <= k < |r| - |items| :: KeyPrefix(r[k]) != IntToString(sectionId))
      && (x in r <==> (x in list && KeyPrefix(x) != IntToString(sectionId)) || x in items)
  {
    var p := (k: string) => KeyPrefix(k) != IntToString(sectionId);
    var r := SectionUpdate(list, items, sectionId);
    var rest := Filter(list, p);
    assert r[..|rest|] == rest && r[|rest|..] == items;
    FilterIsSubsequence(list, p);
    FilterMembership(list, p, x);
  }

  // ------------------------------------------------ options and views

  /** `filter(...).map(j => ({ value: j.id.toString(), option: j.name }))`. */
  function IdOptions(features: seq<FeatureItem>): (r: seq<PickOption>)
    ensures |r| == |features|
  {
    seq(|features|, i requires 0 <= i < |features| => PickOption(IntToString(features[i].id), features[i].name))
  }

  /** The region select of a section with sub-sections: its type-2 children. */
  function RegionOptions(catalog: seq<FeatureItem>, s: FeatureItem): seq<PickOption>
  {
    IdOptions(Filter(catalog, (i: FeatureItem) => i.parentId == Some(s.id) && i.kind == 2))
  }

  /** The prefecture select: the type-3 features whose parent is `Number(region)`. */
  function PrefectureOptions(catalog: seq<FeatureItem>, region: string): seq<PickOption>
  {
    IdOptions(Filter(catalog, (i: FeatureItem) => i.parentId.Some? && Int(i.parentId.value) == ToNumber(region) && i.kind == 3))
  }

  /** The checkbox options of a section: its type-3 children, valued by their feature keys. */
  function SectionItemOptions(catalog: seq<FeatureItem>, s: FeatureItem): (r: seq<PickOption>)
  {
    var children := Filter(catalog, (i: FeatureItem) => i.parentId == Some(s.id) && i.kind == 3);
    seq(|children|, i requires 0 <= i < |children| => PickOption(FeatureKey(s.id, children[i].id), children[i].name))
  }

  /** `selectedList.filter(i => i.split('-')[0] === s.id.toString())`: the section's checked keys. */
  function Selects(list: seq<string>, s: FeatureItem): seq<string>
  {
    Filter(list, (k: string) => KeyPrefix(k) == IntToString(s.id))
  }

  /** An option of `IdOptions` is exactly a rendered feature of the list. */
  lemma IdOptionsMembership(features: seq<FeatureItem>, o: PickOption)
    ensures o in IdOptions(features) <==>
      exists j | j in features :: o == PickOption(IntToString(j.id), j.name)
  {
    var r := IdOptions(features);
    if exists j | j in features :: o == PickOption(IntToString(j.id), j.name) {
      var j :| j in features && o == PickOption(IntToString(j.id), j.name);
      var i :| 0 <= i < |features| && features[i] == j;
      assert r[i] == o;
    }
  }

  /** The region options are the section's type-2 children, and no other feature. */
  lemma RegionOptionsSpec(catalog: seq<FeatureItem>, s: FeatureItem, o: PickOption)
    ensures o in RegionOptions(catalog, s) <==>
      exists j | j in catalog :: j.parentId == Some(s.id) && j.kind == 2 && o == PickOption(IntToString(j.id), j.name)
  {
    var p := (i: FeatureItem) => i.parentId == Some(s.id) && i.kind == 2;
    var children := Filter(catalog, p);
    IdOptionsMembership(children, o);
    if o in RegionOptions(catalog, s) {
      var j :| j in children && o == PickOption(IntToString(j.id), j.name);
      FilterMembership(catalog, p, j);
    }
    if exists j | j in catalog :: p(j) && o == PickOption(IntToString(j.id), j.name) {
      var j :| j in catalog && p(j) && o == PickOption(IntToString(j.id), j.name);
      FilterMembership(catalog, p, j);
    }
  }

  /** With region `String(r)` chosen, the prefecture options are the type-3 children of `r`. */
  lemma PrefectureOptionsSpec(catalog: seq<FeatureItem>, region: int, o: PickOption)
    ensures o in PrefectureOptions(catalog, IntToString(region)) <==>
      exists j | j in catalog :: j.parentId == Some(region) && j.kind == 3 && o == PickOption(IntToString(j.id), j.name)
  {
    ToNumberOfIntToString(region);
    var p := (i: FeatureItem) => i.parentId.Some? && Int(i.parentId.value) == ToNumber(IntToString(region)) && i.kind == 3;
    var children := Filter(catalog, p);
    IdOptionsMembership(children, o);
    if o in PrefectureOptions(catalog, IntToString(region)) {
      var j :| j in children && o == PickOption(IntToString(j.id), j.name);
      FilterMembership(catalog, p, j);
    }
    if exists j | j in catalog :: j.parentId == Some(region) && j.kind == 3 && o == PickOption(IntToString(j.id), j.name) {
      var j :| j in catalog && j.parentId == Some(region) && j.kind == 3 && o == PickOption(IntToString(j.id), j.name);
      FilterMembership(catalog, p, j);
    }
  }

  /**
    Every checkbox option is the key of a type-3 child of the section, and with
    non-negative ids a box is checked exactly when its key is in the list.
  */
  lemma SectionItemOptionsSpec(catalog: seq<FeatureItem>, s: FeatureItem, list: seq<string>, o: PickOption)
    requires s.id >= 0
    requires o in SectionItemOptions(catalog, s)
    ensures exists j | j in catalog :: j.parentId == Some(s.id) && j.kind == 3 && o == PickOption(FeatureKey(s.id, j.id), j.name)
    ensures CheckBoxGroup.Checked(Selects(list, s), o.value) <==> o.value in list
  {
    var p := (i: FeatureItem) => i.parentId == Some(s.id) && i.kind == 3;
    var children := Filter(catalog, p);
    var i :| 0 <= i < |children| && SectionItemOptions(catalog, s)[i] == o;
    FilterMembership(catalog, p, children[i]);
    NatStringHasNoDash(s.id);
    KeyPrefixOf(IntToString(s.id), IntToString(children[i].id));
    FilterMembership(list, (k: string) => KeyPrefix(k) == IntToString(s.id), o.value);
  }

  /**
    Handing the section's new checked keys to `onUpdateSectionItems` makes them
    exactly what the section shows next, and every other section shows what it did.
  */
  lemma SectionUpdateSelects(list: seq<string>, items: seq<string>, s: FeatureItem, t: FeatureItem)
    requires forall k | 0 <= k < |items| :: KeyPrefix(items[k]) == IntToString(s.id)
    ensures Selects(SectionUpdate(list, items, s.id), s) == items
    ensures t.id != s.id ==> Selects(SectionUpdate(list, items, s.id), t) == Selects(list, t)
  {
    var other := (k: string) => KeyPrefix(k) != IntToString(s.id);
    var mine := (k: string) => KeyPrefix(k) == IntToString(s.id);
    var rest := Filter(list, other);
    FilterConcat(rest, items, mine);
    FilterNone(rest, mine);
    FilterAll(items, mine);
    if t.id != s.id {
      var theirs := (k: string) => KeyPrefix(k) == IntToString(t.id);
      IntToStringInjective(s.id, t.id);
      FilterConcat(rest, items, theirs);
      FilterNone(items, theirs);
      FilterFilter(list, other, theirs);
    }
  }

  /** What a section renders: the two selects, or the checkbox group. */
  datatype SectionView =
    | SubFeatures(regions: seq<PickOption>, regionValue: string,
                  prefectures: seq<PickOption>, prefectureValue: Option<string>)
    | SectionItems(options: seq<PickOption>, selects: seq<string>)

  function RenderSection(catalog: seq<FeatureItem>, s: Section, region: string, prefecture: Option<string>,
                         list: seq<string>): SectionView
  {
    if s.hasSubSection then
      SubFeatures(RegionOptions(catalog, s.item), region, PrefectureOptions(catalog, region), prefecture)
    else
      SectionItems(SectionItemOptions(catalog, s.item), Selects(list, s.item))
  }

  /**
    A section with regions shows the selects bound to the current region and
    prefecture; any other section shows its children as boxes, each checked
    exactly when its key is in the list.
  */
  lemma RenderSectionSpec(catalog: seq<FeatureItem>, s: Section, region: string, prefecture: Option<string>,
                          list: seq<string>, o: PickOption)
    requires s.item.id >= 0
    ensures RenderSection(catalog, s, region, prefecture, list).SubFeatures? <==> s.hasSubSection
    ensures s.hasSubSection ==>
      RenderSection(catalog, s, region, prefecture, list).regionValue == region
      && RenderSection(catalog, s, region, prefecture, list).prefectureValue == prefecture
    ensures !s.hasSubSection && o in RenderSection(catalog, s, region, prefecture, list).options ==>
      (CheckBoxGroup.Checked(RenderSection(catalog, s, region, prefecture, list).selects, o.value) <==> o.value in list)
  {
    if !s.hasSubSection && o in SectionItemOptions(catalog, s.item) {
      SectionItemOptionsSpec(catalog, s.item, list, o);
    }
  }

  // -------------------------------------------------------- component

  class JobFeatures {
    /** The chosen region's id as text. */
    var region: string
    /** The chosen prefecture's id as text; `None` stands for `undefined`. */
    var prefecture: Option<string>
    /** `sectionObj`: the sections by id. */
    var sectionObj: map<int, Section>

    /** The `useState` defaults. */
    constructor()
      ensures region == "" && prefecture == Some("") && sectionObj == map[]
    {
      region := "";
      prefecture := Some("");
      sectionObj := map[];
    }

    /**
      The effect on `[isLoading, data]`: nothing while loading; otherwise the
      record of sections, built in one pass over the type-1 features.
    */
    method OnFeaturesLoaded(isLoading: bool, data: Option<seq<FeatureItem>>)
      modifies this
      ensures isLoading ==> sectionObj == old(sectionObj)
      ensures !isLoading ==> sectionObj == SectionMap(SectionArray(CatalogOf(data)), CatalogOf(data))
      ensures region == old(region) && prefecture == old(prefecture)
    {
      if isLoading {
        return;
      }
      var catalog := CatalogOf(data);
      var obj: map<int, Section> := map[];
      var sectionArray := SectionArray(catalog);
      var i := 0;
      while i < |sectionArray|
        invariant 0 <= i <= |sectionArray|
        invariant obj == SectionMap(sectionArray[..i], catalog)
      {
        var item := sectionArray[i];
        var find := Find(catalog, (g: FeatureItem) => g.kind == 2 && g.parentId == Some(item.id));
        assert sectionArray[..i + 1][..i] == sectionArray[..i];
        obj := obj[item.id := Section(item, find.Some?)];
        i := i + 1;
      }
      assert sectionArray[..i] == sectionArray;
      sectionObj := obj;
    }

    /**
      The effect on `selectedList`: every region key sets region and prefecture
      in turn, so the last one wins; without one both stay as they were.
    */
    method SyncRegion(selectedList: seq<string>)
      modifies this
      ensures LastRegionKey(selectedList).Some? ==>
        var k := LastRegionKey(selectedList).value;
        region == KeyPrefix(selectedList[k]) && prefecture == KeySecond(selectedList[k])
      ensures LastRegionKey(selectedList).None? ==> region == old(region) && prefecture == old(prefecture)
      ensures sectionObj == old(sectionObj)
    {
      var i := 0;
      while i < |selectedList|
        invariant 0 <= i <= |selectedList|
        invariant LastRegionKey(selectedList[..i]).Some? ==>
          var k := LastRegionKey(selectedList[..i]).value;
          k < i && region == KeyPrefix(selectedList[k]) && prefecture == KeySecond(selectedList[k])
        invariant LastRegionKey(selectedList[..i]).None? ==> region == old(region) && prefecture == old(prefecture)
        invariant sectionObj == old(sectionObj)
      {
        var key := selectedList[i];
        var pieces := Split(key, '-');
        var r := ToNumber(pieces[0]);
        assert selectedList[..i + 1] == selectedList[..i] + [key];
        LastIndexSnoc(selectedList[..i], key, RegionKey);
        if r.Int? && r.v > 5 {
          region := pieces[0];
          prefecture := if |pieces| > 1 then Some(pieces[1]) else None;
        }
        i := i + 1;
      }
      assert selectedList[..i] == selectedList;
    }

    /** The region select's `onChange`. */
    method OnSelectRegion(value: string)
      modifies this
      ensures region == value
      ensures prefecture == old(prefecture) && sectionObj == old(sectionObj)
    {
      region := value;
    }

    /** `onChangeSubSectionItems`: the list passed to `onUpdate` when a prefecture is picked. */
    method OnChangeSubSectionItems(selectedList: seq<string>, value: string) returns (updated: seq<string>)
      ensures updated == SubSectionUpdate(selectedList, |sectionObj|, region, value)
    {
      var sectionNum := |sectionObj|;
      var rest := Filter(selectedList, (k: string) => PrefixBelow(k, sectionNum));
      updated := rest + [region + "-" + value];
    }
  }
}
