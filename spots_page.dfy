/**
 * The observing-spots page (app/spots/page.tsx): the spot lists flattened
 * from the regions of the bundled data, the region and text filters, and
 * the page's tab, region and spot selection.  The data file is a
 * parameter; the regions of each tab are its object entries in order.
 */
module SpotsPage {
  import opened Js
  import opened Text

  /** A spot, with the fields the page and the navigation buttons read (types/spots.ts). */
  datatype Spot = Spot(
    id: string,
    name: string,
    nameEn: string,
    latitude: real,
    longitude: real,
    features: seq<string>,
    province: Option<string>,
    city: Option<string>,
    address: Option<string>,
    fullAddress: Option<string>,
    country: Option<string>,
    region: Option<string>)

  datatype Region = Region(key: string, regionName: string, spots: seq<Spot>)

  /** The bundled data: the domestic and the world regions, each in object order. */
  datatype SpotsData = SpotsData(southKorea: seq<Region>, world: seq<Region>)

  datatype Tab = Domestic | World

  // ------------------------------------------------------------ flattening

  /** `Object.values(regions).flatMap(r => r.spots)`. */
  function Flatten(regions: seq<Region>): seq<Spot>
  {
    if |regions| == 0 then [] else regions[0].spots + Flatten(regions[1..])
  }

  /** A spot is in the flattened list exactly when some region lists it. */
  lemma {:induction false} FlattenMembers(regions: seq<Region>, s: Spot)
    ensures s in Flatten(regions) <==> exists i :: 0 <= i < |regions| && s in regions[i].spots
  {
    if |regions| > 0 {
      FlattenMembers(regions[1..], s);
      if s in Flatten(regions[1..]) {
        var i :| 0 <= i < |regions[1..]| && s in regions[1..][i].spots;
        assert s in regions[i + 1].spots;
      }
      if exists i :: 0 <= i < |regions| && s in regions[i].spots {
        var i :| 0 <= i < |regions| && s in regions[i].spots;
        if i > 0 {
          assert s in regions[1..][i - 1].spots;
        }
      }
    }
  }

  /** The flattened list is as long as all the regions' lists together. */
  lemma {:induction false} FlattenLength(regions: seq<Region>, k: nat)
    requires k <= |regions|
    ensures |Flatten(regions)| == |Flatten(regions[..k])| + |Flatten(regions[k..])|
  {
    if k > 0 {
      FlattenLength(regions[1..], k - 1);
      assert regions[..k][1..] == regions[1..][..k - 1];
      assert regions[k..] == regions[1..][k - 1..];
    }
  }

  /** `Object.entries(regions).map(([key, value]) => ({ key, name: value.region_name }))`. */
  function RegionList(regions: seq<Region>): (list: seq<(string, string)>)
    ensures |list| == |regions|
    ensures forall i :: 0 <= i < |regions| ==> list[i] == (regions[i].key, regions[i].regionName)
  {
    seq(|regions|, i requires 0 <= i < |regions| => (regions[i].key, regions[i].regionName))
  }

  function TabRegions(data: SpotsData, tab: Tab): seq<Region>
  {
    if tab == Domestic then data.southKorea else data.world
  }

  // ------------------------------------------------------------- filtering

  /** `regions[key]`: the region under that key, if any. */
  function FindRegion(regions: seq<Region>, key: string): (r: Option<Region>)
    ensures r.Some? <==> exists i :: 0 <= i < |regions| && regions[i].key == key
    ensures r.Some? ==> r.value in regions && r.value.key == key
  {
    var i := FindIndex(regions, (g: Region) => g.key == key);
    if i < 0 then None else Some(regions[i])
  }

  /** `field && field.toLowerCase().includes(query)`: an absent or empty field never matches. */
  predicate FieldMatches(field: Option<string>, query: string)
  {
    field.Some? && field.value != "" && Contains(ToLower(field.value), query)
  }

  /**
   * The search predicate for a lower-cased query: the name, the English
   * name, the full address, province, city, country or region, or any
   * feature contains it.  The street address and district are not searched.
   */
  predicate Matches(s: Spot, query: string)
  {
    Contains(ToLower(s.name), query) || Contains(ToLower(s.nameEn), query)
    || FieldMatches(s.fullAddress, query) || FieldMatches(s.province, query) || FieldMatches(s.city, query)
    || FieldMatches(s.country, query) || FieldMatches(s.region, query)
    || exists k :: 0 <= k < |s.features| && Contains(ToLower(s.features[k]), query)
  }

  /** The list the search starts from: the selected region's spots when that key exists, else the whole tab. */
  function BaseList(data: SpotsData, tab: Tab, selectedRegion: Option<string>): (base: seq<Spot>)
    ensures selectedRegion.None? ==> base == Flatten(TabRegions(data, tab))
    ensures selectedRegion.Some? && FindRegion(TabRegions(data, tab), selectedRegion.value).None? ==>
      base == Flatten(TabRegions(data, tab))
    ensures selectedRegion.Some? && FindRegion(TabRegions(data, tab), selectedRegion.value).Some? ==>
      base == FindRegion(TabRegions(data, tab), selectedRegion.value).value.spots
  {
    var all := Flatten(TabRegions(data, tab));
    if selectedRegion.None? then all
    else
      var r := FindRegion(TabRegions(data, tab), selectedRegion.value);
      if r.Some? then r.value.spots else all
  }

  /** `xs` keeps its order inside `ys`, possibly with gaps. */
  predicate IsSubsequence<T(==)>(xs: seq<T>, ys: seq<T>)
    decreases |ys|
  {
    |xs| == 0 || (|ys| > 0 && ((xs[0] == ys[0] && IsSubsequence(xs[1..], ys[1..])) || IsSubsequence(xs, ys[1..])))
  }

  lemma {:induction false} SubsequenceOfLonger<T>(xs: seq<T>, ys: seq<T>, y: T)
    requires IsSubsequence(xs, ys)
    ensures IsSubsequence(xs, ys + [y])
    decreases |ys|
  {
    if |xs| > 0 {
      assert (ys + [y])[1..] == ys[1..] + [y];
      if xs[0] == ys[0] && IsSubsequence(xs[1..], ys[1..]) {
        SubsequenceOfLonger(xs[1..], ys[1..], y);
      } else {
        SubsequenceOfLonger(xs, ys[1..], y);
      }
    }
  }

  lemma {:induction false} SubsequenceAppend<T>(xs: seq<T>, ys: seq<T>, y: T)
    requires IsSubsequence(xs, ys)
    ensures IsSubsequence(xs + [y], ys + [y])
    decreases |ys|
  {
    if |xs| == 0 {
      if |ys| > 0 {
        SubsequenceAppend(xs, ys[1..], y);
        assert (ys + [y])[1..] == ys[1..] + [y];
      } else {
        assert IsSubsequence([y][1..], ([] + [y])[1..]);
      }
    } else {
      assert (xs + [y])[0] == xs[0] && (xs + [y])[1..] == xs[1..] + [y];
      assert (ys + [y])[1..] == ys[1..] + [y];
      if xs[0] == ys[0] && IsSubsequence(xs[1..], ys[1..]) {
        SubsequenceAppend(xs[1..], ys[1..], y);
      } else {
        SubsequenceAppend(xs, ys[1..], y);
      }
    }
  }

  /** `filter` keeps the surviving elements in their order. */
  lemma {:induction false} FilterIsSubsequence<T>(xs: seq<T>, p: T -> bool)
    ensures IsSubsequence(Filter(xs, p), xs)
  {
    if |xs| > 0 {
      var front := xs[..|xs| - 1];
      FilterIsSubsequence(front, p);
      assert xs == front + [xs[|xs| - 1]];
      if p(xs[|xs| - 1]) {
        SubsequenceAppend(Filter(front, p), front, xs[|xs| - 1]);
      } else {
        assert Filter(xs, p) == Filter(front, p);
        SubsequenceOfLonger(Filter(front, p), front, xs[|xs| - 1]);
      }
    }
  }

  /**
   * `filteredSpots`: the region filter, then, when the trimmed query is
   * non-empty, the spots matching the lower-cased (untrimmed) query, in
   * their order.
   */
  function FilteredSpots(data: SpotsData, tab: Tab, selectedRegion: Option<string>, searchQuery: string): (r: seq<Spot>)
    ensures var base := BaseList(data, tab, selectedRegion);
      (Trim(searchQuery) == "" ==> r == base)
      && (Trim(searchQuery) != "" ==>
            IsSubsequence(r, base)
            && (forall k :: 0 <= k < |r| ==> r[k] in base && Matches(r[k], ToLower(searchQuery)))
            && (forall k :: 0 <= k < |base| && Matches(base[k], ToLower(searchQuery)) ==> base[k] in r)
            && (forall x :: multiset(r)[x] == if Matches(x, ToLower(searchQuery)) then multiset(base)[x] else 0))
  {
    var base := BaseList(data, tab, selectedRegion);
    if Trim(searchQuery) == "" then base
    else
      var query := ToLower(searchQuery);
      var p := (s: Spot) => Matches(s, query);
      FilterMembers(base, p);
      FilterMultiset(base, p);
      FilterIsSubsequence(base, p);
      Filter(base, p)
  }

  /** A spot found by id in a list: the first one with that id. */
  function FindById(spots: seq<Spot>, id: string): (r: Option<Spot>)
    ensures r.Some? <==> exists k :: 0 <= k < |spots| && spots[k].id == id
    ensures r.Some? ==> r.value in spots && r.value.id == id
  {
    var k := FindIndex(spots, (s: Spot) => s.id == id);
    if k < 0 then None else Some(spots[k])
  }

  // ---------------------------------------------------------------- state

  /** The page's React state; the data file is fixed for its lifetime. */
  class SpotsPageState {
    const data: SpotsData
    var activeTab: Tab
    var searchQuery: string
    var selectedRegion: Option<string>
    var selectedSpot: Option<Spot>

    /** The page opens on the domestic tab with nothing searched or selected. */
    constructor(data: SpotsData)
      ensures this.data == data && activeTab == Domestic && searchQuery == ""
      ensures selectedRegion.None? && selectedSpot.None?
    {
      this.data := data;
      activeTab := Domestic;
      searchQuery := "";
      selectedRegion := None;
      selectedSpot := None;
    }

    function Filtered(): seq<Spot>
      reads this
    {
      FilteredSpots(data, activeTab, selectedRegion, searchQuery)
    }

    /** `handleTabChange`: the new tab, with the region and the spot cleared and the query kept. */
    method HandleTabChange(tab: Tab)
      modifies this
      ensures activeTab == tab && selectedRegion.None? && selectedSpot.None?
      ensures searchQuery == old(searchQuery)
    {
      activeTab := tab;
      selectedRegion := None;
      selectedSpot := None;
    }

    /** Typing in the search box. */
    method SetSearchQuery(q: string)
      modifies this
      ensures searchQuery == q
      ensures activeTab == old(activeTab) && selectedRegion == old(selectedRegion) && selectedSpot == old(selectedSpot)
    {
      searchQuery := q;
    }

    /** The "all" chip (`None`) or a region chip. */
    method SetSelectedRegion(key: Option<string>)
      modifies this
      ensures selectedRegion == key
      ensures activeTab == old(activeTab) && searchQuery == old(searchQuery) && selectedSpot == old(selectedSpot)
    {
      selectedRegion := key;
    }

    /** `handleSpotClick`: a card in the list selects its spot. */
    method HandleSpotClick(spot: Spot)
      modifies this
      ensures selectedSpot == Some(spot)
      ensures activeTab == old(activeTab) && searchQuery == old(searchQuery) && selectedRegion == old(selectedRegion)
    {
      selectedSpot := Some(spot);
    }

    /**
     * `handleMapSpotSelect`: a marker selects the first spot of the
     * filtered list with its id; an id not in that list changes nothing.
     */
    method HandleMapSpotSelect(spotId: string)
      modifies this
      ensures var found := FindById(old(Filtered()), spotId);
        (found.Some? ==> selectedSpot == found) && (found.None? ==> selectedSpot == old(selectedSpot))
      ensures activeTab == old(activeTab) && searchQuery == old(searchQuery) && selectedRegion == old(selectedRegion)
      ensures selectedSpot != old(selectedSpot) ==> selectedSpot.value in Filtered() && selectedSpot.value.id == spotId
    {
      var spot := FindById(Filtered(), spotId);
      if spot.Some? {
        selectedSpot := spot;
      }
    }
  }
}
