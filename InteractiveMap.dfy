/** The embedded map: which regions are hotspots for the selected disease and
    year, and the `q=` query and zoom level of the map URL built from them. */
module InteractiveMap {
  import opened Collections
  import opened Text
  import opened DashboardContext

  /** Functions the map code calls whose definitions are outside the model:
      `encodeURIComponent` and the conversion of a coordinate to its text. */
  datatype Externals = Externals(encodeURIComponent: string -> string, numberToString: real -> string)

  /** The part of the dashboard context the map reads. */
  datatype MapInputs = MapInputs(
    selectedRegion: Option<string>,
    selectedDisease: Option<Disease>,
    selectedYear: Option<int>,
    anomalyData: Option<RegionDiseaseData<AnomalyDataPoint>>,
    regionMetadata: Option<RegionMetadata>)

  datatype MapTarget = MapTarget(query: string, zoom: nat)

  /** Truthiness of a `number | undefined` year: 0 counts as unset. */
  predicate IsYearSet(year: Option<int>) {
    year.Some? && year.value != 0
  }

  /** Everything the hotspot search needs is present. */
  predicate Ready(inp: MapInputs) {
    inp.anomalyData.Some? && inp.selectedDisease.Some? && IsYearSet(inp.selectedYear) && inp.regionMetadata.Some?
  }

  /** `series.some(entry => entry.date.endsWith(yearStr) && entry.isAnomaly)` */
  predicate HasAnomalyIn(series: seq<AnomalyDataPoint>, yearStr: string): (b: bool)
    ensures b <==> exists e :: e in series && EndsWith(e.date, yearStr) && e.isAnomaly
  {
    exists i | 0 <= i < |series| :: EndsWith(series[i].date, yearStr) && series[i].isAnomaly
  }

  /** The region has a series for the disease with an anomaly in the year, and has metadata. */
  predicate IsHotspot(anomaly: RegionDiseaseData<AnomalyDataPoint>, meta: RegionMetadata,
                      disease: Disease, yearStr: string, name: string): (b: bool)
    ensures b ==> name in Keys(anomaly) && name in Keys(meta)
    ensures b <==>
      && Get(anomaly, name).Some?
      && Get(Get(anomaly, name).value, DiseaseName(disease)).Some?
      && HasAnomalyIn(Get(Get(anomaly, name).value, DiseaseName(disease)).value, yearStr)
      && Get(meta, name).Some?
  {
    match Get(anomaly, name)
    case None => false
    case Some(byDisease) =>
      match Get(byDisease, DiseaseName(disease))
      case None => false
      case Some(series) => HasAnomalyIn(series, yearStr) && Get(meta, name).Some?
  }

  /** The hotspot test for one selection, as a predicate on region names. */
  function HotspotTest(anomaly: RegionDiseaseData<AnomalyDataPoint>, meta: RegionMetadata,
                       disease: Disease, yearStr: string): string -> bool
  {
    name => IsHotspot(anomaly, meta, disease, yearStr, name)
  }

  /** Every region in the list has metadata. */
  predicate Located(regions: seq<string>, meta: RegionMetadata) {
    forall name :: name in regions ==> Get(meta, name).Some?
  }

  /** The hotspot regions, in the order the anomaly data lists its regions. */
  function HotspotRegions(inp: MapInputs): (hot: seq<string>)
    ensures !Ready(inp) ==> hot == []
    ensures forall name :: name in hot <==>
      Ready(inp) && IsHotspot(inp.anomalyData.value, inp.regionMetadata.value, inp.selectedDisease.value,
                              IntToDecimal(inp.selectedYear.value), name)
    ensures Ready(inp) ==> Located(hot, inp.regionMetadata.value)
    ensures Ready(inp) ==> IsSubsequence(hot, Keys(inp.anomalyData.value))
    ensures Ready(inp) && Distinct(Keys(inp.anomalyData.value)) ==> Distinct(hot)
  {
    if !Ready(inp) then []
    else
      var anomaly, meta := inp.anomalyData.value, inp.regionMetadata.value;
      var disease, yearStr := inp.selectedDisease.value, IntToDecimal(inp.selectedYear.value);
      var p := HotspotTest(anomaly, meta, disease, yearStr);
      var hot := Filter(Keys(anomaly), p);
      assert forall name :: name in hot ==> p(name);
      if Distinct(Keys(anomaly)) then
        FilterDistinct(Keys(anomaly), p);
        hot
      else hot
  }

  /** The `hotspotRegions` memo: a `for ... in` over the anomaly data pushing each hotspot. */
  method ComputeHotspotRegions(inp: MapInputs) returns (hot: seq<string>)
    ensures hot == HotspotRegions(inp)
  {
    if inp.anomalyData.None? || inp.selectedDisease.None? || !IsYearSet(inp.selectedYear) || inp.regionMetadata.None? {
      return [];
    }
    var anomaly, meta := inp.anomalyData.value, inp.regionMetadata.value;
    var disease, yearStr := inp.selectedDisease.value, IntToDecimal(inp.selectedYear.value);
    ghost var p := HotspotTest(anomaly, meta, disease, yearStr);
    var keys := Keys(anomaly);
    hot := [];
    var i := 0;
    while i < |keys|
      invariant 0 <= i <= |keys|
      invariant hot == Filter(keys[..i], p)
    {
      var regionName := keys[i];
      var pushed := false;
      var byDisease := Get(anomaly, regionName);
      if byDisease.Some? && Get(byDisease.value, DiseaseName(disease)).Some? {
        var hasAnomaly := HasAnomalyIn(Get(byDisease.value, DiseaseName(disease)).value, yearStr);
        if hasAnomaly && Get(meta, regionName).Some? {
          hot := hot + [regionName];
          pushed := true;
        }
      }
      assert pushed == p(regionName);
      FilterPrefix(keys, i, p);
      i := i + 1;
    }
    assert keys[..i] == keys;
  }

  /** `lat,lon(name)`: the query entry that centres a region on the map. */
  function LocationEntry(m: RegionMetadataItem, name: string, fx: Externals): string {
    fx.numberToString(m.latitude) + "," + fx.numberToString(m.longitude) + "(" + fx.encodeURIComponent(name) + ")"
  }

  /** A location entry starts with the coordinates and an opening parenthesis and ends
      with the encoded name in parentheses, so it mentions that name. */
  lemma LocationEntryShape(m: RegionMetadataItem, name: string, fx: Externals)
    ensures var e := LocationEntry(m, name, fx);
      && StartsWith(e, fx.numberToString(m.latitude) + "," + fx.numberToString(m.longitude) + "(")
      && EndsWith(e, "(" + fx.encodeURIComponent(name) + ")")
      && Contains(e, fx.encodeURIComponent(name))
  {
    var coords := fx.numberToString(m.latitude) + "," + fx.numberToString(m.longitude) + "(";
    var tail := "(" + fx.encodeURIComponent(name) + ")";
    var e := LocationEntry(m, name, fx);
    assert e == coords + fx.encodeURIComponent(name) + ")";
    assert e[..|coords|] == coords;
    assert e[|e| - |tail|..] == tail;
    ContainsInfix(coords, fx.encodeURIComponent(name), ")");
  }

  /** The per-hotspot query entries: a location entry, or the bare encoded name
      for a region without metadata. */
  function HotspotQueries(hot: seq<string>, meta: RegionMetadata, fx: Externals): (qs: seq<string>)
    ensures |qs| == |hot|
    ensures Located(hot, meta) ==>
      forall i :: 0 <= i < |hot| ==> qs[i] == LocationEntry(Get(meta, hot[i]).value, hot[i], fx)
  {
    seq(|hot|, i requires 0 <= i < |hot| =>
      match Get(meta, hot[i])
      case Some(m) => LocationEntry(m, hot[i], fx)
      case None => fx.encodeURIComponent(hot[i]))
  }

  /** Each hotspot's entry mentions that hotspot's encoded name. */
  lemma QueriesMentionTheirRegion(hot: seq<string>, meta: RegionMetadata, fx: Externals)
    ensures forall i :: 0 <= i < |hot| ==> Contains(HotspotQueries(hot, meta, fx)[i], fx.encodeURIComponent(hot[i]))
  {
    var qs := HotspotQueries(hot, meta, fx);
    forall i | 0 <= i < |hot| ensures Contains(qs[i], fx.encodeURIComponent(hot[i])) {
      var e := fx.encodeURIComponent(hot[i]);
      match Get(meta, hot[i])
      case Some(m) =>
        ContainsInfix(fx.numberToString(m.latitude) + "," + fx.numberToString(m.longitude) + "(", e, ")");
      case None =>
        ContainsInfix("", e, "");
        assert "" + e + "" == e;
    }
  }

  /** The selected region is one of the hotspots (and is a non-empty string). */
  predicate SelectedAmong(sel: Option<string>, hot: seq<string>) {
    IsSet(sel) && sel.value in hot
  }

  /** The query and zoom the map effect computes once region metadata is present. */
  function MapQuery(hot: seq<string>, sel: Option<string>, meta: RegionMetadata, fx: Externals): (t: MapTarget)
    ensures t.zoom == 2 || t.zoom == 6 || t.zoom == 8
    ensures Located(hot, meta) ==> (t.zoom == 6 <==> |hot| >= 2 && !SelectedAmong(sel, hot))
    ensures t.zoom == 2 <==> hot == [] && !(IsSet(sel) && Get(meta, sel.value).Some?)
    ensures t.zoom == 2 ==> t.query == "0,0"
    ensures hot == [] && IsSet(sel) && Get(meta, sel.value).Some? ==>
      t == MapTarget(LocationEntry(Get(meta, sel.value).value, sel.value, fx), 8)
    ensures Located(hot, meta) && |hot| == 1 && !SelectedAmong(sel, hot) ==>
      t == MapTarget(LocationEntry(Get(meta, hot[0]).value, hot[0], fx), 8)
    ensures Located(hot, meta) && |hot| >= 2 && !SelectedAmong(sel, hot) ==>
      t == MapTarget(Join(HotspotQueries(hot, meta, fx), "|"), 6)
    ensures SelectedAmong(sel, hot) && Get(meta, sel.value).Some? ==>
      t.zoom == 8 && StartsWith(t.query, LocationEntry(Get(meta, sel.value).value, sel.value, fx) + "|")
  {
    if |hot| > 0 then
      var queries := HotspotQueries(hot, meta, fx);
      if SelectedAmong(sel, hot) && Get(meta, sel.value).Some? then
        var name := sel.value;
        var first := LocationEntry(Get(meta, name).value, name, fx) + "|";
        var q := first + Join(WithoutMentions(queries, fx.encodeURIComponent(name)), "|");
        assert q[..|first|] == first;
        MapTarget(q, 8)
      else if |hot| == 1 && Get(meta, hot[0]).Some? then
        MapTarget(LocationEntry(Get(meta, hot[0]).value, hot[0], fx), 8)
      else
        MapTarget(Join(queries, "|"), 6)
    else if IsSet(sel) && Get(meta, sel.value).Some? then
      MapTarget(LocationEntry(Get(meta, sel.value).value, sel.value, fx), 8)
    else
      MapTarget("0,0", 2)
  }

  /** When the selected region is a hotspot its entry comes first, then `|`, then
      the other entries in hotspot order, less every one that contains the
      selected region's encoded name; its own entry is never repeated. */
  lemma SelectedHotspotFirst(hot: seq<string>, sel: Option<string>, meta: RegionMetadata, fx: Externals)
    requires SelectedAmong(sel, hot) && Get(meta, sel.value).Some?
    ensures var entry := LocationEntry(Get(meta, sel.value).value, sel.value, fx);
            var queries := HotspotQueries(hot, meta, fx);
            var needle := fx.encodeURIComponent(sel.value);
            exists rest ::
              && MapQuery(hot, sel, meta, fx).query == entry + "|" + Join(rest, "|")
              && IsSubsequence(rest, queries)
              && (forall q :: q in rest <==> q in queries && !Contains(q, needle))
              && (forall q :: multiset(rest)[q] == if Contains(q, needle) then 0 else multiset(queries)[q])
              && entry !in rest
  {
    var name := sel.value;
    var m := Get(meta, name).value;
    var entry := LocationEntry(m, name, fx);
    var needle := fx.encodeURIComponent(name);
    var queries := HotspotQueries(hot, meta, fx);
    var rest := WithoutMentions(queries, needle);
    WithoutMentionsCounts(queries, needle);
    assert entry !in rest by {
      ContainsInfix(fx.numberToString(m.latitude) + "," + fx.numberToString(m.longitude) + "(", needle, ")");
    }
    assert MapQuery(hot, sel, meta, fx).query == entry + "|" + Join(rest, "|");
  }

  /** The entries that do not mention `needle`, in their order. */
  function WithoutMentions(queries: seq<string>, needle: string): (rest: seq<string>)
    ensures IsSubsequence(rest, queries)
    ensures forall q :: q in rest <==> q in queries && !Contains(q, needle)
  {
    Filter(queries, q => !Contains(q, needle))
  }

  /** Dropping the entries that mention `needle` keeps every other entry as often as it occurs. */
  lemma WithoutMentionsCounts(queries: seq<string>, needle: string)
    ensures forall q :: multiset(WithoutMentions(queries, needle))[q] ==
                        (if Contains(q, needle) then 0 else multiset(queries)[q])
  {
    forall q
      ensures multiset(WithoutMentions(queries, needle))[q] == if Contains(q, needle) then 0 else multiset(queries)[q]
    {
      FilterCounts(queries, q => !Contains(q, needle), q);
    }
  }

  /** When the selected region is the only hotspot, the query is its entry followed by a trailing `|`. */
  lemma SoleSelectedHotspotTrailingBar(name: string, meta: RegionMetadata, fx: Externals)
    requires name != "" && Get(meta, name).Some?
    ensures MapQuery([name], Some(name), meta, fx) == MapTarget(LocationEntry(Get(meta, name).value, name, fx) + "|", 8)
  {
    var m := Get(meta, name).value;
    var entry := LocationEntry(m, name, fx);
    var needle := fx.encodeURIComponent(name);
    ContainsInfix(fx.numberToString(m.latitude) + "," + fx.numberToString(m.longitude) + "(", needle, ")");
    var queries := HotspotQueries([name], meta, fx);
    assert queries == [entry];
    assert WithoutMentions(queries, needle) == [];
    assert entry + "|" + "" == entry + "|";
  }

  /** Entries are dropped by substring: with hotspots `Sylhet` and `SylhetSadar` and
      `Sylhet` selected, the other hotspot vanishes from the query (for an encoder
      that leaves letters as they are, as `encodeURIComponent` does). */
  lemma SubstringDropsOtherHotspot()
    ensures var fx := Externals(s => s, x => "1");
            var m := RegionMetadataItem(1.0, 1.0, "Bangladesh");
            var meta := [("Sylhet", m), ("SylhetSadar", m)];
            MapQuery(["Sylhet", "SylhetSadar"], Some("Sylhet"), meta, fx) == MapTarget("1,1(Sylhet)|", 8)
  {
    var fx := Externals(s => s, x => "1");
    var m := RegionMetadataItem(1.0, 1.0, "Bangladesh");
    var meta := [("Sylhet", m), ("SylhetSadar", m)];
    var hot := ["Sylhet", "SylhetSadar"];
    assert Get(meta, "Sylhet") == Some(m);
    assert Get(meta, "SylhetSadar") == Some(m) by {
      assert meta[1..] == [("SylhetSadar", m)];
    }
    var e1 := LocationEntry(m, "Sylhet", fx);
    var e2 := LocationEntry(m, "SylhetSadar", fx);
    assert e1 == "1,1(Sylhet)";
    var queries := HotspotQueries(hot, meta, fx);
    assert queries == [e1, e2];
    ContainsInfix("1,1(", "Sylhet", ")");
    ContainsInfix("1,1(", "Sylhet", "Sadar)");
    assert e1 == "1,1(" + "Sylhet" + ")";
    assert e2 == "1,1(" + "Sylhet" + "Sadar)";
    assert Contains(e1, "Sylhet") && Contains(e2, "Sylhet");
    assert WithoutMentions(queries, "Sylhet") == [] by {
      assert queries[1..] == [e2];
      assert WithoutMentions([e2], "Sylhet") == [];
    }
    assert MapQuery(hot, Some("Sylhet"), meta, fx).query == e1 + "|" + Join([], "|");
  }

  /** The embed URL for a query and zoom level. */
  function MapUrl(t: MapTarget): string {
    "https://maps.google.com/maps?q=" + t.query + "&hl=en&z=" + NatToDecimal(t.zoom) + "&t=k&output=embed"
  }

  /** The URL carries the query between the `?q=` and `&hl=en&z=` parameters and ends
      with the zoom level's decimal text and the satellite, embedded-output parameters. */
  lemma MapUrlShape(t: MapTarget)
    ensures StartsWith(MapUrl(t), "https://maps.google.com/maps?q=" + t.query + "&hl=en&z=")
    ensures EndsWith(MapUrl(t), NatToDecimal(t.zoom) + "&t=k&output=embed")
  {
    var head := "https://maps.google.com/maps?q=" + t.query + "&hl=en&z=";
    var tail := NatToDecimal(t.zoom) + "&t=k&output=embed";
    assert MapUrl(t) == head + tail;
    assert (head + tail)[..|head|] == head;
    assert (head + tail)[|head + tail| - |tail|..] == tail;
  }

  const InitialMapUrl: string := "https://maps.google.com/maps?q=0,0&hl=en&z=2&t=k&output=embed"

  /** The initial URL is the world view the effect builds when there is nothing to show. */
  lemma InitialUrlIsWorldView()
    ensures InitialMapUrl == MapUrl(MapTarget("0,0", 2))
  {
    var z := NatToDecimal(2);
    assert z == ['2'] by {
      assert DigitChar(2) == '2';
    }
    InitialUrlText(z);
  }

  /** The initial URL, cut where the effect splices in its query and zoom text. This step
      stands on its own so that the long literal is compared with the pieces without the
      definitions of `MapUrl` and `NatToDecimal` in view. */
  lemma InitialUrlText(zoomText: string)
    requires zoomText == ['2']
    ensures InitialMapUrl == "https://maps.google.com/maps?q=" + "0,0" + "&hl=en&z=" + zoomText + "&t=k&output=embed"
  {
  }

  /** Different map targets give different URLs, so the URL pins down query and zoom. */
  lemma {:induction false} MapUrlInjective(s: MapTarget, t: MapTarget)
    requires MapUrl(s) == MapUrl(t)
    requires !Contains(s.query, "&") && !Contains(t.query, "&")
    ensures s == t
  {
    var pre := "https://maps.google.com/maps?q=";
    var rs := "&hl=en&z=" + NatToDecimal(s.zoom) + "&t=k&output=embed";
    var rt := "&hl=en&z=" + NatToDecimal(t.zoom) + "&t=k&output=embed";
    assert MapUrl(s) == pre + s.query + rs;
    assert MapUrl(t) == pre + t.query + rt;
    SplitAtAmpersand(pre, s.query, rs, t.query, rt);
    SameMiddle("&hl=en&z=", NatToDecimal(s.zoom), NatToDecimal(t.zoom), "&t=k&output=embed");
    DecimalInjective(s.zoom, t.zoom);
  }

  /** What lies between the same prefix and the same suffix is determined by the whole. */
  lemma SameMiddle(pre: string, x: string, y: string, post: string)
    requires pre + x + post == pre + y + post
    ensures x == y
  {
    var u := pre + x + post;
    assert x == u[|pre|..|u| - |post|] == y;
  }

  /** Two splittings of one string whose middle parts hold no `&` and whose last parts
      start with `&` are the same splitting. */
  lemma SplitAtAmpersand(pre: string, a: string, ra: string, b: string, rb: string)
    requires pre + a + ra == pre + b + rb
    requires |ra| > 0 && ra[0] == '&' && |rb| > 0 && rb[0] == '&'
    requires !Contains(a, "&") && !Contains(b, "&")
    ensures a == b && ra == rb
  {
    if |a| < |b| {
      FirstAmpersand(pre, a, ra, b, rb);
      assert false;
    } else if |a| > |b| {
      FirstAmpersand(pre, b, rb, a, ra);
      assert false;
    }
    var u := pre + a + ra;
    assert a == u[|pre|..|pre| + |a|] == b;
    assert ra == u[|pre| + |a|..] == rb;
  }

  /** If one splitting of a string ends its middle part just before an `&` and
      another splitting's middle part runs on past it, that longer part contains `&`. */
  lemma FirstAmpersand(pre: string, a: string, ra: string, b: string, rb: string)
    requires pre + a + ra == pre + b + rb
    requires |a| < |b| && |ra| > 0 && ra[0] == '&'
    ensures Contains(b, "&")
  {
    var u := pre + a + ra;
    assert u[|pre| + |a|] == '&';
    assert b[|a|] == u[|pre| + |a|];
    assert b[|a|..|a| + 1] == "&";
    assert OccursAt(b, "&", |a|);
  }

  /** The URL after the map effect runs: unchanged while region metadata is missing. */
  function NextMapUrl(current: string, inp: MapInputs, fx: Externals): (url: string)
    ensures inp.regionMetadata.None? ==> url == current
    ensures inp.regionMetadata.Some? ==>
      url == MapUrl(MapQuery(HotspotRegions(inp), inp.selectedRegion, inp.regionMetadata.value, fx))
  {
    match inp.regionMetadata
    case None => current
    case Some(meta) => MapUrl(MapQuery(HotspotRegions(inp), inp.selectedRegion, meta, fx))
  }

  /** With region metadata present, the effect shows the world view only when
      nothing is to be shown, and zooms to 6 exactly for several hotspots of
      which the selection is not one. */
  lemma EffectZoom(inp: MapInputs, fx: Externals)
    requires inp.regionMetadata.Some?
    ensures var hot := HotspotRegions(inp);
            var t := MapQuery(hot, inp.selectedRegion, inp.regionMetadata.value, fx);
            (t.zoom == 6 <==> |hot| >= 2 && !SelectedAmong(inp.selectedRegion, hot))
  {
    var hot := HotspotRegions(inp);
    assert Located(hot, inp.regionMetadata.value);
  }

  /** The component's state: the iframe URL and the hotspots it describes. */
  class MapState {
    var mapUrl: string
    var currentHotspots: seq<string>

    constructor ()
      ensures mapUrl == InitialMapUrl && currentHotspots == []
    {
      mapUrl := InitialMapUrl;
      currentHotspots := [];
    }

    /** The map effect: record the hotspots and, once metadata is present, rebuild the URL. */
    method Refresh(inp: MapInputs, fx: Externals)
      modifies this
      ensures currentHotspots == HotspotRegions(inp)
      ensures mapUrl == NextMapUrl(old(mapUrl), inp, fx)
      ensures inp.regionMetadata.None? ==> mapUrl == old(mapUrl)
    {
      var hotspotRegions := ComputeHotspotRegions(inp);
      currentHotspots := hotspotRegions;
      if inp.regionMetadata.None? {
        return;
      }
      var meta := inp.regionMetadata.value;
      var selectedRegion := inp.selectedRegion;
      var newQuery := "";
      var zoom := 2;
      if |hotspotRegions| > 0 {
        var hotspotQueries := HotspotQueries(hotspotRegions, meta, fx);
        newQuery := Join(hotspotQueries, "|");
        zoom := 6;
        if IsSet(selectedRegion) && selectedRegion.value in hotspotRegions && Get(meta, selectedRegion.value).Some? {
          var name := selectedRegion.value;
          var others := WithoutMentions(hotspotQueries, fx.encodeURIComponent(name));
          newQuery := LocationEntry(Get(meta, name).value, name, fx) + "|" + Join(others, "|");
          zoom := 8;
        } else if |hotspotRegions| == 1 && Get(meta, hotspotRegions[0]).Some? {
          newQuery := LocationEntry(Get(meta, hotspotRegions[0]).value, hotspotRegions[0], fx);
          zoom := 8;
        }
      } else if IsSet(selectedRegion) && Get(meta, selectedRegion.value).Some? {
        newQuery := LocationEntry(Get(meta, selectedRegion.value).value, selectedRegion.value, fx);
        zoom := 8;
      } else {
        newQuery := "0,0";
        zoom := 2;
      }
      mapUrl := MapUrl(MapTarget(newQuery, zoom));
    }
  }
}
