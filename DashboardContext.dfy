/** The dashboard's shared state: the fetched data sets, the forecast points
    with their confidence bounds flattened out, and the default region,
    disease and year selection. */
module DashboardContext {
  import opened Collections

  datatype Disease = Malaria | Dengue | Diarrhoea

  /** The diseases the dashboard offers, in the order its selectors list them. */
  const AvailableDiseases: seq<Disease> := [Malaria, Dengue, Diarrhoea]

  function DiseaseName(d: Disease): string {
    match d
    case Malaria => "Malaria"
    case Dengue => "Dengue"
    case Diarrhoea => "Diarrhoea"
  }

  datatype AnomalyDataPoint = AnomalyDataPoint(date: string, value: real, isAnomaly: bool)

  /** A forecast point; `confidence` is the optional `[lower, upper]` pair and the two
      flattened bounds are absent (None) until the point is processed. */
  datatype ForecastDataPoint = ForecastDataPoint(
    date: string,
    actual: Option<real>,
    forecast: Option<real>,
    confidence: Option<(real, real)>,
    confidenceLower: Option<real>,
    confidenceUpper: Option<real>)

  datatype RegionMetadataItem = RegionMetadataItem(latitude: real, longitude: real, country: string)

  /** Region name to disease name to a time series. */
  type RegionDiseaseData<T> = Dict<Dict<seq<T>>>

  type RegionMetadata = Dict<RegionMetadataItem>

  /** Truthiness of a `string | undefined`: the empty string counts as unset. */
  predicate IsSet(s: Option<string>) {
    s.Some? && s.value != ""
  }

  /** One forecast point with its confidence pair copied into the two bound fields. */
  function WithConfidenceBounds(p: ForecastDataPoint): (q: ForecastDataPoint)
    ensures q.date == p.date && q.actual == p.actual && q.forecast == p.forecast
    ensures q.confidence == p.confidence
    ensures p.confidence.Some? ==>
      q.confidenceLower == Some(p.confidence.value.0) && q.confidenceUpper == Some(p.confidence.value.1)
    ensures p.confidence.None? ==> q.confidenceLower.None? && q.confidenceUpper.None?
  {
    match p.confidence
    case Some((lower, upper)) => p.(confidenceLower := Some(lower), confidenceUpper := Some(upper))
    case None => p.(confidenceLower := None, confidenceUpper := None)
  }

  /** Processing a point twice changes nothing more than processing it once. */
  lemma WithConfidenceBoundsIdempotent(p: ForecastDataPoint)
    ensures WithConfidenceBounds(WithConfidenceBounds(p)) == WithConfidenceBounds(p)
  {
  }

  function ProcessedSeries(s: seq<ForecastDataPoint>): (r: seq<ForecastDataPoint>)
    ensures |r| == |s|
    ensures forall k :: 0 <= k < |s| ==> r[k].date == s[k].date && r[k].confidence == s[k].confidence
  {
    seq(|s|, i requires 0 <= i < |s| => WithConfidenceBounds(s[i]))
  }

  function ProcessedRegion(byDisease: Dict<seq<ForecastDataPoint>>): Dict<seq<ForecastDataPoint>> {
    seq(|byDisease|, j requires 0 <= j < |byDisease| => (byDisease[j].0, ProcessedSeries(byDisease[j].1)))
  }

  /** The forecast data set with every point processed, nothing else changed. */
  function ProcessedForecast(f: RegionDiseaseData<ForecastDataPoint>): (r: RegionDiseaseData<ForecastDataPoint>)
    ensures Keys(r) == Keys(f)
    ensures forall i :: 0 <= i < |f| ==> Keys(r[i].1) == Keys(f[i].1)
  {
    seq(|f|, i requires 0 <= i < |f| => (f[i].0, ProcessedRegion(f[i].1)))
  }

  /** Processing keeps the region keys, the disease keys under each region, and each
      series' length and order; each point gains its bounds and keeps its other fields. */
  lemma ProcessedForecastShape(f: RegionDiseaseData<ForecastDataPoint>, i: nat, j: nat, k: nat)
    ensures Keys(ProcessedForecast(f)) == Keys(f)
    ensures i < |f| ==> Keys(ProcessedForecast(f)[i].1) == Keys(f[i].1)
    ensures i < |f| && j < |f[i].1| ==> |ProcessedForecast(f)[i].1[j].1| == |f[i].1[j].1|
    ensures i < |f| && j < |f[i].1| && k < |f[i].1[j].1| ==>
      ProcessedForecast(f)[i].1[j].1[k] == WithConfidenceBounds(f[i].1[j].1[k])
  {
    assert Keys(ProcessedForecast(f)) == Keys(f);
    if i < |f| {
      assert Keys(ProcessedForecast(f)[i].1) == Keys(f[i].1);
    }
  }

  /** Looking a series up in the processed data finds the processed form of the
      series found in the fetched data, and finds nothing exactly where that does. */
  lemma {:induction false} ProcessedForecastLookup(f: RegionDiseaseData<ForecastDataPoint>, region: string, disease: string)
    ensures Get(ProcessedForecast(f), region).None? <==> Get(f, region).None?
    ensures Get(f, region).Some? ==>
      Get(ProcessedForecast(f), region) == Some(ProcessedRegion(Get(f, region).value))
    ensures Get(f, region).Some? && Get(Get(f, region).value, disease).Some? ==>
      Get(Get(ProcessedForecast(f), region).value, disease) ==
        Some(ProcessedSeries(Get(Get(f, region).value, disease).value))
  {
    if f != [] {
      assert ProcessedForecast(f)[1..] == ProcessedForecast(f[1..]);
      ProcessedForecastLookup(f[1..], region, disease);
      if f[0].0 == region {
        ProcessedRegionLookup(f[0].1, disease);
      }
    }
  }

  lemma {:induction false} ProcessedRegionLookup(byDisease: Dict<seq<ForecastDataPoint>>, disease: string)
    ensures Get(byDisease, disease).Some? ==>
      Get(ProcessedRegion(byDisease), disease) == Some(ProcessedSeries(Get(byDisease, disease).value))
  {
    if byDisease != [] {
      assert ProcessedRegion(byDisease)[1..] == ProcessedRegion(byDisease[1..]);
      ProcessedRegionLookup(byDisease[1..], disease);
    }
  }

  /** The nested `for ... in` loops that fill `processedForecastJson`. */
  method ProcessForecastData(forecastJson: RegionDiseaseData<ForecastDataPoint>)
    returns (processed: RegionDiseaseData<ForecastDataPoint>)
    ensures processed == ProcessedForecast(forecastJson)
  {
    processed := [];
    var i := 0;
    while i < |forecastJson|
      invariant 0 <= i <= |forecastJson|
      invariant processed == ProcessedForecast(forecastJson[..i])
    {
      var region := forecastJson[i].0;
      var byDisease := forecastJson[i].1;
      var diseases: Dict<seq<ForecastDataPoint>> := [];
      var j := 0;
      while j < |byDisease|
        invariant 0 <= j <= |byDisease|
        invariant diseases == ProcessedRegion(byDisease[..j])
      {
        diseases := diseases + [(byDisease[j].0, ProcessedSeries(byDisease[j].1))];
        j := j + 1;
      }
      assert byDisease[..j] == byDisease;
      processed := processed + [(region, diseases)];
      i := i + 1;
    }
    assert forecastJson[..i] == forecastJson;
  }

  /** The region the selection effect settles on: the first available region
      when none is selected, the current selection otherwise. */
  function DefaultRegion(regions: seq<string>, selected: Option<string>): (r: Option<string>)
    ensures IsSet(selected) ==> r == selected
    ensures !IsSet(selected) && |regions| > 0 ==> r == Some(regions[0])
    ensures |regions| == 0 ==> r == selected
    ensures r == selected || (r.Some? && r.value in regions)
  {
    if |regions| > 0 && !IsSet(selected) then Some(regions[0]) else selected
  }

  /** The disease the selection effect settles on: the first of the list when none is selected. */
  function DefaultDisease(selected: Option<Disease>): (r: Option<Disease>)
    ensures r.Some?
    ensures selected.Some? ==> r == selected
    ensures selected.None? ==> r == Some(AvailableDiseases[0]) && r == Some(Malaria)
  {
    if selected.None? then Some(AvailableDiseases[0]) else selected
  }

  /** The provider's state. Fetching is left out: `LoadData` receives the parsed JSON. */
  class DashboardProvider {
    var selectedYear: Option<int>
    var selectedRegion: Option<string>
    var availableRegions: seq<string>
    var selectedDisease: Option<Disease>
    var forecastData: Option<RegionDiseaseData<ForecastDataPoint>>
    var anomalyData: Option<RegionDiseaseData<AnomalyDataPoint>>
    var regionMetadata: Option<RegionMetadata>

    /** The region list always mirrors the metadata keys. */
    ghost predicate Valid()
      reads this
    {
      availableRegions == if regionMetadata.Some? then Keys(regionMetadata.value) else []
    }

    /** `currentYear` stands for `new Date().getFullYear()`. */
    constructor (currentYear: int)
      ensures Valid()
      ensures selectedYear == Some(currentYear)
      ensures selectedRegion.None? && availableRegions == [] && selectedDisease.None?
      ensures forecastData.None? && anomalyData.None? && regionMetadata.None?
    {
      selectedYear := Some(currentYear);
      selectedRegion := None;
      availableRegions := [];
      selectedDisease := None;
      forecastData := None;
      anomalyData := None;
      regionMetadata := None;
    }

    /** The mount effect that sets the year to the one the bundled data covers. */
    method SetInitialYear()
      requires Valid()
      modifies this
      ensures Valid()
      ensures selectedYear == Some(2023)
      ensures selectedRegion == old(selectedRegion) && availableRegions == old(availableRegions)
      ensures selectedDisease == old(selectedDisease)
      ensures forecastData == old(forecastData) && anomalyData == old(anomalyData)
      ensures regionMetadata == old(regionMetadata)
    {
      selectedYear := Some(2023);
    }

    /** The successful end of the mount-time fetch. The fetch closure was created on
        mount, so the selection it tests is the one it saw then, which is unset:
        whenever the metadata has a region, the first one becomes selected. */
    method LoadData(forecastJson: RegionDiseaseData<ForecastDataPoint>,
                    anomalyJson: RegionDiseaseData<AnomalyDataPoint>,
                    regionMetaJson: RegionMetadata)
      requires Valid()
      modifies this
      ensures Valid()
      ensures forecastData == Some(ProcessedForecast(forecastJson))
      ensures anomalyData == Some(anomalyJson) && regionMetadata == Some(regionMetaJson)
      ensures availableRegions == Keys(regionMetaJson)
      ensures selectedRegion == if |regionMetaJson| > 0 then Some(regionMetaJson[0].0) else old(selectedRegion)
      ensures selectedYear == old(selectedYear) && selectedDisease == old(selectedDisease)
    {
      var processed := ProcessForecastData(forecastJson);
      forecastData := Some(processed);
      anomalyData := Some(anomalyJson);
      regionMetadata := Some(regionMetaJson);
      var regions := Keys(regionMetaJson);
      availableRegions := regions;
      var regionAtMount: Option<string> := None;
      if |regions| > 0 && !IsSet(regionAtMount) {
        selectedRegion := Some(regions[0]);
      }
    }

    /** The effect that selects the first available region when none is selected. */
    method SyncSelectedRegion()
      requires Valid()
      modifies this
      ensures Valid()
      ensures selectedRegion == DefaultRegion(availableRegions, old(selectedRegion))
      ensures IsSet(old(selectedRegion)) ==> selectedRegion == old(selectedRegion)
      ensures regionMetadata.Some? && !IsSet(old(selectedRegion)) && |regionMetadata.value| > 0 ==>
        selectedRegion == Some(regionMetadata.value[0].0)
      ensures regionMetadata.None? ==> selectedRegion == old(selectedRegion)
      ensures selectedYear == old(selectedYear) && selectedDisease == old(selectedDisease)
      ensures availableRegions == old(availableRegions) && regionMetadata == old(regionMetadata)
      ensures forecastData == old(forecastData) && anomalyData == old(anomalyData)
    {
      if |availableRegions| > 0 && !IsSet(selectedRegion) {
        selectedRegion := Some(availableRegions[0]);
      }
    }

    /** The effect that selects the first disease when none is selected. */
    method SyncSelectedDisease()
      requires Valid()
      modifies this
      ensures Valid()
      ensures selectedDisease == DefaultDisease(old(selectedDisease))
      ensures selectedYear == old(selectedYear) && selectedRegion == old(selectedRegion)
      ensures availableRegions == old(availableRegions) && regionMetadata == old(regionMetadata)
      ensures forecastData == old(forecastData) && anomalyData == old(anomalyData)
    {
      if |AvailableDiseases| > 0 && selectedDisease.None? {
        selectedDisease := Some(AvailableDiseases[0]);
      }
    }
  }

  /** Mounting the provider and loading data whose metadata names at least one
      region ends with 2023, the first region and Malaria selected. */
  method Startup(currentYear: int, forecastJson: RegionDiseaseData<ForecastDataPoint>,
                 anomalyJson: RegionDiseaseData<AnomalyDataPoint>, regionMetaJson: RegionMetadata)
    returns (year: Option<int>, region: Option<string>, disease: Option<Disease>, regions: seq<string>)
    ensures year == Some(2023) && disease == Some(Malaria)
    ensures regions == Keys(regionMetaJson)
    ensures |regionMetaJson| > 0 ==> region == Some(regionMetaJson[0].0)
    ensures |regionMetaJson| == 0 ==> region.None?
  {
    var p := new DashboardProvider(currentYear);
    p.SetInitialYear();
    p.LoadData(forecastJson, anomalyJson, regionMetaJson);
    p.SyncSelectedRegion();
    p.SyncSelectedDisease();
    year, region, disease, regions := p.selectedYear, p.selectedRegion, p.selectedDisease, p.availableRegions;
  }
}
