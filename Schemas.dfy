/** The insights form's validation schema: four fields, each with one rule and
    one message, checked in declaration order as `safeParse` does. */
module Schemas {
  import opened Collections

  datatype InsightsFormValues = InsightsFormValues(
    region: string,
    timePeriod: string,
    disease: Option<string>,
    climateConditions: seq<string>)

  const DiseaseOptions: seq<string> := ["Malaria", "Dengue", "Diarrhoea"]

  const RegionMessage: string := "Region must be at least 3 characters long."
  const TimePeriodMessage: string :=
    "Time period must be at least 4 characters long (e.g., \"2023\" or \"Next 3 months\")."
  const DiseaseRequiredMessage: string := "Please select a disease."
  const ClimateConditionsMessage: string := "Select at least one climate condition."

  /** The enum rule's own message for a string that is not one of the options. */
  function InvalidDiseaseMessage(received: string): string {
    "Invalid enum value. Expected 'Malaria' | 'Dengue' | 'Diarrhoea', received '" + received + "'"
  }

  /** The message a field's rule reports, or None when the field passes. */
  function RegionIssue(region: string): (m: Option<string>)
    ensures m.None? <==> |region| >= 3
    ensures m.Some? ==> m.value == RegionMessage
  {
    if |region| < 3 then Some(RegionMessage) else None
  }

  function TimePeriodIssue(timePeriod: string): (m: Option<string>)
    ensures m.None? <==> |timePeriod| >= 4
    ensures m.Some? ==> m.value == TimePeriodMessage
  {
    if |timePeriod| < 4 then Some(TimePeriodMessage) else None
  }

  function DiseaseIssue(disease: Option<string>): (m: Option<string>)
    ensures m.None? <==> disease.Some? && disease.value in DiseaseOptions
    ensures disease.None? ==> m == Some(DiseaseRequiredMessage)
    ensures disease.Some? && m.Some? ==> m.value == InvalidDiseaseMessage(disease.value)
  {
    match disease
    case None => Some(DiseaseRequiredMessage)
    case Some(d) => if d in DiseaseOptions then None else Some(InvalidDiseaseMessage(d))
  }

  function ClimateConditionsIssue(conditions: seq<string>): (m: Option<string>)
    ensures m.None? <==> |conditions| >= 1
    ensures m.Some? ==> m.value == ClimateConditionsMessage
  {
    if |conditions| < 1 then Some(ClimateConditionsMessage) else None
  }

  /** The schema's fields, in declaration order. */
  const FieldNames: seq<string> := ["region", "timePeriod", "disease", "climateConditions"]

  lemma FieldNamesDistinct()
    ensures Distinct(FieldNames)
  {
    var lengths := [6, 10, 7, 17];
    forall i | 0 <= i < 4 ensures |FieldNames[i]| == lengths[i] {
    }
    forall i, j | 0 <= i < j < 4 ensures FieldNames[i] != FieldNames[j] {
      assert lengths[i] != lengths[j];
    }
  }

  /** The message the named field's rule reports for `v`, or None when it passes. */
  function FieldIssue(v: InsightsFormValues, field: string): Option<string> {
    if field == "region" then RegionIssue(v.region)
    else if field == "timePeriod" then TimePeriodIssue(v.timePeriod)
    else if field == "disease" then DiseaseIssue(v.disease)
    else if field == "climateConditions" then ClimateConditionsIssue(v.climateConditions)
    else None
  }

  /** The field errors for one field: an entry when its rule fails, nothing otherwise. */
  function FieldEntry(v: InsightsFormValues, field: string): Dict<seq<string>> {
    match FieldIssue(v, field)
    case Some(m) => [(field, [m])]
    case None => []
  }

  /** `error.flatten().fieldErrors`: the failing fields, in schema order, each with its message. */
  function FieldErrors(v: InsightsFormValues): (r: Dict<seq<string>>)
    ensures r == [] <==> IsValid(v)
    ensures forall i :: 0 <= i < |r| ==>
      r[i].0 in FieldNames && |r[i].1| == 1 && FieldIssue(v, r[i].0) == Some(r[i].1[0])
  {
    FieldEntry(v, "region") + (FieldEntry(v, "timePeriod") + (FieldEntry(v, "disease") + FieldEntry(v, "climateConditions")))
  }

  predicate IsValid(v: InsightsFormValues) {
    && |v.region| >= 3
    && |v.timePeriod| >= 4
    && v.disease.Some? && v.disease.value in DiseaseOptions
    && |v.climateConditions| >= 1
  }

  datatype ParseResult = Parsed(data: InsightsFormValues) | Failed(fieldErrors: Dict<seq<string>>)

  /** `insightsFormSchema.safeParse(v)`: the form back when all four rules hold,
      the field errors otherwise. */
  function SafeParse(v: InsightsFormValues): (r: ParseResult)
    ensures r.Parsed? <==> IsValid(v)
    ensures r.Parsed? <==> forall f :: f in FieldNames ==> FieldIssue(v, f).None?
    ensures r.Parsed? ==> r.data == v
    ensures r.Failed? ==> r.fieldErrors == FieldErrors(v) && |r.fieldErrors| > 0
  {
    if IsValid(v) then Parsed(v) else Failed(FieldErrors(v))
  }

  /** Each field appears in the field errors exactly when its rule fails, with that
      rule's message as its only entry. */
  lemma FieldErrorFor(v: InsightsFormValues, field: string)
    requires field in FieldNames
    ensures Get(FieldErrors(v), field) == match FieldIssue(v, field)
                                         case Some(m) => Some([m])
                                         case None => None
  {
    var a, b := FieldEntry(v, "region"), FieldEntry(v, "timePeriod");
    var c, d := FieldEntry(v, "disease"), FieldEntry(v, "climateConditions");
    GetConcat(a, b + (c + d), field);
    GetConcat(b, c + d, field);
    GetConcat(c, d, field);
  }

  /** The failing fields are listed in schema order, each once. */
  lemma FieldErrorsOrder(v: InsightsFormValues)
    ensures Keys(FieldErrors(v)) == Filter(FieldNames, f => FieldIssue(v, f).Some?)
    ensures Distinct(Keys(FieldErrors(v)))
  {
    var p := f => FieldIssue(v, f).Some?;
    var a, b := FieldEntry(v, "region"), FieldEntry(v, "timePeriod");
    var c, d := FieldEntry(v, "disease"), FieldEntry(v, "climateConditions");
    assert Keys(a + (b + (c + d))) == Filter(FieldNames, p) by {
      forall f | f in FieldNames ensures Keys(FieldEntry(v, f)) == Filter([f], p) {
        assert [f][1..] == [];
      }
      KeysConcat(c, d);
      KeysConcat(b, c + d);
      KeysConcat(a, b + (c + d));
      FilterConcat(["disease"], ["climateConditions"], p);
      FilterConcat(["timePeriod"], ["disease", "climateConditions"], p);
      FilterConcat(["region"], ["timePeriod", "disease", "climateConditions"], p);
    }
    assert FieldErrors(v) == a + (b + (c + d));
    FieldNamesDistinct();
    FilterDistinct(FieldNames, p);
  }

  /** The empty form the insights panel starts from fails on all four fields. */
  lemma EmptyFormFailsEveryField()
    ensures SafeParse(InsightsFormValues("", "", None, [])) ==
      Failed([("region", [RegionMessage]), ("timePeriod", [TimePeriodMessage]),
              ("disease", [DiseaseRequiredMessage]), ("climateConditions", [ClimateConditionsMessage])])
  {
  }

  /** The length bounds are inclusive: three characters are a valid region, two are not;
      four characters are a valid time period, three are not. */
  lemma LengthBoundaries(s3: string, s4: string)
    requires |s3| == 3 && |s4| == 4
    ensures RegionIssue(s3).None? && RegionIssue(s3[..2]).Some?
    ensures TimePeriodIssue(s4).None? && TimePeriodIssue(s4[..3]).Some?
  {
  }
}
