/**
 * `estimateValue` and `getBrandTier` as the estimator runs them: read the
 * form, reject it at the first failing check, run the pricing pipeline step
 * by step while writing the audit trail, and hand back the valuation.
 */
module Estimator {
  import opened Wrappers
  import opened Text
  import opened Catalog
  import opened Brands
  import opened Pricing

  /** A numeric form field as `parseFloat(field.value || default)` sees it. */
  datatype NumericField = Blank | Number(value: real) | NotANumber

  /** The estimator form: the raw strings of the text fields and the keys of the select boxes. */
  datatype Request = Request(
    deviceType: string,
    brand: string,
    model: string,
    conditionKey: string,
    age: NumericField,
    specValue: NumericField,
    batteryHealth: NumericField,
    accessoriesKey: string,
    issueKey: string)

  /** Why the estimator refused the form, one reason per alert, in the order they are checked. */
  datatype EstimateError =
    | NoDeviceType
    | MissingBrandOrModel
    | UnsupportedDeviceType
    | InvalidAge
    | InvalidSpecValue
    | InvalidBatteryHealth

  /** What the estimator hands to the result card. */
  datatype Valuation = Valuation(
    profile: DeviceProfile,
    estimate: int,
    brand: string,
    model: string,
    accessoriesLabel: string,
    multipliers: seq<AuditEntry>,
    materialBreakdown: seq<BreakdownItem>,
    co2Saved: int)

  /** The number a field yields: its default when blank, nothing (NaN) when it does not parse. */
  function Resolve(f: NumericField, default: real): (v: Option<real>)
    ensures f.Blank? ==> v == Some(default)
    ensures f.Number? ==> v == Some(f.value)
    ensures f.NotANumber? <==> v.None?
  {
    match f
    case Blank => Some(default)
    case Number(x) => Some(x)
    case NotANumber => None
  }

  predicate HasDeviceType(req: Request) {
    req.deviceType != ""
  }

  /** Both text fields hold something besides white space. */
  predicate HasBrandAndModel(req: Request) {
    Trim(req.brand) != [] && Trim(req.model) != []
  }

  predicate Supported(req: Request) {
    req.deviceType in DeviceProfiles
  }

  /** The form names a device type, a brand and a model, and the catalog knows the type. */
  predicate Identified(req: Request) {
    HasDeviceType(req) && HasBrandAndModel(req) && Supported(req)
  }

  /** The age in years; a blank field means 2 (no profile sets a default age). */
  function AgeOf(req: Request): (age: Option<real>)
    ensures req.age.Blank? ==> age == Some(2.0)
    ensures req.age.Number? ==> age == Some(req.age.value)
    ensures age.None? <==> req.age.NotANumber?
  {
    Resolve(req.age, 2.0)
  }

  /** The spec value; a blank field means the profile's own baseline. */
  function SpecOf(req: Request, p: DeviceProfile): (spec: Option<real>)
    ensures req.specValue.Blank? ==> spec == Some(p.specBase)
    ensures req.specValue.Number? ==> spec == Some(req.specValue.value)
    ensures spec.None? <==> req.specValue.NotANumber?
  {
    Resolve(req.specValue, p.specBase)
  }

  /** The battery health in percent; a blank field means 85. */
  function BatteryOf(req: Request): (health: Option<real>)
    ensures req.batteryHealth.Blank? ==> health == Some(85.0)
    ensures req.batteryHealth.Number? ==> health == Some(req.batteryHealth.value)
    ensures health.None? <==> req.batteryHealth.NotANumber?
  {
    Resolve(req.batteryHealth, 85.0)
  }

  predicate ValidAge(a: Option<real>) {
    a.Some? && a.value >= 0.0
  }

  predicate ValidSpec(s: Option<real>) {
    s.Some? && s.value > 0.0
  }

  predicate ValidBattery(b: Option<real>) {
    b.Some? && 0.0 <= b.value <= 100.0
  }

  /** The numeric fields pass their checks for profile `p`. */
  predicate NumbersValid(req: Request, p: DeviceProfile) {
    ValidAge(AgeOf(req)) && ValidSpec(SpecOf(req, p)) && ValidBattery(BatteryOf(req))
  }

  /** Every check of the form passes. */
  predicate Accepted(req: Request) {
    Identified(req) && NumbersValid(req, DeviceProfiles[req.deviceType])
  }

  /** The pipeline inputs of a form whose numbers are valid for profile `p`. */
  function InputsOf(req: Request, p: DeviceProfile): Inputs
    requires NumbersValid(req, p)
  {
    Inputs(req.conditionKey, AgeOf(req).value, SpecOf(req, p).value, BatteryOf(req).value,
           BrandTierOf(Trim(req.brand)), req.accessoriesKey, req.issueKey)
  }

  /** `ACCESSORY_LABELS[key] || 'Not specified'` */
  function AccessoriesLabel(key: string): (text: string)
    ensures text != ""
    ensures key in AccessoryLabels && AccessoryLabels[key] != "" ==> text == AccessoryLabels[key]
    ensures key !in AccessoryLabels ==> text == "Not specified"
  {
    if key in AccessoryLabels && AccessoryLabels[key] != "" then AccessoryLabels[key] else "Not specified"
  }

  /** `profile.co2Savings || 10`: a missing or zero saving reads as 10 kg. */
  function Co2Saved(p: DeviceProfile): (kg: int)
    ensures kg != 0
    ensures p.co2Savings.Some? && p.co2Savings.value != 0 ==> kg == p.co2Savings.value
    ensures p.co2Savings.None? || p.co2Savings.value == 0 ==> kg == 10
  {
    if p.co2Savings.Some? && p.co2Savings.value != 0 then p.co2Savings.value else 10
  }

  /**
   * The pricing half of `estimateValue`: multiply the base price by each
   * factor in turn, add the accessories bonus, floor and round, and record
   * one audit entry per step. The brand arrives already resolved to its tier.
   */
  method Appraise(p: DeviceProfile, inp: Inputs) returns (estimate: int, multipliers: seq<AuditEntry>)
    requires WellFormed(p)
    ensures estimate == Price(p, inp)
    ensures multipliers == Trail(p, inp)
    ensures estimate >= p.minPrice && estimate % 10 == 0
  {
    var running := p.basePrice as real;
    ghost var e0 := running;
    var conditionMultiplier := ConditionMultiplier(inp.conditionKey);
    running := running * conditionMultiplier;
    ghost var e1 := running;
    var ageMultiplier := AgeMultiplier(p, inp.age);
    running := running * ageMultiplier;
    ghost var e2 := running;
    var specMultiplier := SpecMultiplier(p, inp.specValue);
    running := running * specMultiplier;
    ghost var e3 := running;
    var batteryMultiplier := 1.0;
    if UsesBattery(p) {
      batteryMultiplier := BatteryMultiplier(p, inp.battery);
      running := running * batteryMultiplier;
    }
    ghost var e4 := running;
    var tier := inp.tier;
    running := running * tier.factor;
    ghost var e5 := running;
    var issueMultiplier := IssueMultiplier(inp.issueKey);
    running := running * issueMultiplier;
    ghost var e6 := running;
    var bonus := AccessoryBonus(p, inp.accessoriesKey);
    running := running + bonus as real;
    RunningEstimate(e0, e1, e2, e3, e4, e5, e6, running, conditionMultiplier, ageMultiplier, specMultiplier,
                    BatteryFactor(p, inp.battery), tier.factor, issueMultiplier, bonus);
    running := Max(p.minPrice as real, running);
    estimate := RoundToTen(running);
    PriceAsChain(p, inp);

    multipliers := [ConditionStep(inp.conditionKey, conditionMultiplier), AgeStep(inp.age, ageMultiplier),
                    SpecStep(inp.specValue, p.specBase, specMultiplier)];
    ghost var first := multipliers;
    ghost var battery := if UsesBattery(p) then Some(BatteryStep(inp.battery, batteryMultiplier)) else None;
    if UsesBattery(p) {
      multipliers := multipliers + [BatteryStep(inp.battery, batteryMultiplier)];
      assert multipliers == first + OptionalEntry(battery);
    } else {
      assert multipliers == first + OptionalEntry(battery);
    }
    multipliers := multipliers + [BrandStep(tier.name, tier.factor)];
    ghost var beforeIssue := multipliers;
    ghost var issue := if inp.issueKey != "none" then Some(IssueStep(inp.issueKey, issueMultiplier)) else None;
    if inp.issueKey != "none" {
      multipliers := multipliers + [IssueStep(inp.issueKey, issueMultiplier)];
    }
    assert multipliers == beforeIssue + OptionalEntry(issue);
    multipliers := multipliers + [AccessoriesStep(bonus)];
    assert multipliers == Assemble(first, battery, BrandStep(tier.name, tier.factor), issue, AccessoriesStep(bonus));
  }

  /**
   * `estimateValue`: the checks run in a fixed order and the first one that
   * fails decides the error; a form that passes them all is priced by the
   * pipeline, and the valuation carries the estimate, the trail that
   * explains it and the material breakdown of that estimate.
   */
  method EstimateValue(req: Request) returns (r: Result<Valuation, EstimateError>)
    ensures !HasDeviceType(req) ==> r == Failure(NoDeviceType)
    ensures HasDeviceType(req) && !HasBrandAndModel(req) ==> r == Failure(MissingBrandOrModel)
    ensures HasDeviceType(req) && HasBrandAndModel(req) && !Supported(req) ==> r == Failure(UnsupportedDeviceType)
    ensures Identified(req) ==> var p := DeviceProfiles[req.deviceType];
      && (!ValidAge(AgeOf(req)) ==> r == Failure(InvalidAge))
      && (ValidAge(AgeOf(req)) && !ValidSpec(SpecOf(req, p)) ==> r == Failure(InvalidSpecValue))
      && (ValidAge(AgeOf(req)) && ValidSpec(SpecOf(req, p)) && !ValidBattery(BatteryOf(req))
          ==> r == Failure(InvalidBatteryHealth))
    ensures r.Success? <==> Accepted(req)
    ensures r.Success? ==> WellFormed(DeviceProfiles[req.deviceType])
    ensures r.Success? ==> Priced(req, DeviceProfiles[req.deviceType], r.value)
  {
    if req.deviceType == "" {
      return Failure(NoDeviceType);
    }
    if Trim(req.brand) == [] || Trim(req.model) == [] {
      return Failure(MissingBrandOrModel);
    }
    if req.deviceType !in DeviceProfiles {
      return Failure(UnsupportedDeviceType);
    }
    var profile := DeviceProfiles[req.deviceType];
    ProfileWellFormed(req.deviceType);
    r := EstimateForProfile(req, profile);
  }

  /**
   * What an accepted form yields for profile `p`: the pipeline's estimate for
   * its inputs, the trail explaining it, the trimmed brand and model, the
   * accessories label, the breakdown of that estimate and the CO2 saving.
   */
  predicate Priced(req: Request, p: DeviceProfile, v: Valuation)
    requires WellFormed(p) && NumbersValid(req, p)
  {
    var inp := InputsOf(req, p);
    && v.profile == p
    && v.estimate == Price(p, inp)
    && v.brand == Trim(req.brand) && v.model == Trim(req.model)
    && v.accessoriesLabel == AccessoriesLabel(req.accessoriesKey)
    && v.multipliers == Trail(p, inp)
    && v.materialBreakdown == BuildMaterialBreakdown(p, v.estimate)
    && v.co2Saved == Co2Saved(p)
  }

  /** The rest of `estimateValue` once the profile is known: read and check the numbers, then price. */
  method EstimateForProfile(req: Request, p: DeviceProfile) returns (r: Result<Valuation, EstimateError>)
    requires WellFormed(p)
    ensures !ValidAge(AgeOf(req)) ==> r == Failure(InvalidAge)
    ensures ValidAge(AgeOf(req)) && !ValidSpec(SpecOf(req, p)) ==> r == Failure(InvalidSpecValue)
    ensures ValidAge(AgeOf(req)) && ValidSpec(SpecOf(req, p)) && !ValidBattery(BatteryOf(req))
      ==> r == Failure(InvalidBatteryHealth)
    ensures r.Success? <==> NumbersValid(req, p)
    ensures r.Success? ==> Priced(req, p, r.value)
    ensures r.Success? ==> r.value.estimate >= p.minPrice && r.value.estimate % 10 == 0
  {
    var brand := Trim(req.brand);
    var model := Trim(req.model);
    var age := Resolve(req.age, 2.0);
    var specValue := Resolve(req.specValue, p.specBase);
    var batteryValue := Resolve(req.batteryHealth, 85.0);
    if age.None? || age.value < 0.0 {
      return Failure(InvalidAge);
    }
    if specValue.None? || specValue.value <= 0.0 {
      return Failure(InvalidSpecValue);
    }
    if batteryValue.None? || batteryValue.value < 0.0 || batteryValue.value > 100.0 {
      return Failure(InvalidBatteryHealth);
    }
    var tier := GetBrandTier(brand);
    var inp := Inputs(req.conditionKey, age.value, specValue.value, batteryValue.value, tier,
                      req.accessoriesKey, req.issueKey);
    var estimate, multipliers := Appraise(p, inp);
    r := Success(Valuation(p, estimate, brand, model, AccessoriesLabel(req.accessoriesKey), multipliers,
                           BuildMaterialBreakdown(p, estimate), Co2Saved(p)));
  }

  /** The worked example: an excellent, new, baseline-spec Apple smartphone with full battery, all accessories and no issue. */
  const ExampleRequest := Request("smartphone", "Apple", "iPhone 12", "excellent", Number(0.0), Number(128.0),
                                  Number(100.0), "all", "none")

  /** The example form's brand and model have no outer white space. */
  lemma ExampleSpelling()
    ensures NoOuterSpace("Apple") && NoOuterSpace("iPhone 12")
  {
  }

  /** The example form's numbers are valid for a smartphone. */
  lemma ExampleNumbers()
    ensures NumbersValid(ExampleRequest, Smartphone)
  {
  }

  /** The example form names a brand and a model, untouched by trimming, and valid numbers. */
  lemma ExampleFields()
    ensures HasBrandAndModel(ExampleRequest)
    ensures Trim(ExampleRequest.brand) == "Apple"
    ensures NumbersValid(ExampleRequest, Smartphone)
  {
    ExampleSpelling();
    TrimKeepsTrimmed("Apple");
    TrimKeepsTrimmed("iPhone 12");
    ExampleNumbers();
  }

  /** The example form passes every check. */
  lemma ExampleAccepted()
    ensures Accepted(ExampleRequest)
  {
    SmartphoneListed();
    ExampleFields();
  }

  /** The example form is priced with the Premium tier. */
  lemma ExampleInputs()
    ensures NumbersValid(ExampleRequest, Smartphone)
    ensures InputsOf(ExampleRequest, Smartphone)
      == Inputs("excellent", 0.0, 128.0, 100.0, TierChoice("Premium", 1.15), "all", "none")
  {
    ExampleNumbers();
    ExampleResolved();
    ExampleTier();
  }

  /** The example form's numbers resolve to themselves. */
  lemma ExampleResolved()
    ensures AgeOf(ExampleRequest) == Some(0.0)
    ensures SpecOf(ExampleRequest, Smartphone) == Some(128.0)
    ensures BatteryOf(ExampleRequest) == Some(100.0)
  {
  }

  /** The example form's brand resolves to the Premium tier. */
  lemma ExampleTier()
    ensures BrandTierOf(Trim(ExampleRequest.brand)) == TierChoice("Premium", 1.15)
  {
    ExampleFields();
    AppleIsPremium();
  }

  /**
   * 4200 x 1 x 1 x 1 x (0.6 + 1.0 x 0.65) x 1.15 x 1 + 250 = 6287.5, which
   * rounds to 6290.
   */
  lemma WorkedExample()
    ensures WellFormed(Smartphone)
    ensures Price(Smartphone, Inputs("excellent", 0.0, 128.0, 100.0, TierChoice("Premium", 1.15), "all", "none")) == 6290
  {
    var inp := Inputs("excellent", 0.0, 128.0, 100.0, TierChoice("Premium", 1.15), "all", "none");
    ExampleFactors();
    NoIssueIsNeutral();
    PriceAsChain(Smartphone, inp);
    assert PipelineEstimate(Smartphone, inp) == 6287.5;
  }

  /** The factors of the worked example that come from the catalog. */
  lemma ExampleFactors()
    ensures WellFormed(Smartphone)
    ensures ConditionMultiplier("excellent") == 1.0
    ensures BatteryMultiplier(Smartphone, 100.0) == 1.25
    ensures AccessoryBonus(Smartphone, "all") == 250
  {
    SmartphoneListed();
    ProfileWellFormed("smartphone");
  }
}
