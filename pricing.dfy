/**
 * The pricing pipeline of the valuation engine as functions: the individual
 * multipliers and their fallbacks, the audit trail,
 * the price it explains and the material breakdown.
 */
module Pricing {
  import opened Wrappers
  import opened Catalog
  import opened Brands

  /** `Math.max` on reals. */
  function Max(a: real, b: real): real {
    if a >= b then a else b
  }

  /** `Math.min` on reals. */
  function Min(a: real, b: real): real {
    if a <= b then a else b
  }

  /** `clamp(value, min, max) = Math.min(Math.max(value, min), max)`. */
  function Clamp(v: real, lo: real, hi: real): (r: real)
    ensures r == v || r == lo || r == hi
    ensures lo <= hi ==> lo <= r <= hi
    ensures lo <= v <= hi ==> r == v
    ensures v <= lo <= hi ==> r == lo
    ensures lo <= hi <= v ==> r == hi
  {
    Min(Max(v, lo), hi)
  }

  /** `Math.round`: the nearest integer, halves rounded up. */
  function RoundHalfUp(x: real): (r: int)
    ensures r as real - 0.5 <= x < r as real + 0.5
  {
    (x + 0.5).Floor
  }

  /** `Math.round(x / 10) * 10`: the nearest multiple of 10, halves rounded up. */
  function RoundToTen(x: real): (r: int)
    ensures r % 10 == 0
    ensures r as real - 5.0 <= x < r as real + 5.0
  {
    RoundHalfUp(x / 10.0) * 10
  }

  lemma RoundHalfUpMonotone(x: real, y: real)
    requires x <= y
    ensures RoundHalfUp(x) <= RoundHalfUp(y)
  {
  }

  /** Rounding to tens never drops a value below a multiple of 10 it already reached. */
  lemma RoundToTenAtLeast(x: real, m: int)
    requires m % 10 == 0 && m as real <= x
    ensures m <= RoundToTen(x)
  {
    var r := RoundToTen(x);
    assert (r - m) % 10 == 0;
    assert r - m > -5;
  }

  lemma RoundToTenMonotone(x: real, y: real)
    requires x <= y
    ensures RoundToTen(x) <= RoundToTen(y)
  {
    RoundHalfUpMonotone(x / 10.0, y / 10.0);
  }

  /** `CONDITION_MULTIPLIERS[key] ?? 0.5` */
  function ConditionMultiplier(key: string): (m: real)
    ensures 0.45 <= m <= 1.0
  {
    if key in ConditionMultipliers then ConditionMultipliers[key] else 0.5
  }

  /** `ISSUE_MULTIPLIERS[key] ?? 1` */
  function IssueMultiplier(key: string): (m: real)
    ensures 0.45 <= m <= 1.0
  {
    if key in IssueMultipliers then IssueMultipliers[key] else 1.0
  }

  /** `Math.max(minAgeFactor, 1 - age * ageDepreciation)`: at least the floor, at most 1 for a non-negative age. */
  function AgeMultiplier(p: DeviceProfile, age: real): (m: real)
    requires WellFormed(p)
    ensures MinAgeFactor(p) <= m
    ensures age >= 0.0 ==> m <= 1.0
    ensures age == 0.0 ==> m == 1.0
  {
    Max(MinAgeFactor(p), 1.0 - age * p.ageDepreciation)
  }

  /** An older device never gets a larger age multiplier. */
  lemma AgeMultiplierNonIncreasing(p: DeviceProfile, a1: real, a2: real)
    requires WellFormed(p) && a1 <= a2
    ensures AgeMultiplier(p, a2) <= AgeMultiplier(p, a1)
  {
    MulRight(a1, a2, p.ageDepreciation);
  }

  /** `Math.max(0.6, 1 + (spec - specBase) / specBase * specWeight)`: never below 0.6, exactly 1 at the baseline. */
  function SpecMultiplier(p: DeviceProfile, spec: real): (m: real)
    requires WellFormed(p)
    ensures m >= 0.6
    ensures spec == p.specBase ==> m == 1.0
  {
    Max(0.6, 1.0 + (spec - p.specBase) / p.specBase * SpecWeight(p))
  }

  /**
   * `0.6 + clamp(battery, 30, 100) / 100 * batteryWeight`: it lies between the
   * values for 30% and for 100%, and every health up to 30% gets the 30% value.
   */
  function BatteryMultiplier(p: DeviceProfile, battery: real): (m: real)
    requires WellFormed(p)
    ensures 0.6 + 0.3 * BatteryWeight(p) <= m <= 0.6 + BatteryWeight(p)
    ensures battery <= 30.0 ==> m == 0.6 + 0.3 * BatteryWeight(p)
  {
    var normalized := Clamp(battery, 30.0, 100.0) / 100.0;
    ScaleFraction(normalized, 0.3, BatteryWeight(p));
    assert normalized * BatteryWeight(p) <= BatteryWeight(p);
    0.6 + normalized * BatteryWeight(p)
  }

  /** A fraction of a non-negative weight lies between the scaled lower bound and the whole weight. */
  lemma ScaleFraction(x: real, lo: real, w: real)
    requires lo <= x <= 1.0 && w >= 0.0
    ensures lo * w <= x * w <= w
  {
    assert (x - lo) * w >= 0.0;
    assert (1.0 - x) * w >= 0.0;
  }

  /** Better battery health never lowers the battery multiplier. */
  lemma BatteryMultiplierNonDecreasing(p: DeviceProfile, b1: real, b2: real)
    requires WellFormed(p) && b1 <= b2
    ensures BatteryMultiplier(p, b1) <= BatteryMultiplier(p, b2)
  {
    var c1, c2 := Clamp(b1, 30.0, 100.0), Clamp(b2, 30.0, 100.0);
    assert c1 <= c2;
    assert (c2 - c1) / 100.0 * BatteryWeight(p) >= 0.0;
  }

  /** The battery step's factor: its multiplier, or 1 when the profile skips the step. */
  function BatteryFactor(p: DeviceProfile, battery: real): (f: real)
    requires WellFormed(p)
    ensures !UsesBattery(p) ==> f == 1.0
    ensures UsesBattery(p) ==> f == BatteryMultiplier(p, battery)
    ensures f >= 0.6
  {
    if UsesBattery(p) then BatteryMultiplier(p, battery) else 1.0
  }

  /**
   * `getAccessoryBonus`: 0 for an empty key; otherwise the profile's own entry,
   * then the shared fallback table, then 0.
   */
  function AccessoryBonus(p: DeviceProfile, key: string): (b: int)
    requires WellFormed(p)
    ensures b >= 0
    ensures key == "" ==> b == 0
    ensures key != "" && p.accessoryBonus.Some? && key in p.accessoryBonus.value ==> b == p.accessoryBonus.value[key]
    ensures key != "" && (p.accessoryBonus.None? || key !in p.accessoryBonus.value) && key in AccessoryFallback
      ==> b == AccessoryFallback[key]
    ensures key != "" && (p.accessoryBonus.None? || key !in p.accessoryBonus.value) && key !in AccessoryFallback
      ==> b == 0
  {
    if key == "" then 0
    else if p.accessoryBonus.Some? && key in p.accessoryBonus.value then p.accessoryBonus.value[key]
    else if key in AccessoryFallback then AccessoryFallback[key]
    else 0
  }

  /**
   * Unknown keys fall back instead of failing: a condition outside the table
   * gives 0.5, an issue outside the table gives 1, and an accessory key found
   * neither in the profile nor in the fallback table gives no bonus.
   */
  lemma UnknownKeysFallBack(p: DeviceProfile, condition: string, issue: string, accessories: string)
    requires WellFormed(p)
    requires condition !in ConditionMultipliers && issue !in IssueMultipliers
    requires accessories !in AccessoryFallback
    requires p.accessoryBonus.None? || accessories !in p.accessoryBonus.value
    ensures ConditionMultiplier(condition) == 0.5
    ensures IssueMultiplier(issue) == 1.0
    ensures AccessoryBonus(p, accessories) == 0
  {
  }

  /** For a catalog profile the bonus is the profile's own entry for all, basic and none, and 0 for any other key. */
  lemma CatalogAccessoryBonus(key: string, accessories: string)
    requires key in DeviceProfiles
    ensures WellFormed(DeviceProfiles[key])
    ensures DeviceProfiles[key].accessoryBonus.Some?
    ensures DeviceProfiles[key].accessoryBonus.value.Keys == {"all", "basic", "none"}
    ensures AccessoryBonus(DeviceProfiles[key], accessories)
      == if accessories in {"all", "basic", "none"} then DeviceProfiles[key].accessoryBonus.value[accessories] else 0
    ensures var p := DeviceProfiles[key];
      AccessoryBonus(p, "none") == 0 <= AccessoryBonus(p, "basic") <= AccessoryBonus(p, "all")
  {
    ProfileWellFormed(key);
    BonusTableShape(key);
  }

  /** Every catalog profile has its own bonus table for exactly all, basic and none, in increasing order from none. */
  lemma BonusTableShape(key: string)
    requires key in DeviceProfiles
    ensures var p := DeviceProfiles[key];
      && p.accessoryBonus.Some? && p.accessoryBonus.value.Keys == {"all", "basic", "none"}
      && p.accessoryBonus.value["none"] == 0 <= p.accessoryBonus.value["basic"] <= p.accessoryBonus.value["all"]
  {
  }

  /** One line of the audit trail: the kind of step, the input it used and its factor or bonus. */
  datatype AuditEntry =
    | ConditionStep(key: string, factor: real)
    | AgeStep(years: real, factor: real)
    | SpecStep(value: real, baseline: real, factor: real)
    | BatteryStep(health: real, factor: real)
    | BrandStep(tier: string, factor: real)
    | IssueStep(key: string, factor: real)
    | AccessoriesStep(bonus: int)

  /** The inputs of the pipeline once validated and defaulted, with the brand already resolved to its tier. */
  datatype Inputs = Inputs(
    conditionKey: string,
    age: real,
    specValue: real,
    battery: real,
    tier: TierChoice,
    accessoriesKey: string,
    issueKey: string)

  /**
   * The audit trail, in pipeline order: condition, age, spec, battery (only
   * when the profile uses it), brand, issue (only when the key is not "none"),
   * accessories.
   */
  function Trail(p: DeviceProfile, inp: Inputs): seq<AuditEntry>
    requires WellFormed(p)
  {
    var tier := inp.tier;
    Assemble(
      [ ConditionStep(inp.conditionKey, ConditionMultiplier(inp.conditionKey)),
        AgeStep(inp.age, AgeMultiplier(p, inp.age)),
        SpecStep(inp.specValue, p.specBase, SpecMultiplier(p, inp.specValue)) ],
      if UsesBattery(p) then Some(BatteryStep(inp.battery, BatteryMultiplier(p, inp.battery))) else None,
      BrandStep(tier.name, tier.factor),
      if inp.issueKey != "none" then Some(IssueStep(inp.issueKey, IssueMultiplier(inp.issueKey))) else None,
      AccessoriesStep(AccessoryBonus(p, inp.accessoriesKey)))
  }

  /** The entries of a trail in order, the optional ones present only when given. */
  function Assemble(first: seq<AuditEntry>, battery: Option<AuditEntry>, brand: AuditEntry,
                    issue: Option<AuditEntry>, accessories: AuditEntry): seq<AuditEntry>
  {
    first + OptionalEntry(battery) + [brand] + OptionalEntry(issue) + [accessories]
  }

  function OptionalEntry(e: Option<AuditEntry>): seq<AuditEntry> {
    if e.Some? then [e.value] else []
  }

  /** One step of the pipeline as the trail records it: multiply by the factor, or add the bonus. */
  function Apply(estimate: real, e: AuditEntry): real {
    if e.AccessoriesStep? then estimate + e.bonus as real else estimate * e.factor
  }

  /** The running estimate after applying the entries of a trail in order. */
  function Replay(estimate: real, t: seq<AuditEntry>): real
    decreases t
  {
    if t == [] then estimate else Replay(Apply(estimate, t[0]), t[1..])
  }

  /** Replaying two trails one after the other is replaying their concatenation. */
  lemma {:induction false} ReplayAppend(x: real, t: seq<AuditEntry>, u: seq<AuditEntry>)
    ensures Replay(x, t + u) == Replay(Replay(x, t), u)
    decreases t
  {
    if t == [] {
      assert t + u == u;
    } else {
      assert (t + u)[1..] == t[1..] + u;
      ReplayAppend(Apply(x, t[0]), t[1..], u);
    }
  }

  /** Replaying a one-entry trail applies that entry. */
  lemma ReplaySingle(x: real, e: AuditEntry)
    ensures Replay(x, [e]) == Apply(x, e)
  {
    assert [e][1..] == [];
  }

  /** Replaying an optional entry applies it when present and changes nothing otherwise. */
  lemma ReplayOptional(x: real, e: Option<AuditEntry>)
    ensures Replay(x, OptionalEntry(e)) == if e.Some? then Apply(x, e.value) else x
  {
    if e.Some? {
      ReplaySingle(x, e.value);
    }
  }

  /** Replaying an assembled trail applies its parts in order. */
  lemma ReplayAssemble(x: real, first: seq<AuditEntry>, battery: Option<AuditEntry>, brand: AuditEntry,
                       issue: Option<AuditEntry>, accessories: AuditEntry)
    ensures Replay(x, Assemble(first, battery, brand, issue, accessories))
      == Apply(Replay(Apply(Replay(Replay(x, first), OptionalEntry(battery)), brand), OptionalEntry(issue)), accessories)
  {
    var b, i := OptionalEntry(battery), OptionalEntry(issue);
    var t2 := first + b;
    var t3 := t2 + [brand];
    var t4 := t3 + i;
    assert Assemble(first, battery, brand, issue, accessories) == t4 + [accessories];
    ReplayAppend(x, t4, [accessories]);
    ReplayAppend(x, t3, i);
    ReplayAppend(x, t2, [brand]);
    ReplayAppend(x, first, b);
    ReplaySingle(Replay(x, t4), accessories);
    ReplaySingle(Replay(x, t2), brand);
  }

  /**
   * The estimate a trail explains: the base price with every listed step
   * applied in order, floored at `minPrice` and rounded to tens.
   */
  function Explained(p: DeviceProfile, t: seq<AuditEntry>): int {
    RoundToTen(Max(p.minPrice as real, Replay(p.basePrice as real, t)))
  }

  /** The specification of the estimate: the value the audit trail explains. */
  function Price(p: DeviceProfile, inp: Inputs): (estimate: int)
    requires WellFormed(p)
    ensures estimate >= p.minPrice
    ensures estimate % 10 == 0
  {
    ExplainedFloorAndGranularity(p, Trail(p, inp));
    Explained(p, Trail(p, inp))
  }

  /**
   * The running estimate before the floor, step by step: the base price times
   * each multiplier in pipeline order (1 for a skipped battery step), plus the
   * accessory bonus.
   */
  function PipelineEstimate(p: DeviceProfile, inp: Inputs): real
    requires WellFormed(p)
  {
    Chain(p.basePrice as real, ConditionMultiplier(inp.conditionKey), AgeMultiplier(p, inp.age),
          SpecMultiplier(p, inp.specValue), BatteryFactor(p, inp.battery), inp.tier.factor,
          IssueMultiplier(inp.issueKey), AccessoryBonus(p, inp.accessoriesKey))
  }

  /** `estimate *= ...` six times over the base price, then `estimate += bonus`. */
  function Chain(base: real, c: real, a: real, s: real, b: real, t: real, i: real, bonus: int): real {
    base * c * a * s * b * t * i + bonus as real
  }

  /** An estimate multiplied step by step by the six factors and then given the bonus ends at `Chain`. */
  lemma RunningEstimate(e0: real, e1: real, e2: real, e3: real, e4: real, e5: real, e6: real, e7: real,
                        c: real, a: real, s: real, b: real, t: real, i: real, bonus: int)
    requires e1 == e0 * c && e2 == e1 * a && e3 == e2 * s && e4 == e3 * b && e5 == e4 * t && e6 == e5 * i
    requires e7 == e6 + bonus as real
    ensures e7 == Chain(e0, c, a, s, b, t, i, bonus)
  {
  }

  /** Factor of an optional trail entry: its own factor when present, 1 when absent. */
  function OptionalFactor(e: Option<AuditEntry>): real {
    if e.Some? && !e.value.AccessoriesStep? then e.value.factor else 1.0
  }

  /** Replaying the three entries every trail starts with. */
  lemma ReplayFirstThree(x: real, c: AuditEntry, a: AuditEntry, s: AuditEntry)
    ensures Replay(x, [c, a, s]) == Apply(Apply(Apply(x, c), a), s)
  {
    assert [c, a, s] == [c] + [a] + [s];
    ReplayAppend(x, [c] + [a], [s]);
    ReplayAppend(x, [c], [a]);
    ReplaySingle(x, c);
    ReplaySingle(Apply(x, c), a);
    ReplaySingle(Apply(Apply(x, c), a), s);
  }

  /** A trail of the assembled shape replays as a product of its factors plus the bonus. */
  lemma ReplayCanonical(x: real, c: AuditEntry, a: AuditEntry, s: AuditEntry, battery: Option<AuditEntry>,
                        brand: AuditEntry, issue: Option<AuditEntry>, accessories: AuditEntry)
    requires !c.AccessoriesStep? && !a.AccessoriesStep? && !s.AccessoriesStep? && !brand.AccessoriesStep?
    requires battery.Some? ==> !battery.value.AccessoriesStep?
    requires issue.Some? ==> !issue.value.AccessoriesStep?
    requires accessories.AccessoriesStep?
    ensures Replay(x, Assemble([c, a, s], battery, brand, issue, accessories))
      == Chain(x, c.factor, a.factor, s.factor, OptionalFactor(battery), brand.factor, OptionalFactor(issue),
               accessories.bonus)
  {
    ReplayAssemble(x, [c, a, s], battery, brand, issue, accessories);
    ReplayFirstThree(x, c, a, s);
    var e1 := x * c.factor;
    var e2 := e1 * a.factor;
    var e3 := e2 * s.factor;
    ReplayOptionalFactor(e3, battery);
    var e4 := e3 * OptionalFactor(battery);
    var e5 := e4 * brand.factor;
    ReplayOptionalFactor(e5, issue);
    var e6 := e5 * OptionalFactor(issue);
    RunningEstimate(x, e1, e2, e3, e4, e5, e6, e6 + accessories.bonus as real,
                    c.factor, a.factor, s.factor, OptionalFactor(battery), brand.factor, OptionalFactor(issue),
                    accessories.bonus);
  }

  /** Replaying an optional multiplier entry multiplies by its factor, or by 1 when it is absent. */
  lemma ReplayOptionalFactor(x: real, e: Option<AuditEntry>)
    requires e.Some? ==> !e.value.AccessoriesStep?
    ensures Replay(x, OptionalEntry(e)) == x * OptionalFactor(e)
  {
    ReplayOptional(x, e);
  }

  /**
   * Replaying the trail reproduces the pipeline's running estimate: leaving the
   * "none" issue out of the trail loses nothing, because its factor is 1.
   */
  lemma TrailMatchesChain(p: DeviceProfile, inp: Inputs)
    requires WellFormed(p)
    ensures Replay(p.basePrice as real, Trail(p, inp)) == PipelineEstimate(p, inp)
  {
    var tier := inp.tier;
    var cm, am, sm := ConditionMultiplier(inp.conditionKey), AgeMultiplier(p, inp.age), SpecMultiplier(p, inp.specValue);
    var bm, im := BatteryMultiplier(p, inp.battery), IssueMultiplier(inp.issueKey);
    var bonus := AccessoryBonus(p, inp.accessoriesKey);
    var b := if UsesBattery(p) then Some(BatteryStep(inp.battery, bm)) else None;
    var i := if inp.issueKey != "none" then Some(IssueStep(inp.issueKey, im)) else None;
    assert Trail(p, inp) == Assemble([ConditionStep(inp.conditionKey, cm), AgeStep(inp.age, am),
                                      SpecStep(inp.specValue, p.specBase, sm)], b, BrandStep(tier.name, tier.factor), i,
                                     AccessoriesStep(bonus));
    ReplayCanonical(p.basePrice as real, ConditionStep(inp.conditionKey, cm), AgeStep(inp.age, am),
                    SpecStep(inp.specValue, p.specBase, sm), b, BrandStep(tier.name, tier.factor), i, AccessoriesStep(bonus));
    assert OptionalFactor(b) == BatteryFactor(p, inp.battery);
    NoIssueIsNeutral();
    assert OptionalFactor(i) == im;
  }

  /** The "none" issue leaves the estimate as it is. */
  lemma NoIssueIsNeutral()
    ensures IssueMultiplier("none") == 1.0
  {
    assert "none" in IssueMultipliers;
  }

  /** The estimate as the pipeline computes it: the running estimate, floored, rounded. */
  lemma PriceAsChain(p: DeviceProfile, inp: Inputs)
    requires WellFormed(p)
    ensures Price(p, inp) == RoundToTen(Max(p.minPrice as real, PipelineEstimate(p, inp)))
  {
    TrailMatchesChain(p, inp);
  }

  /** Whatever a trail lists, the estimate it explains is at least `minPrice` and a multiple of 10. */
  lemma ExplainedFloorAndGranularity(p: DeviceProfile, t: seq<AuditEntry>)
    requires p.minPrice % 10 == 0
    ensures Explained(p, t) >= p.minPrice
    ensures Explained(p, t) % 10 == 0
  {
    RoundToTenAtLeast(Max(p.minPrice as real, Replay(p.basePrice as real, t)), p.minPrice);
  }

  /** Multiplying both sides by a non-negative factor keeps an inequality. */
  lemma MulRight(x: real, y: real, k: real)
    requires x <= y && k >= 0.0
    ensures x * k <= y * k
  {
    assert (y - x) * k >= 0.0;
  }

  /** Lowering one multiplier of the chain never raises it, when every other multiplier is non-negative. */
  lemma ChainMonotone(base: real, c: real, a1: real, a2: real, s: real, b1: real, b2: real, t: real, i: real,
                      bonus: int)
    requires base >= 0.0 && c >= 0.0 && s >= 0.0 && t >= 0.0 && i >= 0.0
    requires 0.0 <= a1 <= a2 && 0.0 <= b1 <= b2
    ensures Chain(base, c, a1, s, b1, t, i, bonus) <= Chain(base, c, a2, s, b2, t, i, bonus)
  {
    assert base * c >= 0.0 by { MulRight(0.0, base, c); }
    MulRight(a1, a2, base * c);
    assert base * c * a1 <= base * c * a2;
    MulRight(base * c * a1, base * c * a2, s);
    assert base * c * a1 * s >= 0.0 by { MulRight(0.0, base * c, a1); MulRight(0.0, base * c * a1, s); }
    MulRight(b1, b2, base * c * a1 * s);
    MulRight(base * c * a1 * s, base * c * a2 * s, b2);
    assert base * c * a1 * s * b1 <= base * c * a2 * s * b2;
    MulRight(base * c * a1 * s * b1, base * c * a2 * s * b2, t);
    MulRight(base * c * a1 * s * b1 * t, base * c * a2 * s * b2 * t, i);
  }

  /** Holding everything else fixed, an older device never gets a higher estimate. */
  lemma EstimateNonIncreasingInAge(p: DeviceProfile, inp: Inputs, olderAge: real)
    requires WellFormed(p) && inp.tier.factor >= 0.0 && inp.age <= olderAge
    ensures Price(p, inp.(age := olderAge)) <= Price(p, inp)
  {
    var older := inp.(age := olderAge);
    PriceAsChain(p, inp);
    PriceAsChain(p, older);
    AgeMultiplierNonIncreasing(p, inp.age, olderAge);
    var b := BatteryFactor(p, inp.battery);
    ChainMonotone(p.basePrice as real, ConditionMultiplier(inp.conditionKey), AgeMultiplier(p, olderAge),
      AgeMultiplier(p, inp.age), SpecMultiplier(p, inp.specValue), b, b, inp.tier.factor,
      IssueMultiplier(inp.issueKey), AccessoryBonus(p, inp.accessoriesKey));
    RoundToTenMonotone(Max(p.minPrice as real, PipelineEstimate(p, older)), Max(p.minPrice as real, PipelineEstimate(p, inp)));
  }

  /** Holding everything else fixed, better battery health never lowers the estimate. */
  lemma EstimateNonDecreasingInBattery(p: DeviceProfile, inp: Inputs, betterHealth: real)
    requires WellFormed(p) && inp.tier.factor >= 0.0 && inp.battery <= betterHealth
    ensures Price(p, inp) <= Price(p, inp.(battery := betterHealth))
  {
    var better := inp.(battery := betterHealth);
    PriceAsChain(p, inp);
    PriceAsChain(p, better);
    if UsesBattery(p) {
      BatteryMultiplierNonDecreasing(p, inp.battery, betterHealth);
    }
    var a := AgeMultiplier(p, inp.age);
    ChainMonotone(p.basePrice as real, ConditionMultiplier(inp.conditionKey), a, a,
      SpecMultiplier(p, inp.specValue), BatteryFactor(p, inp.battery), BatteryFactor(p, betterHealth),
      inp.tier.factor, IssueMultiplier(inp.issueKey), AccessoryBonus(p, inp.accessoriesKey));
    RoundToTenMonotone(Max(p.minPrice as real, PipelineEstimate(p, inp)), Max(p.minPrice as real, PipelineEstimate(p, better)));
  }

  /** Battery health up to 30% is clamped to 30%: every such health gives the same estimate. */
  lemma LowBatteryHealthIsClamped(p: DeviceProfile, inp: Inputs, otherHealth: real)
    requires WellFormed(p) && inp.battery <= 30.0 && otherHealth <= 30.0
    ensures Price(p, inp.(battery := otherHealth)) == Price(p, inp)
  {
    var other := inp.(battery := otherHealth);
    PriceAsChain(p, inp);
    PriceAsChain(p, other);
    assert BatteryFactor(p, inp.battery) == BatteryFactor(p, other.battery) by {
      if UsesBattery(p) {
        assert BatteryMultiplier(p, inp.battery) == 0.6 + 0.3 * BatteryWeight(p);
        assert BatteryMultiplier(p, otherHealth) == 0.6 + 0.3 * BatteryWeight(p);
      }
    }
    assert PipelineEstimate(p, inp) == PipelineEstimate(p, other);
  }

  /** Without a battery step the battery health changes neither the estimate nor the trail, and no battery entry appears. */
  lemma BatteryIgnoredWithoutBatteryStep(p: DeviceProfile, inp: Inputs, otherHealth: real)
    requires WellFormed(p) && !UsesBattery(p)
    ensures Price(p, inp.(battery := otherHealth)) == Price(p, inp)
    ensures Trail(p, inp.(battery := otherHealth)) == Trail(p, inp)
    ensures forall i | 0 <= i < |Trail(p, inp)| :: !Trail(p, inp)[i].BatteryStep?
  {
  }

  /**
   * The shape of the audit trail: condition, age and spec first, the battery
   * entry exactly when the profile uses battery, then brand, the issue entry
   * exactly when the key is not "none", and the accessories entry last
   * (even for a bonus of 0).
   */
  lemma TrailShape(p: DeviceProfile, inp: Inputs)
    requires WellFormed(p)
    ensures var t := Trail(p, inp);
      |t| == 5 + (if UsesBattery(p) then 1 else 0) + (if inp.issueKey != "none" then 1 else 0)
    ensures var t := Trail(p, inp);
      t[0].ConditionStep? && t[1].AgeStep? && t[2].SpecStep? && t[|t| - 1].AccessoriesStep?
    ensures var t := Trail(p, inp); var b := if UsesBattery(p) then 1 else 0;
      (UsesBattery(p) ==> t[3].BatteryStep?) && t[3 + b].BrandStep?
      && (inp.issueKey != "none" ==> t[4 + b].IssueStep?)
    ensures var t := Trail(p, inp);
      (exists i | 0 <= i < |t| :: t[i].BatteryStep?) <==> UsesBattery(p)
    ensures var t := Trail(p, inp);
      (exists i | 0 <= i < |t| :: t[i].IssueStep?) <==> inp.issueKey != "none"
    ensures var t := Trail(p, inp);
      t[|t| - 1] == AccessoriesStep(AccessoryBonus(p, inp.accessoriesKey))
    ensures var t := Trail(p, inp);
      && t[0] == ConditionStep(inp.conditionKey, ConditionMultiplier(inp.conditionKey))
      && t[1] == AgeStep(inp.age, AgeMultiplier(p, inp.age))
      && t[2] == SpecStep(inp.specValue, p.specBase, SpecMultiplier(p, inp.specValue))
    ensures var t := Trail(p, inp); var b := if UsesBattery(p) then 1 else 0;
      && (UsesBattery(p) ==> t[3] == BatteryStep(inp.battery, BatteryMultiplier(p, inp.battery)))
      && t[3 + b] == BrandStep(inp.tier.name, inp.tier.factor)
      && (inp.issueKey != "none" ==> t[4 + b] == IssueStep(inp.issueKey, IssueMultiplier(inp.issueKey)))
  {
    var tier := inp.tier;
    var c := ConditionStep(inp.conditionKey, ConditionMultiplier(inp.conditionKey));
    var a := AgeStep(inp.age, AgeMultiplier(p, inp.age));
    var s := SpecStep(inp.specValue, p.specBase, SpecMultiplier(p, inp.specValue));
    var b := if UsesBattery(p) then Some(BatteryStep(inp.battery, BatteryMultiplier(p, inp.battery))) else None;
    var i := if inp.issueKey != "none" then Some(IssueStep(inp.issueKey, IssueMultiplier(inp.issueKey))) else None;
    var acc := AccessoriesStep(AccessoryBonus(p, inp.accessoriesKey));
    assert Trail(p, inp) == Assemble([c, a, s], b, BrandStep(tier.name, tier.factor), i, acc);
    AssembleShape(c, a, s, b, BrandStep(tier.name, tier.factor), i, acc);
  }

  /** Where each entry of an assembled trail sits, for any entries of the right kinds. */
  lemma AssembleShape(c: AuditEntry, a: AuditEntry, s: AuditEntry, battery: Option<AuditEntry>,
                      brand: AuditEntry, issue: Option<AuditEntry>, accessories: AuditEntry)
    requires c.ConditionStep? && a.AgeStep? && s.SpecStep? && brand.BrandStep? && accessories.AccessoriesStep?
    requires battery.Some? ==> battery.value.BatteryStep?
    requires issue.Some? ==> issue.value.IssueStep?
    ensures var t := Assemble([c, a, s], battery, brand, issue, accessories);
      |t| == 5 + (if battery.Some? then 1 else 0) + (if issue.Some? then 1 else 0)
    ensures var t := Assemble([c, a, s], battery, brand, issue, accessories);
      t[0] == c && t[1] == a && t[2] == s && t[|t| - 1] == accessories
    ensures var t := Assemble([c, a, s], battery, brand, issue, accessories); var b := if battery.Some? then 1 else 0;
      (battery.Some? ==> t[3] == battery.value) && t[3 + b] == brand && (issue.Some? ==> t[4 + b] == issue.value)
    ensures var t := Assemble([c, a, s], battery, brand, issue, accessories);
      (exists i | 0 <= i < |t| :: t[i].BatteryStep?) <==> battery.Some?
    ensures var t := Assemble([c, a, s], battery, brand, issue, accessories);
      (exists i | 0 <= i < |t| :: t[i].IssueStep?) <==> issue.Some?
  {
    var t := Assemble([c, a, s], battery, brand, issue, accessories);
    if battery.Some? {
      assert t[3].BatteryStep?;
    }
    if issue.Some? {
      assert t[if battery.Some? then 5 else 4].IssueStep?;
    }
  }

  /** One line of the material breakdown. */
  datatype BreakdownItem = BreakdownItem(icon: string, name: string, description: string, recovered: int)

  /** `Math.max(80, Math.round(estimate * portion))` */
  function RecoveredValue(estimate: int, m: MaterialShare): (v: int)
    ensures v >= 80
    ensures v == 80 <==> estimate as real * Portion(m) < 80.5
    ensures v != 80 ==> v as real - 0.5 <= estimate as real * Portion(m) < v as real + 0.5
  {
    var rounded := RoundHalfUp(estimate as real * Portion(m));
    if 80 >= rounded then 80 else rounded
  }

  /** The breakdown line of one material; an empty icon or description falls back to the generic one. */
  function BreakdownItemOf(m: MaterialShare, estimate: int): (item: BreakdownItem)
    ensures item.name == m.name && item.recovered == RecoveredValue(estimate, m)
    ensures m.icon != [] ==> item.icon == m.icon
    ensures m.icon == [] ==> item.icon == RecycleIcon
    ensures m.description != [] ==> item.description == m.description
    ensures m.description == [] ==> item.description == "Recovered materials"
  {
    BreakdownItem(
      if m.icon == "" then RecycleIcon else m.icon,
      m.name,
      if m.description == "" then "Recovered materials" else m.description,
      RecoveredValue(estimate, m))
  }

  /**
   * `buildMaterialBreakdown`: one line per material of the profile (or of the
   * default split), in catalog order. Each value is the larger of 80 and the
   * material's share of the estimate rounded to the nearest unit: it is 80
   * exactly when the share is below 80.5, and otherwise the share rounded.
   * A material without an icon or description gets the generic one.
   */
  function BuildMaterialBreakdown(p: DeviceProfile, estimate: int): (items: seq<BreakdownItem>)
    ensures |items| == |Materials(p)|
    ensures forall i | 0 <= i < |items| :: items[i].name == Materials(p)[i].name && items[i].recovered >= 80
    ensures forall i | 0 <= i < |items| ::
      items[i].recovered == 80 <==> estimate as real * Portion(Materials(p)[i]) < 80.5
    ensures forall i | 0 <= i < |items| ::
      || items[i].recovered == 80
      || items[i].recovered as real - 0.5 <= estimate as real * Portion(Materials(p)[i]) < items[i].recovered as real + 0.5
    ensures forall i | 0 <= i < |items| ::
      items[i].icon == (if Materials(p)[i].icon != "" then Materials(p)[i].icon else RecycleIcon)
    ensures forall i | 0 <= i < |items| ::
      items[i].description == (if Materials(p)[i].description != "" then Materials(p)[i].description else "Recovered materials")
  {
    var ms := Materials(p);
    seq(|ms|, i requires 0 <= i < |ms| => BreakdownItemOf(ms[i], estimate))
  }

  /** A higher estimate never lowers the recovered value of any material. */
  lemma BreakdownMonotone(p: DeviceProfile, e1: int, e2: int)
    requires WellFormed(p) && e1 <= e2
    ensures forall i | 0 <= i < |Materials(p)| ::
      BuildMaterialBreakdown(p, e1)[i].recovered <= BuildMaterialBreakdown(p, e2)[i].recovered
  {
    var ms := Materials(p);
    forall i | 0 <= i < |ms|
      ensures BuildMaterialBreakdown(p, e1)[i].recovered <= BuildMaterialBreakdown(p, e2)[i].recovered
    {
      assert BuildMaterialBreakdown(p, e1)[i] == BreakdownItemOf(ms[i], e1);
      assert BuildMaterialBreakdown(p, e2)[i] == BreakdownItemOf(ms[i], e2);
      RecoveredValueMonotone(ms[i], e1, e2);
    }
  }

  /** For a non-negative share, a higher estimate never lowers the recovered value. */
  lemma RecoveredValueMonotone(m: MaterialShare, e1: int, e2: int)
    requires Portion(m) >= 0.0 && e1 <= e2
    ensures RecoveredValue(e1, m) <= RecoveredValue(e2, m)
  {
    var q := Portion(m);
    MulRight(e1 as real, e2 as real, q);
    RoundHalfUpMonotone(e1 as real * q, e2 as real * q);
  }

}
