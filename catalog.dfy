/**
 * The static configuration of the valuation engine: the five device profiles,
 * the condition, issue and accessory tables, the ordered brand tiers and the
 * default material split. None of it changes at run time.
 */
module Catalog {
  import opened Wrappers

  /** One recoverable-material category of a device and its share of the final value. */
  datatype MaterialShare = MaterialShare(name: string, icon: string, percent: Option<real>, description: string)

  /**
   * The pricing parameters of one device type. The fields the estimator reads
   * with a fallback (`??`, `||` or `!== false`) are optional here, so that the
   * fallback is part of the model even though every catalog entry sets them.
   */
  datatype DeviceProfile = DeviceProfile(
    name: string,
    basePrice: int,
    minPrice: int,
    ageDepreciation: real,
    minAgeFactor: Option<real>,
    specBase: real,
    specWeight: Option<real>,
    batteryWeight: Option<real>,
    usesBattery: Option<bool>,
    accessoryBonus: Option<map<string, int>>,
    co2Savings: Option<int>,
    materials: Option<seq<MaterialShare>>)


  // Icons of the material categories, as Unicode escapes.
  const Medal := "\U{1F947}"
  const BatteryIcon := "\U{1F50B}"
  const PhoneIcon := "\U{1F4F1}"
  const GearIcon := "\U{2699}\U{FE0F}"
  const RecycleIcon := "\U{267B}\U{FE0F}"
  const BrickIcon := "\U{1F9F1}"
  const BrainIcon := "\U{1F9E0}"
  const ScreenIcon := "\U{1F5A5}\U{FE0F}"
  const PuzzleIcon := "\U{1F9E9}"
  const DiskIcon := "\U{1F4BE}"
  const PlugIcon := "\U{1F50C}"
  const GreenBookIcon := "\U{1F4D7}"
  const HammerPickIcon := "\U{2692}\U{FE0F}"
  const PictureIcon := "\U{1F5BC}\U{FE0F}"
  const BulbIcon := "\U{1F4A1}"

  const Smartphone := DeviceProfile(
    "Smartphone", 4200, 900, 0.09, Some(0.35), 128.0, Some(0.004), Some(0.65), None,
    Some(map["all" := 250, "basic" := 120, "none" := 0]), Some(9),
    Some([
      MaterialShare("Precious Metals", Medal, Some(0.15), "Gold, silver & palladium traces"),
      MaterialShare("Battery Pack", BatteryIcon, Some(0.25), "Lithium-ion modules"),
      MaterialShare("Display & Glass", PhoneIcon, Some(0.3), "OLED/LCD assembly"),
      MaterialShare("Frame & Copper", GearIcon, Some(0.2), "Aluminium, copper & steel"),
      MaterialShare("Plastics & Others", RecycleIcon, Some(0.1), "Polymers, PCBs & misc.")
    ]))

  const Laptop := DeviceProfile(
    "Laptop", 10500, 2500, 0.07, Some(0.4), 512.0, Some(0.0025), Some(0.55), None,
    Some(map["all" := 400, "basic" := 200, "none" := 0]), Some(24),
    Some([
      MaterialShare("Aluminium & Copper", BrickIcon, Some(0.32), "Chassis + heat sinks"),
      MaterialShare("Battery Modules", BatteryIcon, Some(0.18), "Lithium cells"),
      MaterialShare("Logic Boards", BrainIcon, Some(0.22), "Motherboard & RAM"),
      MaterialShare("Display Assembly", ScreenIcon, Some(0.18), "LCD/LED panel"),
      MaterialShare("Plastics", RecycleIcon, Some(0.1), "Keys & bezels")
    ]))

  const Desktop := DeviceProfile(
    "Desktop", 8000, 2000, 0.08, Some(0.4), 1024.0, Some(0.0018), Some(0.35), None,
    Some(map["all" := 250, "basic" := 120, "none" := 0]), Some(21),
    Some([
      MaterialShare("Metals & Chassis", GearIcon, Some(0.35), "Steel cases & copper"),
      MaterialShare("Circuit Boards", PuzzleIcon, Some(0.3), "CPU, GPU & PCBs"),
      MaterialShare("Storage Units", DiskIcon, Some(0.15), "HDD/SSD recovery"),
      MaterialShare("Power Supply", PlugIcon, Some(0.12), "Transformers"),
      MaterialShare("Plastic Panels", RecycleIcon, Some(0.08), "Front panels")
    ]))

  const Tablet := DeviceProfile(
    "Tablet", 5200, 1200, 0.085, Some(0.35), 128.0, Some(0.0035), Some(0.6), None,
    Some(map["all" := 220, "basic" := 120, "none" := 0]), Some(12),
    Some([
      MaterialShare("Display Assembly", GreenBookIcon, Some(0.34), "Glass + digitizer"),
      MaterialShare("Battery Pack", BatteryIcon, Some(0.23), "Lithium polymer"),
      MaterialShare("Logic Boards", BrainIcon, Some(0.18), "PCB & chips"),
      MaterialShare("Frame Metals", HammerPickIcon, Some(0.15), "Aluminium frame"),
      MaterialShare("Other Components", RecycleIcon, Some(0.1), "Speakers, plastics")
    ]))

  const Monitor := DeviceProfile(
    "Monitor / TV", 3800, 850, 0.07, Some(0.45), 24.0, Some(0.03), Some(0.2), Some(false),
    Some(map["all" := 150, "basic" := 80, "none" := 0]), Some(14),
    Some([
      MaterialShare("Panel Glass", PictureIcon, Some(0.4), "LCD/OLED glass"),
      MaterialShare("Backlight Unit", BulbIcon, Some(0.18), "LED strips"),
      MaterialShare("Circuit Boards", PuzzleIcon, Some(0.2), "T-Con & power boards"),
      MaterialShare("Metals & Frame", GearIcon, Some(0.12), "Aluminium & steel"),
      MaterialShare("Plastics", RecycleIcon, Some(0.1), "Rear housing")
    ]))

  /** The catalog, keyed by the device-type value of the estimator form. */
  const DeviceProfiles: map<string, DeviceProfile> := map[
    "smartphone" := Smartphone,
    "laptop" := Laptop,
    "desktop" := Desktop,
    "tablet" := Tablet,
    "monitor" := Monitor]

  const ConditionMultipliers: map<string, real> := map[
    "excellent" := 1.0, "good" := 0.87, "fair" := 0.7, "poor" := 0.45]

  const IssueMultipliers: map<string, real> := map[
    "none" := 1.0, "cosmetic" := 0.95, "battery" := 0.85, "display" := 0.6, "hardware" := 0.45]

  const AccessoryFallback: map<string, int> := map["all" := 200, "basic" := 100, "none" := 0]

  const AccessoryLabels: map<string, string> := map[
    "all" := "Charger + box", "basic" := "Charger only", "none" := "Missing accessories"]

  /** The material split used for a profile that lists no materials of its own. */
  const DefaultMaterials: seq<MaterialShare> := [
    MaterialShare("Metals & Frame", GearIcon, Some(0.3), "Aluminium & copper parts"),
    MaterialShare("Circuit Boards", BrainIcon, Some(0.25), "PCBs and chipsets"),
    MaterialShare("Battery Pack", BatteryIcon, Some(0.2), "Power modules"),
    MaterialShare("Display", ScreenIcon, Some(0.15), "Glass assemblies"),
    MaterialShare("Plastics", RecycleIcon, Some(0.1), "Panels & casing")]

  /** `profile.minAgeFactor ?? 0.35` */
  function MinAgeFactor(p: DeviceProfile): (f: real)
    ensures p.minAgeFactor.Some? ==> f == p.minAgeFactor.value
    ensures p.minAgeFactor.None? ==> f == 0.35
  {
    p.minAgeFactor.GetOr(0.35)
  }

  /** `profile.specWeight || 0.002`: an absent or zero weight falls back. */
  function SpecWeight(p: DeviceProfile): (w: real)
    ensures w != 0.0
    ensures p.specWeight.Some? && p.specWeight.value != 0.0 ==> w == p.specWeight.value
    ensures p.specWeight.None? || p.specWeight.value == 0.0 ==> w == 0.002
  {
    if p.specWeight.None? || p.specWeight.value == 0.0 then 0.002 else p.specWeight.value
  }

  /** `profile.batteryWeight || 0.5`: an absent or zero weight falls back. */
  function BatteryWeight(p: DeviceProfile): (w: real)
    ensures w != 0.0
    ensures p.batteryWeight.Some? && p.batteryWeight.value != 0.0 ==> w == p.batteryWeight.value
    ensures p.batteryWeight.None? || p.batteryWeight.value == 0.0 ==> w == 0.5
  {
    if p.batteryWeight.None? || p.batteryWeight.value == 0.0 then 0.5 else p.batteryWeight.value
  }

  /** `profile.usesBattery !== false`: only an explicit `false` switches the battery step off. */
  predicate UsesBattery(p: DeviceProfile): (on: bool)
    ensures p.usesBattery.None? ==> on
    ensures !on <==> p.usesBattery == Some(false)
  {
    p.usesBattery != Some(false)
  }

  /** `profile.materials || DEFAULT_MATERIALS` */
  function Materials(p: DeviceProfile): (ms: seq<MaterialShare>)
    ensures p.materials.Some? ==> ms == p.materials.value
    ensures p.materials.None? ==> ms == DefaultMaterials
  {
    p.materials.GetOr(DefaultMaterials)
  }

  /** `item.percent ?? 0.2` */
  function Portion(m: MaterialShare): (q: real)
    ensures m.percent.Some? ==> q == m.percent.value
    ensures m.percent.None? ==> q == 0.2
  {
    m.percent.GetOr(0.2)
  }

  /**
   * What the pricing arguments need of a profile: positive prices, a floor
   * that is a multiple of 10, a non-negative depreciation, an age floor in
   * (0, 1], a positive spec baseline, a positive spec weight, a non-negative battery weight,
   * non-negative accessory bonuses and material shares in (0, 1].
   */
  predicate WellFormed(p: DeviceProfile) {
    && p.basePrice > 0
    && p.minPrice > 0
    && p.minPrice % 10 == 0
    && p.ageDepreciation >= 0.0
    && 0.0 < MinAgeFactor(p) <= 1.0
    && p.specBase > 0.0
    && SpecWeight(p) > 0.0
    && BatteryWeight(p) >= 0.0
    && (p.accessoryBonus.Some? ==> forall k | k in p.accessoryBonus.value :: p.accessoryBonus.value[k] >= 0)
    && (forall i | 0 <= i < |Materials(p)| :: 0.0 < Portion(Materials(p)[i]) <= 1.0)
  }

  /** Every profile of the catalog is well formed; in particular every `minPrice` is a multiple of 10. */
  lemma CatalogWellFormed()
    ensures forall key | key in DeviceProfiles :: WellFormed(DeviceProfiles[key])
  {
    forall key | key in DeviceProfiles ensures WellFormed(DeviceProfiles[key]) {
      ProfileWellFormed(key);
    }
  }

  /** The well-formedness of one catalog profile, checked profile by profile. */
  lemma ProfileWellFormed(key: string)
    requires key in DeviceProfiles
    ensures WellFormed(DeviceProfiles[key])
  {
    if key == "smartphone" {
      SmartphoneWellFormed();
    } else if key == "laptop" {
      LaptopWellFormed();
    } else if key == "desktop" {
      DesktopWellFormed();
    } else if key == "tablet" {
      TabletWellFormed();
    } else {
      MonitorWellFormed();
    }
  }

  /** The smartphone profile is well formed. */
  lemma SmartphoneWellFormed()
    ensures WellFormed(Smartphone)
  {
    ShareWellFormed(Smartphone);
  }

  /** The laptop profile is well formed. */
  lemma LaptopWellFormed()
    ensures WellFormed(Laptop)
  {
    ShareWellFormed(Laptop);
  }

  /** The desktop profile is well formed. */
  lemma DesktopWellFormed()
    ensures WellFormed(Desktop)
  {
    ShareWellFormed(Desktop);
  }

  /** The tablet profile is well formed. */
  lemma TabletWellFormed()
    ensures WellFormed(Tablet)
  {
    ShareWellFormed(Tablet);
  }

  /** The monitor profile is well formed. */
  lemma MonitorWellFormed()
    ensures WellFormed(Monitor)
  {
    ShareWellFormed(Monitor);
  }

  /** A profile whose scalar fields are in range and whose five material portions lie in (0, 1] is well formed. */
  lemma ShareWellFormed(p: DeviceProfile)
    requires p.basePrice > 0 && p.minPrice > 0 && p.minPrice % 10 == 0 && p.ageDepreciation >= 0.0
    requires 0.0 < MinAgeFactor(p) <= 1.0 && p.specBase > 0.0 && SpecWeight(p) > 0.0 && BatteryWeight(p) >= 0.0
    requires p.accessoryBonus.Some? ==> forall k | k in p.accessoryBonus.value :: p.accessoryBonus.value[k] >= 0
    requires |Materials(p)| == 5
    requires 0.0 < Portion(Materials(p)[0]) <= 1.0 && 0.0 < Portion(Materials(p)[1]) <= 1.0
    requires 0.0 < Portion(Materials(p)[2]) <= 1.0 && 0.0 < Portion(Materials(p)[3]) <= 1.0
    requires 0.0 < Portion(Materials(p)[4]) <= 1.0
    ensures WellFormed(p)
  {
  }

  /** The smartphone profile is listed under "smartphone". */
  lemma SmartphoneListed()
    ensures "smartphone" in DeviceProfiles && DeviceProfiles["smartphone"] == Smartphone
  {
  }

  /** Only the monitor profile switches the battery step off. */
  lemma OnlyMonitorSkipsBattery()
    ensures forall key | key in DeviceProfiles :: !UsesBattery(DeviceProfiles[key]) <==> key == "monitor"
  {
  }
}
