/**
 * The discrete parts of the disaster-recovery cost calculator: the volume
 * discount tiers, the storage-tier shares (in tenths, before they are
 * normalised), the backup frequency of each recovery point objective, the
 * include switches of the five cost components and the monthly sum over the
 * components that are switched on. Amounts of money are `real`s.
 */
module CostCalculator {
  import opened Wrappers
  import opened Strings

  // ---------- volume discount ----------

  /** A half-open range `[min, max)` of data volumes in GB; no `max` means unbounded. */
  datatype DiscountTier = DiscountTier(min: real, max: Option<real>, percentage: int)

  const DiscountTiers: seq<DiscountTier> := [
    DiscountTier(0.0, Some(10000.0), 0),
    DiscountTier(10000.0, Some(50000.0), 10),
    DiscountTier(50000.0, Some(100000.0), 15),
    DiscountTier(100000.0, None, 20)]

  predicate InTier(volume: real, tier: DiscountTier) {
    volume >= tier.min && (tier.max.None? || volume < tier.max.value)
  }

  /** `tiers.find(...)`: the first tier containing the volume. */
  function FindTier(tiers: seq<DiscountTier>, volume: real): (t: Option<DiscountTier>)
    ensures t.Some? ==> exists i :: (0 <= i < |tiers| && tiers[i] == t.value && InTier(volume, tiers[i])
      && forall j :: 0 <= j < i ==> !InTier(volume, tiers[j]))
    ensures t.None? <==> forall i :: 0 <= i < |tiers| ==> !InTier(volume, tiers[i])
  {
    if tiers == [] then None
    else if InTier(volume, tiers[0]) then Some(tiers[0])
    else
      var rest := FindTier(tiers[1..], volume);
      assert forall i :: 1 <= i < |tiers| ==> tiers[i] == tiers[1..][i - 1];
      rest
  }

  /** `calculateVolumeDiscount`, as a whole percentage rather than a fraction. */
  function VolumeDiscount(volume: real): int {
    match FindTier(DiscountTiers, volume)
    case Some(tier) => tier.percentage
    case None => 0
  }

  /** The tiers cover every volume >= 0 exactly once and no negative volume. */
  lemma TiersPartition(volume: real)
    ensures volume >= 0.0 ==> exists i :: 0 <= i < |DiscountTiers| && InTier(volume, DiscountTiers[i])
    ensures forall i, j :: (0 <= i < |DiscountTiers| && 0 <= j < |DiscountTiers|
      && InTier(volume, DiscountTiers[i]) && InTier(volume, DiscountTiers[j])) ==> i == j
    ensures volume < 0.0 ==> forall i :: 0 <= i < |DiscountTiers| ==> !InTier(volume, DiscountTiers[i])
  {
    if volume >= 0.0 {
      if volume < 10000.0 {
        assert InTier(volume, DiscountTiers[0]);
      } else if volume < 50000.0 {
        assert InTier(volume, DiscountTiers[1]);
      } else if volume < 100000.0 {
        assert InTier(volume, DiscountTiers[2]);
      } else {
        assert InTier(volume, DiscountTiers[3]);
      }
    }
  }

  /** The discount of every volume: 0, 10, 15 or 20 percent, and 0 below zero. */
  lemma DiscountByVolume(volume: real)
    ensures volume < 10000.0 ==> VolumeDiscount(volume) == 0
    ensures 10000.0 <= volume < 50000.0 ==> VolumeDiscount(volume) == 10
    ensures 50000.0 <= volume < 100000.0 ==> VolumeDiscount(volume) == 15
    ensures 100000.0 <= volume ==> VolumeDiscount(volume) == 20
  {
    var tiers := DiscountTiers;
    assert tiers[1..] == [tiers[1], tiers[2], tiers[3]];
    assert tiers[1..][1..] == [tiers[2], tiers[3]];
    assert tiers[1..][1..][1..] == [tiers[3]];
    assert tiers[1..][1..][1..][1..] == [];
  }

  /** A larger volume never gets a smaller discount. */
  lemma DiscountMonotone(a: real, b: real)
    requires a <= b
    ensures VolumeDiscount(a) <= VolumeDiscount(b)
  {
    DiscountByVolume(a);
    DiscountByVolume(b);
  }

  // ---------- storage shares ----------

  /** Shares of the hot, warm, cold and archive tiers, in tenths of the data. */
  datatype Shares = Shares(hot: int, warm: int, cold: int, archive: int)

  function Sum(s: Shares): int {
    s.hot + s.warm + s.cold + s.archive
  }

  /** The shares chosen by the retention band (days): <= 7, <= 30, <= 90, longer. */
  function RetentionShares(retentionPeriod: real): (s: Shares)
    ensures s.hot + s.warm + s.cold + s.archive == 10
    ensures s.hot >= 1 && s.warm >= 2 && s.cold >= 1 && s.archive >= 0
  {
    if retentionPeriod <= 7.0 then Shares(6, 3, 1, 0)
    else if retentionPeriod <= 30.0 then Shares(3, 4, 2, 1)
    else if retentionPeriod <= 90.0 then Shares(2, 3, 3, 2)
    else Shares(1, 2, 3, 4)
  }

  /** Longer retention moves data from hot storage towards the archive. */
  lemma RetentionShiftsToArchive(shorter: real, longer: real)
    requires shorter <= longer
    ensures RetentionShares(shorter).hot >= RetentionShares(longer).hot
    ensures RetentionShares(shorter).archive <= RetentionShares(longer).archive
  {
  }

  /** The change, in tenths, that a recovery time objective makes to the shares. */
  function RtoAdjustment(rto: string): (d: Shares)
    ensures d.hot + d.warm + d.cold + d.archive == 0
    ensures d.hot >= 0 && d.warm >= 0 && d.cold <= 0 && d.archive <= 0
  {
    if rto == "0h" || rto == "1h" then Shares(2, 1, -1, -2)
    else if rto == "4h" then Shares(1, 1, -1, -1)
    else Shares(0, 0, 0, 0)
  }

  /** Only "0h", "1h" and "4h" shift the shares; the two fastest shift them alike. */
  lemma RtoAdjustmentCases(rto: string)
    ensures rto != "0h" && rto != "1h" && rto != "4h" ==> RtoAdjustment(rto) == Shares(0, 0, 0, 0)
    ensures RtoAdjustment("0h") == RtoAdjustment("1h") == Shares(2, 1, -1, -2)
    ensures RtoAdjustment("4h") == Shares(1, 1, -1, -1)
  {
  }

  function Max0(n: int): (m: int)
    ensures m >= 0 && m >= n && (m == 0 || m == n)
  {
    if n < 0 then 0 else n
  }

  /**
   * The shares of `calculateStorageDistribution` before the normalisation:
   * the retention band's shares, shifted by the RTO, with cold and archive
   * clamped at 0.
   */
  function Distribution(retentionPeriod: real, rto: string): Shares {
    var base, adjust := RetentionShares(retentionPeriod), RtoAdjustment(rto);
    Shares(base.hot + adjust.hot, base.warm + adjust.warm,
      Max0(base.cold + adjust.cold), Max0(base.archive + adjust.archive))
  }

  /**
   * Every share ends non-negative, hot and warm at least a tenth, and the
   * total between 10 and 12 tenths, so the normalising division is by a
   * positive number.
   */
  lemma DistributionBounds(retentionPeriod: real, rto: string)
    ensures var s := Distribution(retentionPeriod, rto);
      s.hot >= 1 && s.warm >= 1 && s.cold >= 0 && s.archive >= 0 && 10 <= Sum(s) <= 12
  {
    var base, adjust := RetentionShares(retentionPeriod), RtoAdjustment(rto);
    ClampedTotal(retentionPeriod, rto);
    assert base.archive + adjust.archive >= -2;
  }

  /** The clamped total exceeds 10 tenths by exactly the archive deficit. */
  lemma ClampedTotal(retentionPeriod: real, rto: string)
    ensures var archive := RetentionShares(retentionPeriod).archive + RtoAdjustment(rto).archive;
      Sum(Distribution(retentionPeriod, rto)) == 10 + Max0(archive) - archive
  {
    var base, adjust := RetentionShares(retentionPeriod), RtoAdjustment(rto);
    ColdNeverClamped(retentionPeriod, rto);
    assert Sum(base) + Sum(adjust) == 10;
  }

  /** The cold clamp never takes effect: cold storage is at least a tenth before any shift. */
  lemma ColdNeverClamped(retentionPeriod: real, rto: string)
    ensures RetentionShares(retentionPeriod).cold + RtoAdjustment(rto).cold >= 0
  {
  }

  /**
   * The archive clamp takes effect exactly for a retention up to 7 days with
   * an RTO of 0h, 1h or 4h, and for a retention of 8 to 30 days with 0h or 1h;
   * only then do the shares total more than 10 tenths.
   */
  lemma ArchiveClampCases(retentionPeriod: real, rto: string)
    ensures var clamped := RetentionShares(retentionPeriod).archive + RtoAdjustment(rto).archive < 0;
      clamped <==> ((retentionPeriod <= 7.0 && (rto == "0h" || rto == "1h" || rto == "4h"))
        || (7.0 < retentionPeriod <= 30.0 && (rto == "0h" || rto == "1h")))
    ensures Sum(Distribution(retentionPeriod, rto)) > 10 <==>
      RetentionShares(retentionPeriod).archive + RtoAdjustment(rto).archive < 0
  {
    ClampedTotal(retentionPeriod, rto);
  }

  /** The step-by-step computation of the shares, as `calculateStorageDistribution` does it. */
  method StorageShares(retentionPeriod: real, rto: string) returns (s: Shares)
    ensures s == Distribution(retentionPeriod, rto)
    ensures s.hot >= 1 && s.warm >= 1 && s.cold >= 0 && s.archive >= 0 && 10 <= Sum(s) <= 12
  {
    var hot, warm, cold, archive := 3, 3, 3, 1;
    if retentionPeriod <= 7.0 {
      hot, warm, cold, archive := 6, 3, 1, 0;
    } else if retentionPeriod <= 30.0 {
      hot, warm, cold, archive := 3, 4, 2, 1;
    } else if retentionPeriod <= 90.0 {
      hot, warm, cold, archive := 2, 3, 3, 2;
    } else {
      hot, warm, cold, archive := 1, 2, 3, 4;
    }
    if rto == "0h" || rto == "1h" {
      hot := hot + 2;
      warm := warm + 1;
      cold := cold - 1;
      archive := archive - 2;
    } else if rto == "4h" {
      hot := hot + 1;
      warm := warm + 1;
      cold := cold - 1;
      archive := archive - 1;
    }
    archive := Max0(archive);
    cold := Max0(cold);
    s := Shares(hot, warm, cold, archive);
    DistributionBounds(retentionPeriod, rto);
  }

  // ---------- backup frequency ----------

  /** `rpoToBackupFrequency`: backups per day for each recovery point objective. */
  const RpoToBackupFrequency: map<string, int> :=
    map["24h" := 1, "12h" := 2, "6h" := 4, "1h" := 24, "15m" := 96, "5m" := 288, "0m" := 8640]

  /** The recovery point objectives, longest first. */
  const RpoOptions: seq<string> := ["24h", "12h", "6h", "1h", "15m", "5m", "0m"]

  /** The interval, in seconds, that each objective stands for ("0m" is every 10 seconds). */
  const RpoSeconds: seq<int> := [86400, 43200, 21600, 3600, 900, 300, 10]

  /** Every option has a frequency, the frequencies rise strictly as the objective shortens, and each is one backup per interval of the day. */
  lemma BackupFrequencies()
    ensures forall k :: 0 <= k < |RpoOptions| ==> RpoOptions[k] in RpoToBackupFrequency
    ensures RpoToBackupFrequency.Keys == set k | 0 <= k < |RpoOptions| :: RpoOptions[k]
    ensures forall k, l :: 0 <= k < l < |RpoOptions| ==>
      RpoToBackupFrequency[RpoOptions[k]] < RpoToBackupFrequency[RpoOptions[l]]
    ensures forall k :: 0 <= k < |RpoOptions| ==> RpoToBackupFrequency[RpoOptions[k]] * RpoSeconds[k] == 86400
  {
    var options := RpoOptions;
    assert options == ["24h", "12h", "6h", "1h", "15m", "5m", "0m"];
    assert (set k | 0 <= k < |options| :: options[k]) == {"24h", "12h", "6h", "1h", "15m", "5m", "0m"} by {
      assert options[0] == "24h" && options[1] == "12h" && options[2] == "6h" && options[3] == "1h";
      assert options[4] == "15m" && options[5] == "5m" && options[6] == "0m";
    }
  }

  // ---------- cost components ----------

  /** The keys of the include switches, in the order the components are listed. */
  const IncludeKeys: seq<string> := ["storage", "backup", "recovery", "network", "support"]

  /** The names of the five components, in the same order. */
  const ItemNames: seq<string> :=
    ["Storage Costs", "Backup Processing", "Recovery Infrastructure", "Network Costs", "Support & Maintenance"]

  /** `includeCost[key]`; a key that was never set reads as false. */
  function Included(includeCost: map<string, bool>, key: string): bool {
    key in includeCost && includeCost[key]
  }

  /** The switch of an item derives its key from the name's first word, lower-cased. */
  function SwitchKey(name: string): string {
    Split(ToLower(name), ' ')[0]
  }

  /** A name whose first word lowers, letter by letter, to `key` has the switch key `key`. */
  lemma KeyFromName(name: string, key: string)
    requires |key| < |name| && name[|key|] == ' '
    requires forall i :: 0 <= i < |key| ==> LowerChar(name[i]) == key[i] && key[i] != ' '
    ensures SwitchKey(name) == key
  {
    var low := ToLower(name);
    assert low[|key|] == ' ';
    var i := IndexOf(low, ' ');
    assert i == |key|;
    assert low[..i] == key;
  }

  lemma StorageSwitchKey()
    ensures SwitchKey(ItemNames[0]) == IncludeKeys[0]
  {
    KeyFromName(ItemNames[0], IncludeKeys[0]);
  }

  lemma BackupSwitchKey()
    ensures SwitchKey(ItemNames[1]) == IncludeKeys[1]
  {
    KeyFromName(ItemNames[1], IncludeKeys[1]);
  }

  lemma RecoverySwitchKey()
    ensures SwitchKey(ItemNames[2]) == IncludeKeys[2]
  {
    KeyFromName(ItemNames[2], IncludeKeys[2]);
  }

  lemma NetworkSwitchKey()
    ensures SwitchKey(ItemNames[3]) == IncludeKeys[3]
  {
    KeyFromName(ItemNames[3], IncludeKeys[3]);
  }

  lemma SupportSwitchKey()
    ensures SwitchKey(ItemNames[4]) == IncludeKeys[4]
  {
    KeyFromName(ItemNames[4], IncludeKeys[4]);
  }

  /** Each item's switch toggles exactly the include key that the item reads. */
  lemma SwitchKeyMatches(k: nat)
    requires k < |ItemNames|
    ensures SwitchKey(ItemNames[k]) == IncludeKeys[k]
  {
    if k == 0 {
      StorageSwitchKey();
    } else if k == 1 {
      BackupSwitchKey();
    } else if k == 2 {
      RecoverySwitchKey();
    } else if k == 3 {
      NetworkSwitchKey();
    } else {
      SupportSwitchKey();
    }
  }

  /** The monthly base cost of each component, computed by formulas outside this model. */
  datatype ComponentCosts = ComponentCosts(storage: real, backup: real, recovery: real, network: real, support: real)

  function BaseOf(costs: ComponentCosts, k: nat): real
    requires k < 5
  {
    match k
    case 0 => costs.storage
    case 1 => costs.backup
    case 2 => costs.recovery
    case 3 => costs.network
    case _ => costs.support
  }

  datatype CostItem = CostItem(name: string, baseMonthly: real, baseYearly: real, value: real, enabled: bool)

  /** One line of the breakdown: its value is its base cost when included and 0 otherwise. */
  function Item(includeCost: map<string, bool>, costs: ComponentCosts, k: nat): (item: CostItem)
    requires k < 5
    ensures item.name == ItemNames[k] && item.enabled == Included(includeCost, IncludeKeys[k])
    ensures item.value == if item.enabled then BaseOf(costs, k) else 0.0
    ensures item.baseYearly == 12.0 * item.baseMonthly
  {
    var base := BaseOf(costs, k);
    var enabled := Included(includeCost, IncludeKeys[k]);
    CostItem(ItemNames[k], base, base * 12.0, if enabled then base else 0.0, enabled)
  }

  /** The five lines of the breakdown, in order. */
  function CostItems(includeCost: map<string, bool>, costs: ComponentCosts): (items: seq<CostItem>)
    ensures |items| == 5 && forall k :: 0 <= k < 5 ==> items[k] == Item(includeCost, costs, k)
  {
    [Item(includeCost, costs, 0), Item(includeCost, costs, 1), Item(includeCost, costs, 2),
     Item(includeCost, costs, 3), Item(includeCost, costs, 4)]
  }

  /** `costItems.reduce((sum, item) => sum + item.value, 0)`. */
  function MonthlyTotal(items: seq<CostItem>): real {
    if items == [] then 0.0 else MonthlyTotal(items[..|items| - 1]) + items[|items| - 1].value
  }

  /** The base cost of component `k` if it is included, else 0. */
  function Contribution(includeCost: map<string, bool>, costs: ComponentCosts, k: nat): real
    requires k < 5
  {
    if Included(includeCost, IncludeKeys[k]) then BaseOf(costs, k) else 0.0
  }

  /** The monthly sum counts exactly the included components. */
  lemma MonthlyTotalOfIncluded(includeCost: map<string, bool>, costs: ComponentCosts)
    ensures MonthlyTotal(CostItems(includeCost, costs)) ==
      Contribution(includeCost, costs, 0) + Contribution(includeCost, costs, 1) + Contribution(includeCost, costs, 2)
      + Contribution(includeCost, costs, 3) + Contribution(includeCost, costs, 4)
  {
    var items := CostItems(includeCost, costs);
    assert items[..4][..3] == items[..3];
    assert items[..3][..2] == items[..2];
    assert items[..2][..1] == items[..1];
    assert items[..1][..0] == [];
    assert MonthlyTotal(items[..1]) == items[0].value;
    assert MonthlyTotal(items[..2]) == items[0].value + items[1].value;
    assert MonthlyTotal(items[..3]) == items[0].value + items[1].value + items[2].value;
    assert MonthlyTotal(items[..4]) == items[0].value + items[1].value + items[2].value + items[3].value;
  }

  /** Switching one component off lowers the monthly sum by exactly its contribution. */
  lemma SwitchOffRemovesContribution(includeCost: map<string, bool>, costs: ComponentCosts, k: nat)
    requires k < 5
    ensures MonthlyTotal(CostItems(includeCost[IncludeKeys[k] := false], costs)) ==
      MonthlyTotal(CostItems(includeCost, costs)) - Contribution(includeCost, costs, k)
  {
    var off := includeCost[IncludeKeys[k] := false];
    MonthlyTotalOfIncluded(includeCost, costs);
    MonthlyTotalOfIncluded(off, costs);
    var keys := IncludeKeys;
    assert forall j :: 0 <= j < 5 && j != k ==> keys[j] != keys[k];
    assert forall j :: 0 <= j < 5 && j != k ==> Contribution(off, costs, j) == Contribution(includeCost, costs, j);
  }

  /** With every switch off nothing is charged. */
  lemma NothingIncludedCostsNothing(includeCost: map<string, bool>, costs: ComponentCosts)
    requires forall k :: 0 <= k < 5 ==> !Included(includeCost, IncludeKeys[k])
    ensures MonthlyTotal(CostItems(includeCost, costs)) == 0.0
  {
    MonthlyTotalOfIncluded(includeCost, costs);
  }

  // ---------- storage cost ----------

  /** One storage tier of the breakdown: amount in GB and price per GB per month. */
  datatype StorageCost = StorageCost(tier: string, costPerGB: real, amount: real)

  function StorageCostSum(details: seq<StorageCost>): real {
    if details == [] then 0.0
    else StorageCostSum(details[..|details| - 1]) + details[|details| - 1].amount * details[|details| - 1].costPerGB
  }

  /** The `forEach` that totals amount times price over the storage tiers. */
  method TotalStorageCost(details: seq<StorageCost>) returns (total: real)
    ensures total == StorageCostSum(details)
  {
    total := 0.0;
    var i := 0;
    while i < |details|
      invariant 0 <= i <= |details|
      invariant total == StorageCostSum(details[..i])
    {
      assert details[..i + 1][..i] == details[..i];
      total := total + details[i].amount * details[i].costPerGB;
      i := i + 1;
    }
    assert details[..|details|] == details;
  }

  /** Non-negative amounts at non-negative prices cost a non-negative sum. */
  lemma {:induction false} StorageCostNonNegative(details: seq<StorageCost>)
    requires forall i :: 0 <= i < |details| ==> details[i].amount >= 0.0 && details[i].costPerGB >= 0.0
    ensures StorageCostSum(details) >= 0.0
  {
    if details != [] {
      var init := details[..|details| - 1];
      assert forall i :: 0 <= i < |init| ==> init[i] == details[i];
      StorageCostNonNegative(init);
      var last := details[|details| - 1];
      assert last.amount * last.costPerGB >= 0.0;
    }
  }

  // ---------- the calculator's inputs ----------

  /** The inputs of the calculator that its handlers update. */
  class Calculator {
    var dataVolume: real
    var retentionPeriod: real
    var rpo: string
    var rto: string
    var backupType: string
    var region: string
    var includeCost: map<string, bool>

    /** The include record always has exactly the five component keys. */
    ghost predicate Valid()
      reads this
    {
      includeCost.Keys == set k | 0 <= k < |IncludeKeys| :: IncludeKeys[k]
    }

    constructor ()
      ensures Valid()
      ensures dataVolume == 1000.0 && retentionPeriod == 30.0 && rpo == "24h" && rto == "8h"
      ensures backupType == "hybrid" && region == "us-east"
      ensures forall k :: 0 <= k < |IncludeKeys| ==> Included(includeCost, IncludeKeys[k])
    {
      dataVolume, retentionPeriod, rpo, rto := 1000.0, 30.0, "24h", "8h";
      backupType, region := "hybrid", "us-east";
      includeCost := map["storage" := true, "backup" := true, "recovery" := true, "network" := true, "support" := true];
      new;
      var keys := IncludeKeys;
      assert keys == ["storage", "backup", "recovery", "network", "support"];
      assert (set k | 0 <= k < |keys| :: keys[k]) == {"storage", "backup", "recovery", "network", "support"} by {
        assert keys[0] == "storage" && keys[1] == "backup" && keys[2] == "recovery";
        assert keys[3] == "network" && keys[4] == "support";
      }
    }

    /** `handleIncludeCostChange`: only the given key changes. */
    method HandleIncludeCostChange(key: string, checked: bool)
      modifies this`includeCost
      ensures includeCost == old(includeCost)[key := checked]
      ensures forall k :: k in old(includeCost) && k != key ==> k in includeCost && includeCost[k] == old(includeCost)[k]
    {
      includeCost := includeCost[key := checked];
    }

    /** The switch of breakdown line `k` sets that line's own include key and keeps the record valid. */
    method ToggleItemSwitch(k: nat, checked: bool)
      requires Valid() && k < |ItemNames|
      modifies this`includeCost
      ensures Valid()
      ensures includeCost == old(includeCost)[IncludeKeys[k] := checked]
      ensures Included(includeCost, IncludeKeys[k]) == checked
    {
      SwitchKeyMatches(k);
      var key := SwitchKey(ItemNames[k]);
      HandleIncludeCostChange(key, checked);
    }
  }
}
