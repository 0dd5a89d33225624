/** Stored pricing configs, and the service-fee terms resolved from them one ride or many at a time. */
module PricingConfigs {
  import opened Money
  import opened Queries
  import Tables
  import opened Pricing

  type Ride = nat
  type Region = nat

  const DEFAULT_REGION: Region := 0

  /** A row; `seeded` marks the one that carries the fixed identifier of the default config. */
  datatype Config = Config(
    region: Region, rates: Rates, feePercent: real, feeFlat: real,
    active: bool, validFrom: int, validTo: Option<int>, seeded: bool)

  const DEFAULT_RATES := Rates(0.06, 0.08, 0.12, 3.0, NearestEuro)
  const DEFAULT_FEE_PERCENT := 20.0
  const DEFAULT_FEE_FLAT := 0.0

  /** The table in creation order. */
  type Configs = seq<Config>

  // ---------------------------------------------------------------------------------------------
  // Writes
  // ---------------------------------------------------------------------------------------------

  /** Deactivates the active rows of a region, except possibly one. */
  function Deactivate(configs: Configs, region: Region, except: Option<nat>, validTo: int): Configs {
    seq(|configs|, i requires 0 <= i < |configs| =>
      if configs[i].region == region && configs[i].active && except != Some(i)
      then configs[i].(active := false, validTo := Some(validTo)) else configs[i])
  }

  datatype Input = Input(region: Region, rates: Rates, feePercent: real, feeFlat: real,
                         active: Option<bool>, validFrom: Option<int>, validTo: Option<int>)

  /** `createPricingConfig`; bad bounds throw before anything is written. */
  function Create(configs: Configs, input: Input, now: int): Configs {
    if !OrderedRates(input.rates) then configs
    else
      var from := input.validFrom.GetOr(now);
      var activate := input.active.GetOr(true);
      var others := if activate then Deactivate(configs, input.region, None, from) else configs;
      others + [Config(input.region, input.rates, input.feePercent, input.feeFlat, activate, from,
                       if activate then None else input.validTo, false)]
  }

  /** The fields an update carries; the rates are given one by one. */
  datatype Patch = Patch(
    region: Option<Region>, minRate: Option<real>, recommendedRate: Option<real>, maxRate: Option<real>,
    minimumSeatPrice: Option<real>, strategy: Option<Strategy>, feePercent: Option<real>, feeFlat: Option<real>,
    active: Option<bool>, validFrom: Option<int>, validTo: Option<Option<int>>)

  function Patched(c: Config, p: Patch): Config {
    Config(
      p.region.GetOr(c.region),
      Rates(p.minRate.GetOr(c.rates.minRate), p.recommendedRate.GetOr(c.rates.recommendedRate),
            p.maxRate.GetOr(c.rates.maxRate), p.minimumSeatPrice.GetOr(c.rates.minimumSeatPrice),
            p.strategy.GetOr(c.rates.strategy)),
      p.feePercent.GetOr(c.feePercent), p.feeFlat.GetOr(c.feeFlat),
      p.active.GetOr(c.active), p.validFrom.GetOr(c.validFrom),
      if p.active == Some(true) then None else p.validTo.GetOr(c.validTo),
      c.seeded)
  }

  /** `updatePricingConfig`; an unknown row or bad bounds throw before anything is written. */
  function Update(configs: Configs, id: nat, p: Patch): Configs {
    if id >= |configs| then configs
    else
      var next := Patched(configs[id], p);
      if !OrderedRates(next.rates) then configs
      else
        var others := if next.active then Deactivate(configs, next.region, Some(id), next.validFrom) else configs;
        others[id := next]
  }

  /** The first row of the default region: active before inactive, then latest start, then latest created. */
  function FirstDefault(configs: Configs): Option<Config> {
    if configs == [] then None
    else
      var last := configs[|configs| - 1];
      var before := FirstDefault(configs[..|configs| - 1]);
      if last.region != DEFAULT_REGION then before
      else if before.None? then Some(last)
      else
        var b := before.value;
        if b.active != last.active then (if b.active then before else Some(last))
        else if b.validFrom > last.validFrom then before
        else Some(last)
  }

  function DefaultConfig(now: int): Config {
    Config(DEFAULT_REGION, DEFAULT_RATES, DEFAULT_FEE_PERCENT, DEFAULT_FEE_FLAT, true, now, None, true)
  }

  /** The fixed identifier is taken, so a second default row would violate the primary key. */
  predicate HasSeeded(configs: Configs) {
    exists i | 0 <= i < |configs| :: configs[i].seeded
  }

  /** `ensureDefaultPricingConfig`. */
  function EnsureDefault(configs: Configs, now: int): Configs {
    if FirstDefault(configs).Some? || HasSeeded(configs) then configs else configs + [DefaultConfig(now)]
  }

  // ---------------------------------------------------------------------------------------------
  // Every stored config gives an ordered band
  // ---------------------------------------------------------------------------------------------

  datatype Step = Creates(input: Input, now: int) | Updates(id: nat, patch: Patch) | Seeds(now: int)

  function Apply(configs: Configs, step: Step): Configs {
    match step
    case Creates(input, now) => Create(configs, input, now)
    case Updates(id, patch) => Update(configs, id, patch)
    case Seeds(now) => EnsureDefault(configs, now)
  }

  function Run(configs: Configs, steps: seq<Step>): Configs
    decreases |steps|
  {
    if steps == [] then configs else Run(Apply(configs, steps[0]), steps[1..])
  }

  /** At most one active row a region and one seeded row, and ordered rates everywhere. */
  predicate Consistent(configs: Configs) {
    && (forall i | 0 <= i < |configs| :: OrderedRates(configs[i].rates))
    && (forall i, j | 0 <= i < j < |configs| && configs[i].active && configs[j].active ::
          configs[i].region != configs[j].region)
    && (forall i, j | 0 <= i < j < |configs| :: !(configs[i].seeded && configs[j].seeded))
  }

  lemma {:induction false} NoDefaultRow(configs: Configs, i: nat)
    requires FirstDefault(configs).None? && i < |configs|
    ensures configs[i].region != DEFAULT_REGION
  {
    if i < |configs| - 1 {
      NoDefaultRow(configs[..|configs| - 1], i);
    }
  }

  lemma CreateKeepsConsistent(configs: Configs, input: Input, now: int)
    requires Consistent(configs)
    ensures Consistent(Create(configs, input, now))
  {
  }

  lemma UpdateKeepsConsistent(configs: Configs, id: nat, patch: Patch)
    requires Consistent(configs)
    ensures Consistent(Update(configs, id, patch))
  {
  }

  lemma SeedKeepsConsistent(configs: Configs, now: int)
    requires Consistent(configs)
    ensures Consistent(EnsureDefault(configs, now))
  {
    if FirstDefault(configs).None? {
      forall i | 0 <= i < |configs| ensures configs[i].region != DEFAULT_REGION {
        NoDefaultRow(configs, i);
      }
    }
  }

  lemma StepKeepsConsistent(configs: Configs, step: Step)
    requires Consistent(configs)
    ensures Consistent(Apply(configs, step))
  {
    match step
    case Creates(input, now) => CreateKeepsConsistent(configs, input, now);
    case Updates(id, patch) => UpdateKeepsConsistent(configs, id, patch);
    case Seeds(now) => SeedKeepsConsistent(configs, now);
  }

  /**
   * After any run of creations, updates and seedings no region has two active configs, the fixed
   * identifier is used once at most, and every stored config gives an ordered band at every distance.
   */
  lemma {:induction false} StoredConfigsGiveOrderedBands(configs: Configs, steps: seq<Step>)
    requires Consistent(configs)
    ensures Consistent(Run(configs, steps))
    ensures forall i, distance: real | 0 <= i < |Run(configs, steps)| && 0.0 <= distance ::
      var c := Run(configs, steps)[i].rates;
      var p := CalculatePrice(distance, c);
      c.minimumSeatPrice <= p.minAllowed <= p.recommended <= p.maxAllowed
    decreases |steps|
  {
    if steps == [] {
      forall i, distance: real | 0 <= i < |configs| && 0.0 <= distance
        ensures var c := configs[i].rates;
                var p := CalculatePrice(distance, c);
                c.minimumSeatPrice <= p.minAllowed <= p.recommended <= p.maxAllowed
      {
        BandIsOrdered(distance, configs[i].rates);
      }
    } else {
      StepKeepsConsistent(configs, steps[0]);
      StoredConfigsGiveOrderedBands(Apply(configs, steps[0]), steps[1..]);
    }
  }

  // ---------------------------------------------------------------------------------------------
  // Fee terms
  // ---------------------------------------------------------------------------------------------

  datatype Source = Snapshot | ActiveConfig | Default

  datatype FeeTerms = FeeTerms(percent: real, flat: real, source: Source)

  predicate IsLive(c: Config, region: Region, now: int) {
    && c.region == region && c.active && c.validFrom <= now
    && (c.validTo.None? || c.validTo.value > now)
  }

  /** `getActivePricingConfig`: the live row that started last. */
  function LiveConfig(configs: Configs, region: Region, now: int): Option<Config> {
    if configs == [] then None
    else
      var last := configs[|configs| - 1];
      var before := LiveConfig(configs[..|configs| - 1], region, now);
      if IsLive(last, region, now) && (before.None? || before.value.validFrom <= last.validFrom) then Some(last)
      else before
  }

  /** Rows a rider is priced by at a time. */
  predicate InForce(c: Config, region: Region, now: int) {
    c.region == region && c.active && c.validFrom <= now && (c.validTo == None || now < c.validTo.value)
  }

  /**
   * Which row prices a region: the one in force that started last, the later created of two that
   * started together; none exactly when none is in force.
   */
  lemma {:induction false} LiveIsTheLatest(configs: Configs, region: Region, now: int)
    ensures
      var live := LiveConfig(configs, region, now);
      if live == None then forall i | 0 <= i < |configs| :: !InForce(configs[i], region, now)
      else exists i | 0 <= i < |configs| ::
        && configs[i] == live.value && InForce(configs[i], region, now)
        && forall j | 0 <= j < |configs| && InForce(configs[j], region, now) ::
             configs[j].validFrom < configs[i].validFrom || (configs[j].validFrom == configs[i].validFrom && j <= i)
  {
    if configs != [] {
      var front, last := configs[..|configs| - 1], configs[|configs| - 1];
      LiveIsTheLatest(front, region, now);
      var before := LiveConfig(front, region, now);
      if IsLive(last, region, now) && (before.None? || before.value.validFrom <= last.validFrom) {
        assert configs[|configs| - 1] == last;
        forall j | 0 <= j < |configs| && InForce(configs[j], region, now)
          ensures configs[j].validFrom <= last.validFrom
        {
          assert j < |configs| - 1 ==> front[j] == configs[j];
        }
      } else if before.Some? {
        var i :| && 0 <= i < |front| && front[i] == before.value && InForce(front[i], region, now)
                 && forall j | 0 <= j < |front| && InForce(front[j], region, now) ::
                      front[j].validFrom < front[i].validFrom || (front[j].validFrom == front[i].validFrom && j <= i);
        assert configs[i] == front[i];
        assert forall j | 0 <= j < |front| :: configs[j] == front[j];
      } else {
        assert forall j | 0 <= j < |front| :: configs[j] == front[j];
      }
    }
  }

  /** The rank of a default row: active ones first, then by start, then by creation. */
  predicate Precedes(a: Config, b: Config, later: bool) {
    if a.active != b.active then a.active
    else a.validFrom > b.validFrom || (a.validFrom == b.validFrom && later)
  }

  /** The default row is the first in that order of all rows of the default region. */
  lemma {:induction false} DefaultIsTheFirst(configs: Configs)
    ensures
      var first := FirstDefault(configs);
      if first == None then forall i | 0 <= i < |configs| :: configs[i].region != 0
      else exists i | 0 <= i < |configs| ::
        && configs[i] == first.value && configs[i].region == 0
        && forall j | 0 <= j < |configs| && configs[j].region == 0 && j != i :: Precedes(configs[i], configs[j], j < i)
  {
    if configs != [] {
      var front, last := configs[..|configs| - 1], configs[|configs| - 1];
      DefaultIsTheFirst(front);
      var before := FirstDefault(front);
      assert forall j | 0 <= j < |front| :: configs[j] == front[j];
      if before.Some? {
        var i :| && 0 <= i < |front| && front[i] == before.value && front[i].region == 0
                 && forall j | 0 <= j < |front| && front[j].region == 0 && j != i ::
                      Precedes(front[i], front[j], j < i);
        assert configs[i] == front[i];
        if FirstDefault(configs) != before {
          assert configs[|configs| - 1] == last;
        }
      } else if last.region == 0 {
        assert configs[|configs| - 1] == last;
      }
    }
  }

  /**
   * A new active config takes its region over: from its start on it alone prices the region, and the
   * row it replaces ends where it starts. No other region changes.
   */
  lemma NewConfigTakesOver(configs: Configs, input: Input, now: int, later: int)
    requires Consistent(configs) && OrderedRates(input.rates) && input.active != Some(false)
    requires input.validFrom.GetOr(now) <= later
    ensures
      var configs', from := Create(configs, input, now), input.validFrom.GetOr(now);
      && LiveConfig(configs', input.region, later)
         == Some(Config(input.region, input.rates, input.feePercent, input.feeFlat, true, from, None, false))
      && |configs'| == |configs| + 1
      && forall i | 0 <= i < |configs| ::
           configs'[i] == if configs[i].active && configs[i].region == input.region
                          then configs[i].(active := false, validTo := Some(from)) else configs[i]
  {
    var configs' := Create(configs, input, now);
    LiveIsTheLatest(configs', input.region, later);
    assert InForce(configs'[|configs|], input.region, later);
  }

  /** A new config that is not active prices nothing yet: it is stored as given, and every other row stays. */
  lemma InactiveConfigWaits(configs: Configs, input: Input, now: int, region: Region, later: int)
    requires OrderedRates(input.rates) && input.active == Some(false)
    ensures
      var configs' := Create(configs, input, now);
      && configs' == configs + [Config(input.region, input.rates, input.feePercent, input.feeFlat, false,
                                       input.validFrom.GetOr(now), input.validTo, false)]
      && LiveConfig(configs', region, later) == LiveConfig(configs, region, later)
  {
    assert Create(configs, input, now)[..|configs|] == configs;
  }

  /**
   * A published ride keeps the fee it was published with, whatever is configured afterwards; any other
   * ride pays what a ride without a snapshot pays at that moment.
   */
  lemma PublishedFeeIsFrozen(configs: Configs, steps: seq<Step>, snapshots: Snapshots, ride: Ride, now: int)
    ensures
      var terms := RideFeeTerms(Run(configs, steps), snapshots, ride, now);
      if ride in snapshots then
        && terms.source == Snapshot && (terms.percent, terms.flat) == snapshots[ride]
        && terms == RideFeeTerms(configs, snapshots, ride, now)
      else terms == ActiveFeeTerms(Run(configs, steps), now) && terms.source != Snapshot
  {
  }

  /**
   * An update changes the fields it names on its own row alone; a row that is active afterwards ends the
   * other active row of its region where it starts.
   */
  lemma UpdateTakesOver(configs: Configs, id: nat, p: Patch)
    requires id < |configs| && Update(configs, id, p) != configs
    ensures
      var configs', row, c := Update(configs, id, p), configs[id], Update(configs, id, p)[id];
      && |configs'| == |configs| && OrderedRates(c.rates) && c.seeded == row.seeded
      && c.region == p.region.GetOr(row.region) && c.active == p.active.GetOr(row.active)
      && c.validFrom == p.validFrom.GetOr(row.validFrom)
      && c.validTo == (if p.active == Some(true) then None else p.validTo.GetOr(row.validTo))
      && (p.minRate == None ==> c.rates.minRate == row.rates.minRate)
      && (p.minRate != None ==> Some(c.rates.minRate) == p.minRate)
      && (p.recommendedRate == None ==> c.rates.recommendedRate == row.rates.recommendedRate)
      && (p.recommendedRate != None ==> Some(c.rates.recommendedRate) == p.recommendedRate)
      && (p.maxRate == None ==> c.rates.maxRate == row.rates.maxRate)
      && (p.maxRate != None ==> Some(c.rates.maxRate) == p.maxRate)
      && c.rates.minimumSeatPrice == p.minimumSeatPrice.GetOr(row.rates.minimumSeatPrice)
      && c.rates.strategy == p.strategy.GetOr(row.rates.strategy)
      && c.feePercent == p.feePercent.GetOr(row.feePercent) && c.feeFlat == p.feeFlat.GetOr(row.feeFlat)
      && forall i | 0 <= i < |configs| && i != id ::
           configs'[i] == if c.active && configs[i].active && configs[i].region == c.region
                          then configs[i].(active := false, validTo := Some(c.validFrom)) else configs[i]
  {
  }

  /** Without a row to go by, a ride costs the compiled-in twenty percent and no flat fee. */
  lemma DefaultTerms(now: int)
    ensures ActiveFeeTerms([], now) == FeeTerms(20.0, 0.0, Default)
    ensures AfterFallback([], now)
         == [Config(0, Rates(0.06, 0.08, 0.12, 3.0, NearestEuro), 20.0, 0.0, true, now, None, true)]
  {
    LiveAppend([], now);
  }

  /** `resolveActiveFeeTerms` for the default region. */
  function ActiveFeeTerms(configs: Configs, now: int): FeeTerms {
    var live := LiveConfig(configs, DEFAULT_REGION, now);
    if live.Some? then FeeTerms(live.value.feePercent, live.value.feeFlat, ActiveConfig)
    else
      var ensured := FirstDefault(EnsureDefault(configs, now));
      if ensured.Some? then FeeTerms(ensured.value.feePercent, ensured.value.feeFlat, Default)
      else FeeTerms(DEFAULT_FEE_PERCENT, DEFAULT_FEE_FLAT, Default)
  }

  /** The table after `resolveActiveFeeTerms`, which seeds the default row when no config is live. */
  function AfterFallback(configs: Configs, now: int): Configs {
    if LiveConfig(configs, DEFAULT_REGION, now).Some? then configs else EnsureDefault(configs, now)
  }

  type Snapshots = map<Ride, (real, real)>

  /** `resolveRideFeeTerms`. */
  function RideFeeTerms(configs: Configs, snapshots: Snapshots, ride: Ride, now: int): FeeTerms {
    if ride in snapshots then FeeTerms(snapshots[ride].0, snapshots[ride].1, Snapshot)
    else ActiveFeeTerms(configs, now)
  }

  lemma LiveAppend(configs: Configs, now: int)
    requires LiveConfig(configs, DEFAULT_REGION, now).None?
    ensures LiveConfig(configs + [DefaultConfig(now)], DEFAULT_REGION, now) == Some(DefaultConfig(now))
    ensures FirstDefault(configs).None? ==> FirstDefault(configs + [DefaultConfig(now)]) == Some(DefaultConfig(now))
  {
    assert (configs + [DefaultConfig(now)])[..|configs|] == configs;
  }

  /** Asking again after the fallback seeded its row gives the same fee. */
  lemma FallbackIsStable(configs: Configs, now: int)
    ensures
      var first, again := ActiveFeeTerms(configs, now), ActiveFeeTerms(AfterFallback(configs, now), now);
      again.percent == first.percent && again.flat == first.flat
  {
    if LiveConfig(configs, DEFAULT_REGION, now).None? {
      LiveAppend(configs, now);
    }
  }

  /** Distinct keys drawn from a list can be as many as the list is long only if they are all of it. */
  lemma {:induction false} Pigeonhole(keys: set<Ride>, rides: seq<Ride>)
    requires (forall k | k in keys :: k in rides) && |keys| >= |rides|
    ensures forall r | r in rides :: r in keys
  {
    if rides != [] {
      var front, last := rides[..|rides| - 1], rides[|rides| - 1];
      assert rides == front + [last];
      if last in keys && last !in front {
        assert |keys - {last}| == |keys| - 1;
        Pigeonhole(keys - {last}, front);
      } else {
        TooManyKeys(keys, front);
      }
    }
  }

  /** More distinct keys than places is impossible. */
  lemma {:induction false} TooManyKeys(keys: set<Ride>, rides: seq<Ride>)
    requires forall k | k in keys :: k in rides
    ensures |keys| <= |rides|
  {
    if rides == [] {
      assert keys == {};
    } else {
      var front, last := rides[..|rides| - 1], rides[|rides| - 1];
      assert rides == front + [last];
      TooManyKeys(keys - {last}, front);
      assert keys <= (keys - {last}) + {last};
    }
  }

  class PricingStore {
    var configs: Configs
    var snapshots: Snapshots

    constructor (snapshots: Snapshots)
      ensures configs == [] && this.snapshots == snapshots
    {
      configs, this.snapshots := [], snapshots;
    }

    method DeactivateActive(region: Region, except: Option<nat>, validTo: int)
      modifies this`configs
      ensures configs == Deactivate(old(configs), region, except, validTo)
    {
      for i := 0 to |configs|
        invariant |configs| == |old(configs)|
        invariant forall k | 0 <= k < |configs| ::
          configs[k] == if k < i then Deactivate(old(configs), region, except, validTo)[k] else old(configs)[k]
      {
        var c := configs[i];
        if c.region == region && c.active && except != Some(i) {
          configs := configs[i := c.(active := false, validTo := Some(validTo))];
        }
      }
    }

    method CreatePricingConfig(input: Input, now: int) returns (ok: bool)
      modifies this`configs
      ensures ok == OrderedRates(input.rates)
      ensures configs == Create(old(configs), input, now)
    {
      var from := input.validFrom.GetOr(now);
      var activate := input.active.GetOr(true);
      if input.rates.minRate > input.rates.recommendedRate || input.rates.recommendedRate > input.rates.maxRate {
        return false;
      }
      if activate {
        DeactivateActive(input.region, None, from);
      }
      configs := configs + [Config(input.region, input.rates, input.feePercent, input.feeFlat, activate, from,
                                   if activate then None else input.validTo, false)];
      return true;
    }

    method UpdatePricingConfig(id: nat, p: Patch) returns (ok: bool)
      modifies this`configs
      ensures ok == (id < |old(configs)| && OrderedRates(Patched(old(configs)[id], p).rates))
      ensures configs == Update(old(configs), id, p)
    {
      if id >= |configs| {
        return false;
      }
      var existing := configs[id];
      var nextMin := p.minRate.GetOr(existing.rates.minRate);
      var nextRecommended := p.recommendedRate.GetOr(existing.rates.recommendedRate);
      var nextMax := p.maxRate.GetOr(existing.rates.maxRate);
      if nextMin > nextRecommended || nextRecommended > nextMax {
        return false;
      }
      if p.active.GetOr(existing.active) {
        DeactivateActive(p.region.GetOr(existing.region), Some(id), p.validFrom.GetOr(existing.validFrom));
      }
      configs := configs[id := Patched(configs[id], p)];
      return true;
    }

    method EnsureDefaultPricingConfig(now: int) returns (ensured: Option<Config>)
      modifies this`configs
      ensures configs == EnsureDefault(old(configs), now)
      ensures ensured == FirstDefault(configs)
    {
      var existing := FirstDefault(configs);
      if existing.Some? {
        return existing;
      }
      if HasSeeded(configs) {
        return None;
      }
      assert (configs + [DefaultConfig(now)])[..|configs|] == configs;
      configs := configs + [DefaultConfig(now)];
      return Some(DefaultConfig(now));
    }

    method ResolveActiveFeeTerms(now: int) returns (terms: FeeTerms)
      modifies this`configs
      ensures terms == ActiveFeeTerms(old(configs), now)
      ensures configs == AfterFallback(old(configs), now)
    {
      var live := LiveConfig(configs, DEFAULT_REGION, now);
      if live.Some? {
        return FeeTerms(live.value.feePercent, live.value.feeFlat, ActiveConfig);
      }
      var ensured := EnsureDefaultPricingConfig(now);
      if ensured.Some? {
        return FeeTerms(ensured.value.feePercent, ensured.value.feeFlat, Default);
      }
      return FeeTerms(DEFAULT_FEE_PERCENT, DEFAULT_FEE_FLAT, Default);
    }

    method ResolveRideFeeTerms(ride: Ride, now: int) returns (terms: FeeTerms)
      modifies this`configs
      ensures terms == RideFeeTerms(old(configs), snapshots, ride, now)
      ensures configs == if ride in snapshots then old(configs) else AfterFallback(old(configs), now)
    {
      if ride in snapshots {
        return FeeTerms(snapshots[ride].0, snapshots[ride].1, Snapshot);
      }
      terms := ResolveActiveFeeTerms(now);
    }

    /** Terms for the rides whose fee was frozen when they were published. */
    method SnapshotTerms(rides: seq<Ride>) returns (terms: map<Ride, FeeTerms>)
      ensures forall r :: r in terms <==> r in rides && r in snapshots
      ensures forall r | r in terms :: terms[r] == FeeTerms(snapshots[r].0, snapshots[r].1, Snapshot)
    {
      terms := map[];
      var found := ListRows(set r | r in rides && r in snapshots);
      for i := 0 to |found|
        invariant forall r :: r in terms <==> r in found[..i]
        invariant forall r | r in terms ::
          r in snapshots && terms[r] == FeeTerms(snapshots[r].0, snapshots[r].1, Snapshot)
      {
        var ride := found[i];
        assert ride in found;
        assert found[..i + 1] == found[..i] + [ride];
        terms := terms[ride := FeeTerms(snapshots[ride].0, snapshots[ride].1, Snapshot)];
      }
      assert found[..|found|] == found;
    }

    static method FillIn(known: map<Ride, FeeTerms>, rides: seq<Ride>, fallback: FeeTerms)
      returns (terms: map<Ride, FeeTerms>)
      ensures forall r :: r in terms <==> r in known || r in rides
      ensures forall r | r in terms :: terms[r] == if r in known then known[r] else fallback
    {
      terms := known;
      for i := 0 to |rides|
        invariant forall r :: r in terms <==> r in known || r in rides[..i]
        invariant forall r | r in terms :: terms[r] == if r in known then known[r] else fallback
      {
        assert rides[..i + 1] == rides[..i] + [rides[i]];
        if rides[i] !in terms {
          terms := terms[rides[i] := fallback];
        }
      }
      assert rides[..|rides|] == rides;
    }

    /** `resolveFeeTermsForRides`: exactly the rides asked for, each with the terms a single lookup gives. */
    method ResolveFeeTermsForRides(rides: seq<Ride>, now: int) returns (terms: map<Ride, FeeTerms>)
      modifies this`configs
      ensures forall r :: r in terms <==> r in rides
      ensures forall r | r in rides :: terms[r] == RideFeeTerms(old(configs), snapshots, r, now)
      ensures configs == old(configs) || configs == AfterFallback(old(configs), now)
      ensures (exists r | r in rides :: r !in snapshots) ==> configs == AfterFallback(old(configs), now)
    {
      terms := map[];
      if |rides| == 0 {
        return;
      }
      terms := SnapshotTerms(rides);
      if |terms| < |rides| {
        var fallback := ResolveActiveFeeTerms(now);
        terms := FillIn(terms, rides, fallback);
      } else {
        assert |terms.Keys| == |terms|;
        Pigeonhole(terms.Keys, rides);
      }
    }
  }
}
