/**
 Expansion of Prometheus scrape jobs into jobs per unit. The result is specified by where every
 single target ends up: nothing is lost, nothing is invented, nothing is in the wrong unit's job.
 */
module ScrapeTargets {
  import opened Options

  // ---- Data -----------------------------------------------------------------------------

  /** A unit's address, the path of its external URL, and its FQDN or "". */
  datatype Host = Host(address: string, path: string, fqdn: string)

  datatype StaticConfig = StaticConfig(targets: seq<string>, labels: map<string, string>, rest: string)

  /** A scrape job; an absent metrics path is "". `rest` stands for every other option. */
  datatype Job = Job(name: Option<string>, path: string, configs: seq<StaticConfig>, relabel: seq<string>, rest: string)

  /**
   The units in the order of the dictionary, the topology labels if there is a topology, and the
   parsing of the host part of a target, which is not part of this model.
   */
  datatype Scene = Scene(units: seq<(string, Host)>, topology: Option<map<string, string>>, hostOf: string -> string)

  /** A job of the result, and the unit it was built for, if any. */
  datatype Built = Built(job: Job, unit: Option<string>)

  const WILDCARD_RELABEL := "relabel instance by unit"
  const TOPOLOGY_RELABEL := "relabel instance by application"

  // ---- Where a target belongs -----------------------------------------------------------

  predicate IsWildcard(target: string) { target != "" && target[0] == '*' }

  /** `target.replace("*", address)` */
  function ReplaceStars(target: string, address: string): string {
    if target == "" then ""
    else (if target[0] == '*' then address else [target[0]]) + ReplaceStars(target[1..], address)
  }

  /** Address and FQDN of every unit; of units that share one, the last counts. */
  function HostToUnit(units: seq<(string, Host)>): map<string, string> {
    if units == [] then map[]
    else
      var (unit, host) := units[|units| - 1];
      var m := HostToUnit(units[..|units| - 1]);
      var m1 := if host.address != "" then m[host.address := unit] else m;
      if host.fqdn != "" then m1[host.fqdn := unit] else m1
  }

  function LookUp(m: map<string, string>, host: string): Option<string> {
    if host in m && m[host] != "" then Some(m[host]) else None
  }

  /** The unit a target that is no wildcard belongs to; without a topology there is no matching. */
  function UnitOf(c: Scene, target: string): Option<string> {
    if c.topology.None? then None else LookUp(HostToUnit(c.units), c.hostOf(target))
  }

  /** Some unit's address or FQDN is `host`, which is not empty. */
  ghost predicate Owns(units: seq<(string, Host)>, i: nat, host: string) {
    i < |units| && host != "" && (units[i].1.address == host || units[i].1.fqdn == host)
  }

  /** The last unit that owns the host. */
  ghost predicate OwnsLast(units: seq<(string, Host)>, i: nat, host: string) {
    Owns(units, i, host) && forall k: nat :: i < k ==> !Owns(units, k, host)
  }

  /** A host is known exactly if some unit owns it, and is that of the last one. */
  lemma {:induction false} HostToUnitOutcome(units: seq<(string, Host)>, host: string)
    ensures host in HostToUnit(units) <==> exists i: nat :: Owns(units, i, host)
    ensures host in HostToUnit(units) ==>
      exists i: nat :: OwnsLast(units, i, host) && units[i].0 == HostToUnit(units)[host]
  {
    if units != [] {
      var n := |units| - 1;
      var before := units[..n];
      HostToUnitOutcome(before, host);
      forall i: nat | i < n ensures Owns(before, i, host) <==> Owns(units, i, host) {}
      if Owns(units, n, host) {
        assert OwnsLast(units, n, host) && units[n].0 == HostToUnit(units)[host];
      } else {
        if host in HostToUnit(before) {
          var i: nat :| OwnsLast(before, i, host) && before[i].0 == HostToUnit(before)[host];
          assert OwnsLast(units, i, host) && units[i].0 == HostToUnit(units)[host];
        }
        if i: nat :| Owns(units, i, host) {
          assert Owns(before, i, host);
        }
      }
    }
  }

  // ---- Placements -----------------------------------------------------------------------

  /** A single target in the result, with everything that applies to it. */
  datatype Placement = Placement(
    target: string,
    unit: Option<string>,
    name: Option<string>,
    path: string,
    relabel: seq<string>,
    labels: map<string, string>,
    jobRest: string,
    configRest: string)

  /** The part of a unit's name after its last slash. */
  function UnitNumber(unit: string): string {
    if unit == "" then "" else if '/' in unit[1..] || unit[0] == '/' then UnitNumber(unit[1..]) else unit
  }

  function OrMetrics(path: string): string { if path == "" then "/metrics" else path }

  function PathOf(units: seq<(string, Host)>, unit: string): string {
    if units == [] then "" else if units[0].0 == unit then units[0].1.path else PathOf(units[1..], unit)
  }

  function JobFor(c: Scene, job: Job, unit: Option<string>, configs: seq<StaticConfig>): Job {
    match unit
    case Some(u) =>
      Job(Some((if job.name.Some? then job.name.value else "unnamed-job") + "-" + UnitNumber(u)),
          PathOf(c.units, u) + OrMetrics(job.path), configs,
          job.relabel + if c.topology.Some? then [WILDCARD_RELABEL] else [], job.rest)
    case None =>
      Job(job.name, OrMetrics(job.path), configs,
          job.relabel + if c.topology.Some? then [TOPOLOGY_RELABEL] else [], job.rest)
  }

  function LabelsFor(c: Scene, labels: map<string, string>, unit: Option<string>): map<string, string> {
    match (c.topology, unit)
    case (None, _) => labels
    case (Some(t), Some(u)) => t + map["juju_unit" := u] + labels
    case (Some(t), None) => t + labels
  }

  function Place(c: Scene, job: Job, config: StaticConfig, unit: Option<string>, target: string): Placement {
    var j := JobFor(c, job, unit, []);
    Placement(target, unit, j.name, j.path, j.relabel, LabelsFor(c, config.labels, unit), j.rest, config.rest)
  }

  /** A wildcard target: once per unit, with the star replaced by the unit's address. */
  function Starred(c: Scene, job: Job, config: StaticConfig, units: seq<(string, Host)>,
      target: string): multiset<Placement> {
    if units == [] then multiset{}
    else
      var (u, host) := units[|units| - 1];
      Starred(c, job, config, units[..|units| - 1], target)
      + multiset{Place(c, job, config, Some(u), ReplaceStars(target, host.address))}
  }

  /** Where one target of the input has to appear, and how often. */
  function ExpectedTarget(c: Scene, job: Job, config: StaticConfig, target: string): multiset<Placement> {
    if IsWildcard(target) then Starred(c, job, config, c.units, target)
    else multiset{Place(c, job, config, UnitOf(c, target), target)}
  }

  function ExpectedTargets(c: Scene, job: Job, config: StaticConfig, targets: seq<string>): multiset<Placement> {
    if targets == [] then multiset{}
    else
      var n := |targets| - 1;
      ExpectedTargets(c, job, config, targets[..n]) + ExpectedTarget(c, job, config, targets[n])
  }

  function ExpectedConfigs(c: Scene, job: Job, configs: seq<StaticConfig>): multiset<Placement> {
    if configs == [] then multiset{}
    else
      var last := configs[|configs| - 1];
      ExpectedConfigs(c, job, configs[..|configs| - 1]) + ExpectedTargets(c, job, last, last.targets)
  }

  function Expected(c: Scene, jobs: seq<Job>): multiset<Placement> {
    if jobs == [] then multiset{}
    else Expected(c, jobs[..|jobs| - 1]) + ExpectedConfigs(c, jobs[|jobs| - 1], jobs[|jobs| - 1].configs)
  }

  // ---- Placements of a result -----------------------------------------------------------

  function PlacedTargets(b: Built, config: StaticConfig, targets: seq<string>): multiset<Placement> {
    if targets == [] then multiset{}
    else
      PlacedTargets(b, config, targets[..|targets| - 1])
      + multiset{Placement(targets[|targets| - 1], b.unit, b.job.name, b.job.path, b.job.relabel, config.labels,
          b.job.rest, config.rest)}
  }

  function PlacedConfigs(b: Built, configs: seq<StaticConfig>): multiset<Placement> {
    if configs == [] then multiset{}
    else
      var last := configs[|configs| - 1];
      PlacedConfigs(b, configs[..|configs| - 1]) + PlacedTargets(b, last, last.targets)
  }

  function Placed(out: seq<Built>): multiset<Placement> {
    if out == [] then multiset{}
    else Placed(out[..|out| - 1]) + PlacedConfigs(out[|out| - 1], out[|out| - 1].job.configs)
  }

  lemma Regroup(a: multiset<Placement>, b: multiset<Placement>, d: multiset<Placement>)
    ensures (a + b) + d == a + (b + d)
    ensures (a + b) + d == (a + d) + b
  {}

  lemma Shuffle(a: multiset<Placement>, b: multiset<Placement>, d: multiset<Placement>, e: multiset<Placement>)
    ensures (a + b) + (d + e) == (a + d) + (b + e)
  {}

  lemma ExpectedSnoc(c: Scene, job: Job, config: StaticConfig, targets: seq<string>, t: string)
    ensures ExpectedTargets(c, job, config, targets + [t]) ==
      ExpectedTargets(c, job, config, targets) + ExpectedTarget(c, job, config, t)
  {
    assert (targets + [t])[..|targets|] == targets;
  }

  lemma InUnitSnoc(c: Scene, job: Job, config: StaticConfig, unit: Option<string>, targets: seq<string>, t: string)
    ensures InUnit(c, job, config, unit, targets + [t]) ==
      InUnit(c, job, config, unit, targets) + multiset{Place(c, job, config, unit, t)}
  {
    assert (targets + [t])[..|targets|] == targets;
  }

  lemma InUnitsSnoc(c: Scene, job: Job, config: StaticConfig, matched: seq<(string, seq<string>)>,
      m: (string, seq<string>))
    ensures InUnits(c, job, config, matched + [m]) ==
      InUnits(c, job, config, matched) + InUnit(c, job, config, Some(m.0), m.1)
  {
    assert (matched + [m])[..|matched|] == matched;
  }

  lemma InAllUnit(c: Scene, job: Job, config: StaticConfig, units: seq<(string, Host)>, u: (string, Host),
      targets: seq<string>)
    ensures InAll(c, job, config, units + [u], targets) ==
      InAll(c, job, config, units, targets) + InUnit(c, job, config, Some(u.0), Resolved(targets, u.1.address))
  {
    assert (units + [u])[..|units|] == units;
  }

  lemma ExpectedConfigsSnoc(c: Scene, job: Job, configs: seq<StaticConfig>, config: StaticConfig)
    ensures ExpectedConfigs(c, job, configs + [config]) ==
      ExpectedConfigs(c, job, configs) + ExpectedTargets(c, job, config, config.targets)
  {
    assert (configs + [config])[..|configs|] == configs;
  }

  lemma Prefix<T>(s: seq<T>, i: nat)
    requires i < |s|
    ensures s[..i + 1] == s[..i] + [s[i]]
  {}

  // ---- Sums over targets ----------------------------------------------------------------

  /** All of `targets` in the same unit's job. */
  function InUnit(c: Scene, job: Job, config: StaticConfig, unit: Option<string>,
      targets: seq<string>): multiset<Placement> {
    if targets == [] then multiset{}
    else
      InUnit(c, job, config, unit, targets[..|targets| - 1])
      + multiset{Place(c, job, config, unit, targets[|targets| - 1])}
  }

  /** The targets of one unit after the other. */
  function InUnits(c: Scene, job: Job, config: StaticConfig, matched: seq<(string, seq<string>)>): multiset<Placement> {
    if matched == [] then multiset{}
    else
      var (u, ts) := matched[|matched| - 1];
      InUnits(c, job, config, matched[..|matched| - 1]) + InUnit(c, job, config, Some(u), ts)
  }

  function Resolved(targets: seq<string>, address: string): (r: seq<string>)
    ensures |r| == |targets|
  {
    if targets == [] then []
    else Resolved(targets[..|targets| - 1], address) + [ReplaceStars(targets[|targets| - 1], address)]
  }

  /** All wildcard targets for one unit after the other. */
  function InAll(c: Scene, job: Job, config: StaticConfig, units: seq<(string, Host)>,
      targets: seq<string>): multiset<Placement> {
    if units == [] then multiset{}
    else
      var (u, host) := units[|units| - 1];
      InAll(c, job, config, units[..|units| - 1], targets)
      + InUnit(c, job, config, Some(u), Resolved(targets, host.address))
  }

  lemma {:induction false} InAllSnoc(c: Scene, job: Job, config: StaticConfig, units: seq<(string, Host)>,
      targets: seq<string>, t: string)
    ensures InAll(c, job, config, units, targets + [t]) ==
      InAll(c, job, config, units, targets) + Starred(c, job, config, units, t)
  {
    if units != [] {
      var (u, host) := units[|units| - 1];
      InAllSnoc(c, job, config, units[..|units| - 1], targets, t);
      var more := Resolved(targets + [t], host.address);
      assert (targets + [t])[..|targets|] == targets;
      assert more[..|more| - 1] == Resolved(targets, host.address);
    }
  }

  ghost predicate Wildcards(targets: seq<string>) { forall i :: 0 <= i < |targets| ==> IsWildcard(targets[i]) }

  /** Summing over units, then targets, is summing over targets, then units. */
  lemma {:induction false} WildcardsExpected(c: Scene, job: Job, config: StaticConfig, targets: seq<string>)
    requires Wildcards(targets)
    ensures InAll(c, job, config, c.units, targets) == ExpectedTargets(c, job, config, targets)
    decreases |targets|
  {
    if targets == [] {
      NothingForAll(c, job, config, c.units);
    } else {
      var before, t := LastWildcard(targets);
      WildcardsExpected(c, job, config, before);
      WildcardStep(c, job, config, before, t);
    }
  }

  lemma LastWildcard(targets: seq<string>) returns (before: seq<string>, t: string)
    requires targets != []
    ensures targets == before + [t] && (Wildcards(targets) ==> Wildcards(before) && IsWildcard(t))
  {
    before, t := targets[..|targets| - 1], targets[|targets| - 1];
  }

  lemma WildcardStep(c: Scene, job: Job, config: StaticConfig, before: seq<string>, t: string)
    requires IsWildcard(t)
    requires InAll(c, job, config, c.units, before) == ExpectedTargets(c, job, config, before)
    ensures InAll(c, job, config, c.units, before + [t]) == ExpectedTargets(c, job, config, before + [t])
  {
    InAllSnoc(c, job, config, c.units, before, t);
    ExpectedSnoc(c, job, config, before, t);
  }

  lemma NothingForAll(c: Scene, job: Job, config: StaticConfig, units: seq<(string, Host)>)
    ensures InAll(c, job, config, units, []) == multiset{}
  {}

  // ---- The algorithm --------------------------------------------------------------------

  lemma BuiltOne(c: Scene, job: Job, config: StaticConfig, unit: Option<string>, targets: seq<string>)
    ensures var config1 := config.(targets := targets, labels := LabelsFor(c, config.labels, unit));
      PlacedConfigs(Built(JobFor(c, job, unit, [config1]), unit), [config1]) == InUnit(c, job, config, unit, targets)
  {
    var config1 := config.(targets := targets, labels := LabelsFor(c, config.labels, unit));
    var b := Built(JobFor(c, job, unit, [config1]), unit);
    assert [config1][..0] == [];
    assert PlacedConfigs(b, [config1]) == multiset{} + PlacedTargets(b, config1, targets);
    PlacedInUnit(c, job, config, unit, b, config1, targets);
  }

  lemma {:induction false} PlacedInUnit(c: Scene, job: Job, config: StaticConfig, unit: Option<string>, b: Built,
      config1: StaticConfig, targets: seq<string>)
    requires b.unit == unit && b.job == JobFor(c, job, unit, b.job.configs)
    requires config1.labels == LabelsFor(c, config.labels, unit) && config1.rest == config.rest
    ensures PlacedTargets(b, config1, targets) == InUnit(c, job, config, unit, targets)
  {
    if targets != [] {
      PlacedInUnit(c, job, config, unit, b, config1, targets[..|targets| - 1]);
    }
  }

  /** The targets that are wildcards, or those that are not, in order. */
  function Select(targets: seq<string>, star: bool): seq<string> {
    if targets == [] then []
    else
      var n := |targets| - 1;
      Select(targets[..n], star) + if IsWildcard(targets[n]) == star then [targets[n]] else []
  }

  lemma {:induction false} SelectOutcome(targets: seq<string>, star: bool)
    ensures forall i :: 0 <= i < |Select(targets, star)| ==> IsWildcard(Select(targets, star)[i]) == star
  {
    if targets != [] {
      SelectOutcome(targets[..|targets| - 1], star);
    }
  }

  /** Every target is a wildcard or not, and is expected with its kind. */
  lemma {:induction false} SelectExpected(c: Scene, job: Job, config: StaticConfig, targets: seq<string>,
      wildcards: seq<string>, others: seq<string>)
    requires wildcards == Select(targets, true) && others == Select(targets, false)
    ensures ExpectedTargets(c, job, config, targets) ==
      ExpectedTargets(c, job, config, wildcards) + ExpectedTargets(c, job, config, others)
  {
    if targets == [] {
      SelectNothing(c, job, config, targets);
    } else {
      var before, t, stars, rest := UnSnoc(targets);
      SelectExpected(c, job, config, before, stars, rest);
      ExpectedStep(c, job, config, before, stars, rest, t);
    }
  }

  /** The last target, what comes before it, and what is selected from that. */
  lemma UnSnoc(targets: seq<string>) returns (before: seq<string>, t: string, stars: seq<string>, rest: seq<string>)
    requires targets != []
    ensures targets == before + [t] && stars == Select(before, true) && rest == Select(before, false)
    ensures Select(targets, true) == if IsWildcard(t) then stars + [t] else stars
    ensures Select(targets, false) == if IsWildcard(t) then rest else rest + [t]
  {
    var n := |targets| - 1;
    before, t := targets[..n], targets[n];
    stars, rest := Select(before, true), Select(before, false);
  }

  lemma SelectNothing(c: Scene, job: Job, config: StaticConfig, none: seq<string>)
    requires none == []
    ensures ExpectedTargets(c, job, config, none) ==
      ExpectedTargets(c, job, config, Select(none, true)) + ExpectedTargets(c, job, config, Select(none, false))
  {
    assert Select(none, true) == [] && Select(none, false) == [];
    assert ExpectedTargets(c, job, config, none) == multiset{};
  }

  lemma ExpectedStep(c: Scene, job: Job, config: StaticConfig, before: seq<string>, wildcards: seq<string>,
      others: seq<string>, t: string)
    requires ExpectedTargets(c, job, config, before) ==
      ExpectedTargets(c, job, config, wildcards) + ExpectedTargets(c, job, config, others)
    ensures ExpectedTargets(c, job, config, before + [t]) ==
      ExpectedTargets(c, job, config, wildcards + [t]) + ExpectedTargets(c, job, config, others)
    ensures ExpectedTargets(c, job, config, before + [t]) ==
      ExpectedTargets(c, job, config, wildcards) + ExpectedTargets(c, job, config, others + [t])
  {
    ExpectedSnoc(c, job, config, before, t);
    ExpectedSnoc(c, job, config, wildcards, t);
    ExpectedSnoc(c, job, config, others, t);
    Regroup(ExpectedTargets(c, job, config, wildcards), ExpectedTargets(c, job, config, others),
        ExpectedTarget(c, job, config, t));
  }

  method ClassifyTargets(targets: seq<string>) returns (wildcards: seq<string>, others: seq<string>)
    ensures wildcards == Select(targets, true) && others == Select(targets, false)
  {
    wildcards, others := [], [];
    for i := 0 to |targets|
      invariant wildcards == Select(targets[..i], true) && others == Select(targets[..i], false)
    {
      assert targets[..i + 1][..i] == targets[..i];
      if IsWildcard(targets[i]) {
        wildcards := wildcards + [targets[i]];
      } else {
        others := others + [targets[i]];
      }
    }
    assert targets[..|targets|] == targets;
  }

  /** `matched.setdefault(unit, []).append(target)`, keeping the order of first insertion. */
  function Append(matched: seq<(string, seq<string>)>, unit: string, target: string): seq<(string, seq<string>)> {
    if matched == [] then [(unit, [target])]
    else
      var n := |matched| - 1;
      if matched[n].0 == unit then matched[..n] + [(unit, matched[n].1 + [target])]
      else Append(matched[..n], unit, target) + [matched[n]]
  }

  lemma {:induction false} AppendOutcome(c: Scene, job: Job, config: StaticConfig,
      matched: seq<(string, seq<string>)>, unit: string, target: string)
    ensures InUnits(c, job, config, Append(matched, unit, target)) ==
      InUnits(c, job, config, matched) + multiset{Place(c, job, config, Some(unit), target)}
  {
    if matched == [] {
      assert [(unit, [target])][..0] == [];
      assert [target][..0] == [];
      assert InUnit(c, job, config, Some(unit),
          [target]) == multiset{} + multiset{Place(c, job, config, Some(unit), target)};
    } else {
      var n := |matched| - 1;
      var r := Append(matched, unit, target);
      if matched[n].0 == unit {
        assert r[..|r| - 1] == matched[..n];
        assert (matched[n].1 + [target])[..|matched[n].1|] == matched[n].1;
      } else {
        AppendOutcome(c, job, config, matched[..n], unit, target);
        assert r[..|r| - 1] == Append(matched[..n], unit, target);
      }
    }
  }

  lemma MatchStep(c: Scene, job: Job, config: StaticConfig, before: seq<string>, matched: seq<(string, seq<string>)>,
      unmatched: seq<string>, t: string)
    requires !IsWildcard(t)
    requires ExpectedTargets(c, job, config, before) ==
      InUnits(c, job, config, matched) + InUnit(c, job, config, None, unmatched)
    ensures ExpectedTargets(c, job, config, before + [t]) ==
      match UnitOf(c, t)
      case Some(u) => InUnits(c, job, config, Append(matched, u, t)) + InUnit(c, job, config, None, unmatched)
      case None => InUnits(c, job, config, matched) + InUnit(c, job, config, None, unmatched + [t])
  {
    ExpectedSnoc(c, job, config, before, t);
    Regroup(InUnits(c, job, config, matched), InUnit(c, job, config, None, unmatched),
        ExpectedTarget(c, job, config, t));
    match UnitOf(c, t) {
      case Some(u) => AppendOutcome(c, job, config, matched, u, t);
      case None => InUnitSnoc(c, job, config, None, unmatched, t);
    }
  }

  method MatchNonWildcardTargets(c: Scene, hostToUnit: map<string, string>, ghost job: Job,
      ghost config: StaticConfig, targets: seq<string>)
    returns (matched: seq<(string, seq<string>)>, unmatched: seq<string>)
    requires hostToUnit == if c.topology.Some? then HostToUnit(c.units) else map[]
    requires forall i :: 0 <= i < |targets| ==> !IsWildcard(targets[i])
    ensures ExpectedTargets(c, job, config, targets) ==
      InUnits(c, job, config, matched) + InUnit(c, job, config, None, unmatched)
  {
    matched, unmatched := [], [];
    for i := 0 to |targets|
      invariant ExpectedTargets(c, job, config, targets[..i]) ==
        InUnits(c, job, config, matched) + InUnit(c, job, config, None, unmatched)
    {
      var t := targets[i];
      var unit := LookUp(hostToUnit, c.hostOf(t));
      Prefix(targets, i);
      assert !IsWildcard(t) && unit == UnitOf(c, t);
      MatchStep(c, job, config, targets[..i], matched, unmatched, t);
      if unit.Some? {
        matched := Append(matched, unit.value, t);
      } else {
        unmatched := unmatched + [t];
      }
    }
    assert targets[..|targets|] == targets;
  }

  method BuildPerUnitJob(c: Scene, job: Job, config: StaticConfig, targets: seq<string>, unit: string)
      returns (b: Built)
    ensures b.unit == Some(unit)
    ensures PlacedConfigs(b, b.job.configs) == InUnit(c, job, config, Some(unit), targets)
  {
    var config1 := config.(targets := targets, labels := LabelsFor(c, config.labels, Some(unit)));
    b := Built(JobFor(c, job, Some(unit), [config1]), Some(unit));
    BuiltOne(c, job, config, Some(unit), targets);
  }

  lemma PlacedSnoc(out: seq<Built>, b: Built)
    ensures Placed(out + [b]) == Placed(out) + PlacedConfigs(b, b.job.configs)
  {
    assert (out + [b])[..|out|] == out;
  }

  /** One job per matched unit. */
  method ExpandMatched(c: Scene, job: Job, config: StaticConfig, matched: seq<(string, seq<string>)>)
      returns (out: seq<Built>)
    ensures Placed(out) == InUnits(c, job, config, matched)
  {
    out := [];
    for i := 0 to |matched|
      invariant Placed(out) == InUnits(c, job, config, matched[..i])
    {
      Prefix(matched, i);
      InUnitsSnoc(c, job, config, matched[..i], matched[i]);
      var b := BuildPerUnitJob(c, job, config, matched[i].1, matched[i].0);
      PlacedSnoc(out, b);
      out := out + [b];
    }
    assert matched[..|matched|] == matched;
  }

  /** One job per unit for all wildcard targets. */
  method ExpandWildcards(c: Scene, job: Job, config: StaticConfig, wildcards: seq<string>) returns (out: seq<Built>)
    ensures Placed(out) == InAll(c, job, config, c.units, wildcards)
  {
    out := [];
    for i := 0 to |c.units|
      invariant Placed(out) == InAll(c, job, config, c.units[..i], wildcards)
    {
      Prefix(c.units, i);
      InAllUnit(c, job, config, c.units[..i], c.units[i], wildcards);
      var b := BuildPerUnitJob(c, job, config, Resolved(wildcards, c.units[i].1.address), c.units[i].0);
      PlacedSnoc(out, b);
      out := out + [b];
    }
    assert c.units[..|c.units|] == c.units;
  }

  /** The jobs of one static config; what stays unmatched comes back. */
  method ExpandConfig(c: Scene, hostToUnit: map<string, string>, job: Job, config: StaticConfig)
    returns (out: seq<Built>, unmatched: seq<string>)
    requires hostToUnit == if c.topology.Some? then HostToUnit(c.units) else map[]
    ensures ExpectedTargets(c, job, config, config.targets) == Placed(out) + InUnit(c, job, config, None, unmatched)
  {
    var wildcards, others := ClassifyTargets(config.targets);
    SelectOutcome(config.targets, true);
    SelectOutcome(config.targets, false);
    SelectExpected(c, job, config, config.targets, wildcards, others);
    var matched, left := MatchNonWildcardTargets(c, hostToUnit, job, config, others);
    unmatched := left;
    out := ExpandMatched(c, job, config, matched);
    WildcardsExpected(c, job, config, wildcards);
    if wildcards == [] {
      NothingForAll(c, job, config, c.units);
    } else {
      var more := ExpandWildcards(c, job, config, wildcards);
      PlacedAppend(out, more);
      Regroup(Placed(out), Placed(more), InUnit(c, job, config, None, unmatched));
      out := out + more;
    }
  }

  /** The placements of the configs that are kept for the job without a unit. */
  lemma PlacedLeftover(c: Scene, job: Job, b: Built, configs: seq<StaticConfig>, config: StaticConfig,
      unmatched: seq<string>)
    requires b.unit == None && b.job == JobFor(c, job, None, b.job.configs)
    ensures var config1 := config.(targets := unmatched, labels := LabelsFor(c, config.labels, None));
      PlacedConfigs(b, configs + [config1]) == PlacedConfigs(b, configs) + InUnit(c, job, config, None, unmatched)
  {
    var config1 := config.(targets := unmatched, labels := LabelsFor(c, config.labels, None));
    assert (configs + [config1])[..|configs|] == configs;
    PlacedInUnit(c, job, config, None, b, config1, unmatched);
  }

  /** The contents of the configs decide; which list of configs the job carries does not matter. */
  lemma {:induction false} PlacedAnyConfigs(c: Scene, job: Job, xs: seq<StaticConfig>, ys: seq<StaticConfig>,
      configs: seq<StaticConfig>)
    ensures PlacedConfigs(Built(JobFor(c, job, None, xs), None),
        configs) == PlacedConfigs(Built(JobFor(c, job, None, ys), None), configs)
  {
    if configs != [] {
      PlacedAnyConfigs(c, job, xs, ys, configs[..|configs| - 1]);
      var last := configs[|configs| - 1];
      PlacedAnyTargets(c, job, xs, ys, last, last.targets);
    }
  }

  lemma PlacedAnyTargets(c: Scene, job: Job, xs: seq<StaticConfig>, ys: seq<StaticConfig>, config: StaticConfig,
      targets: seq<string>)
    ensures PlacedTargets(Built(JobFor(c, job, None, xs), None), config, targets) ==
      PlacedTargets(Built(JobFor(c, job, None, ys), None), config, targets)
  {}

  method ExpandJob(c: Scene, hostToUnit: map<string, string>, job: Job) returns (out: seq<Built>)
    requires hostToUnit == if c.topology.Some? then HostToUnit(c.units) else map[]
    ensures Placed(out) == ExpectedConfigs(c, job, job.configs)
  {
    out := [];
    var leftover: seq<StaticConfig> := [];
    ghost var rest := Built(JobFor(c, job, None, []), None);
    for i := 0 to |job.configs|
      invariant Placed(out) + PlacedConfigs(rest, leftover) == ExpectedConfigs(c, job, job.configs[..i])
    {
      var config := job.configs[i];
      Prefix(job.configs, i);
      ExpectedConfigsSnoc(c, job, job.configs[..i], config);
      var more, unmatched := ExpandConfig(c, hostToUnit, job, config);
      PlacedAppend(out, more);
      Shuffle(Placed(out), PlacedConfigs(rest, leftover), Placed(more), InUnit(c, job, config, None, unmatched));
      out := out + more;
      if unmatched != [] {
        PlacedLeftover(c, job, rest, leftover, config, unmatched);
        leftover := leftover + [config.(targets := unmatched, labels := LabelsFor(c, config.labels, None))];
      }
    }
    assert job.configs[..|job.configs|] == job.configs;
    if leftover != [] {
      var b := Built(JobFor(c, job, None, leftover), None);
      PlacedAnyConfigs(c, job, leftover, [], leftover);
      PlacedSnoc(out, b);
      out := out + [b];
    }
  }

  lemma {:induction false} PlacedAppend(a: seq<Built>, b: seq<Built>)
    ensures Placed(a + b) == Placed(a) + Placed(b)
    decreases |b|
  {
    if |b| == 0 {
      PlacedNothing(a, b);
    } else {
      var init, last := b[..|b| - 1], b[|b| - 1];
      PlacedAppend(a, init);
      AppendSnoc(a, init, last);
      assert b == init + [last];
      PlacedSnoc(a + init, last);
      Regroup(Placed(a), Placed(init), PlacedConfigs(last, last.job.configs));
    }
  }

  lemma PlacedNothing(a: seq<Built>, b: seq<Built>)
    requires |b| == 0
    ensures Placed(a + b) == Placed(a) + Placed(b)
  {
    assert a + b == a;
  }

  lemma AppendSnoc(a: seq<Built>, b: seq<Built>, last: Built)
    ensures a + (b + [last]) == (a + b) + [last]
  {}

  /**
   Conservation. Over any nesting of jobs and static configs, the targets of the result, each with
   the unit, name, path, labels and relabelling it gets, are exactly the expected ones: every
   target that is no wildcard once, in its unit's job if some unit owns its host, and every
   wildcard target once per unit with the star replaced.
   */
  method Expand(c: Scene, jobs: seq<Job>) returns (out: seq<Built>)
    ensures Placed(out) == Expected(c, jobs)
  {
    var hostToUnit := if c.topology.Some? then HostToUnit(c.units) else map[];
    out := [];
    for i := 0 to |jobs|
      invariant Placed(out) == Expected(c, jobs[..i])
    {
      assert jobs[..i + 1][..i] == jobs[..i];
      var more := ExpandJob(c, hostToUnit, jobs[i]);
      PlacedAppend(out, more);
      out := out + more;
    }
    assert jobs[..|jobs|] == jobs;
  }

  // ---- What the expectation means -------------------------------------------------------

  ghost predicate ComesFrom(c: Scene, config: StaticConfig, p: Placement, i: nat) {
    i < |config.targets| &&
    var t := config.targets[i];
    if IsWildcard(t) then
      exists k ::
        && 0 <= k < |c.units| && p.unit == Some(c.units[k].0)
        && p.target == ReplaceStars(t, c.units[k].1.address)
        && ('*' !in t[1..] ==> p.target == c.units[k].1.address + t[1..])
    else
      && p.target == t
      && (p.unit.Some? ==> exists k: nat :: OwnsLast(c.units, k, c.hostOf(t)) && p.unit == Some(c.units[k].0))
      && (c.topology.None? ==> p.unit.None?)
      && (p.unit.None? && c.topology.Some? && AllNamed(c.units) ==> forall k: nat :: !Owns(c.units, k, c.hostOf(t)))
  }

  ghost predicate AllNamed(units: seq<(string, Host)>) { forall k :: 0 <= k < |units| ==> units[k].0 != "" }

  lemma {:induction false} StarredOrigin(c: Scene, job: Job, config: StaticConfig, units: seq<(string, Host)>,
      t: string, p: Placement)
    requires p in Starred(c, job, config, units, t)
    ensures exists k ::
      0 <= k < |units| && p.unit == Some(units[k].0) && p.target == ReplaceStars(t, units[k].1.address)
  {
    var n := |units| - 1;
    if p in Starred(c, job, config, units[..n], t) {
      StarredOrigin(c, job, config, units[..n], t, p);
      var k :| 0 <= k < n && p.unit == Some(units[..n][k].0) && p.target == ReplaceStars(t, units[..n][k].1.address);
      assert units[k] == units[..n][k];
    }
  }

  /** What is expected of a target comes from it, in a unit that owns it. */
  lemma TargetOrigin(c: Scene, job: Job, config: StaticConfig, i: nat, p: Placement)
    requires i < |config.targets| && p in ExpectedTarget(c, job, config, config.targets[i])
    ensures ComesFrom(c, config, p, i)
  {
    var t := config.targets[i];
    if IsWildcard(t) {
      StarredOrigin(c, job, config, c.units, t, p);
      var k :| 0 <= k < |c.units| && p.unit == Some(c.units[k].0) && p.target == ReplaceStars(t, c.units[k].1.address);
      WildcardMeans(t, c.units[k].1.address);
    } else {
      HostToUnitOutcome(c.units, c.hostOf(t));
    }
  }

  /** A label set by the job's author always wins, then the unit, then the topology. */
  lemma LabelsOutcome(c: Scene, labels: map<string, string>, unit: Option<string>, key: string)
    ensures var all := LabelsFor(c, labels, unit);
      && (key in labels ==> key in all && all[key] == labels[key])
      && (key !in labels && c.topology.None? ==> key !in all)
      && (key !in labels && c.topology.Some? ==>
        if unit.Some? && key == "juju_unit" then key in all && all[key] == unit.value
        else (key in all <==> key in c.topology.value) && (key in all ==> all[key] == c.topology.value[key]))
  {}

  /** With distinct names the path of a unit is its own. */
  lemma {:induction false} PathOutcome(units: seq<(string, Host)>, i: nat)
    requires i < |units| && forall j, k :: 0 <= j < k < |units| ==> units[j].0 != units[k].0
    ensures PathOf(units, units[i].0) == units[i].1.path
  {
    if i > 0 {
      assert units[0].0 != units[i].0;
      PathOutcome(units[1..], i - 1);
    }
  }

  /** The job of a unit: its number is appended to the name, its path comes before the job's own. */
  lemma UnitJobOutcome(c: Scene, job: Job, i: nat, configs: seq<StaticConfig>)
    requires i < |c.units| && forall j, k :: 0 <= j < k < |c.units| ==> c.units[j].0 != c.units[k].0
    ensures var (unit, host) := c.units[i]; var made := JobFor(c, job, Some(unit), configs);
      && (job.name.Some? ==> made.name == Some(job.name.value + "-" + UnitNumber(unit)))
      && (job.name.None? ==> made.name == Some("unnamed-job-" + UnitNumber(unit)))
      && (job.path != "" ==> made.path == host.path + job.path)
      && (job.path == "" ==> made.path == host.path + "/metrics")
      && (c.topology.Some? ==> made.relabel == job.relabel + ["relabel instance by unit"])
      && (c.topology.None? ==> made.relabel == job.relabel)
      && made.configs == configs && made.rest == job.rest
  {
    PathOutcome(c.units, i);
    if job.name.None? {
      assert "unnamed-job" + "-" + UnitNumber(c.units[i].0) == "unnamed-job-" + UnitNumber(c.units[i].0);
    }
  }

  /** The job for what no unit owns keeps its name and its path, with the default for none. */
  lemma UnmatchedJobOutcome(c: Scene, job: Job, configs: seq<StaticConfig>)
    ensures var made := JobFor(c, job, None, configs);
      && made.name == job.name && made.path == (if job.path != "" then job.path else "/metrics")
      && (c.topology.Some? ==> made.relabel == job.relabel + ["relabel instance by application"])
      && (c.topology.None? ==> made.relabel == job.relabel)
      && made.configs == configs && made.rest == job.rest
  {}

  /** The number of a unit is what follows the last slash of its name. */
  lemma {:induction false} UnitNumberOutcome(unit: string) returns (before: string)
    ensures unit == before + UnitNumber(unit) && '/' !in UnitNumber(unit)
    ensures before == "" || before[|before| - 1] == '/'
  {
    if unit != "" && ('/' in unit[1..] || unit[0] == '/') {
      var rest := UnitNumberOutcome(unit[1..]);
      before := [unit[0]] + rest;
    } else {
      before := "";
      assert unit != "" ==> unit == [unit[0]] + unit[1..];
    }
  }

  /** Units of one application have jobs of different names. */
  lemma UnitJobsApart(c: Scene, job: Job, app: string, i: string, k: string)
    requires '/' !in i && '/' !in k && i != k
    ensures JobFor(c, job, Some(app + "/" + i), []).name != JobFor(c, job, Some(app + "/" + k), []).name
  {
    NumberAfterSlash(app, i);
    NumberAfterSlash(app, k);
    var base := (if job.name.Some? then job.name.value else "unnamed-job") + "-";
    assert (base + i)[|base|..] == i && (base + k)[|base|..] == k;
  }

  lemma {:induction false} NumberAfterSlash(app: string, number: string)
    requires '/' !in number
    ensures UnitNumber(app + "/" + number) == number
  {
    var unit := app + "/" + number;
    if app == "" {
      assert unit[1..] == number;
      if number != "" {
        assert number == [number[0]] + number[1..];
      }
    } else {
      assert unit[1..] == app[1..] + "/" + number && unit[1..][|app| - 1] == '/';
      NumberAfterSlash(app[1..], number);
    }
  }

  /** No star is left, and a target without one stays as it is. */
  lemma {:induction false} ReplaceStarsOutcome(target: string, address: string)
    ensures '*' !in address ==> '*' !in ReplaceStars(target, address)
    ensures '*' !in target ==> ReplaceStars(target, address) == target
  {
    if target != "" {
      ReplaceStarsOutcome(target[1..], address);
      assert target == [target[0]] + target[1..] && target[0] in target;
    }
  }

  /** The address comes in for the first star, and so for every one; the text between stays. */
  lemma {:induction false} StarReplaced(before: string, after: string, address: string)
    requires '*' !in before
    ensures ReplaceStars(before + "*" + after, address) == before + address + ReplaceStars(after, address)
  {
    var target := before + "*" + after;
    if before == "" {
      assert target[1..] == after && target[0] == '*';
    } else {
      assert target[1..] == before[1..] + "*" + after && target[0] == before[0];
      assert before == [before[0]] + before[1..] && before[0] in before;
      StarReplaced(before[1..], after, address);
    }
  }

  /** A wildcard is a star and something; with no other star it becomes the address and that. */
  lemma WildcardMeans(target: string, address: string)
    ensures IsWildcard(target) <==> exists rest: string :: target == "*" + rest
    ensures IsWildcard(target) && '*' !in target[1..] ==> ReplaceStars(target, address) == address + target[1..]
  {
    if IsWildcard(target) {
      assert target == "*" + target[1..];
      StarReplaced("", target[1..], address);
      ReplaceStarsOutcome(target[1..], address);
      assert "" + "*" + target[1..] == target && "" + address == address;
    }
  }

  lemma {:induction false} StarredCount(c: Scene, job: Job, config: StaticConfig, units: seq<(string, Host)>, t: string)
    ensures |Starred(c, job, config, units, t)| == |units|
  {
    if units != [] {
      StarredCount(c, job, config, units[..|units| - 1], t);
    }
  }

  lemma ExpectedTargetCount(c: Scene, job: Job, config: StaticConfig, t: string)
    ensures |ExpectedTarget(c, job, config, t)| == if IsWildcard(t) then |c.units| else 1
  {
    StarredCount(c, job, config, c.units, t);
  }

  lemma TimesSucc(a: nat, b: nat)
    ensures a * (b + 1) == a * b + a
  {}

  /** How many targets come out: one for each plain target and one per unit for each wildcard. */
  lemma {:induction false} ExpectedCount(c: Scene, job: Job, config: StaticConfig, targets: seq<string>,
      wildcards: seq<string>, others: seq<string>)
    requires wildcards == Select(targets, true) && others == Select(targets, false)
    ensures |ExpectedTargets(c, job, config, targets)| == |others| + |c.units| * |wildcards|
  {
    if targets == [] {
      assert wildcards == [] && others == [];
    } else {
      var before, t, stars, rest := UnSnoc(targets);
      ExpectedCount(c, job, config, before, stars, rest);
      ExpectedSnoc(c, job, config, before, t);
      ExpectedTargetCount(c, job, config, t);
      TimesSucc(|c.units|, |stars|);
    }
  }

  // ---- The same over whole lists of jobs ------------------------------------------------

  lemma LastOf<T>(items: seq<T>) returns (before: seq<T>, last: T)
    requires items != []
    ensures items == before + [last] && forall x :: x in items <==> x in before || x == last
  {
    before, last := items[..|items| - 1], items[|items| - 1];
    assert items == before + [last];
  }

  ghost predicate OfTarget(c: Scene, job: Job, config: StaticConfig, t: string, p: Placement) {
    p in ExpectedTarget(c, job, config, t)
  }

  lemma {:induction false} FromTargets(c: Scene, job: Job, config: StaticConfig, targets: seq<string>, p: Placement)
    ensures p in ExpectedTargets(c, job, config, targets) <==>
        exists t :: t in targets && OfTarget(c, job, config, t, p)
    decreases |targets|
  {
    if targets != [] {
      var before, last := LastOf(targets);
      FromTargets(c, job, config, before, p);
      ExpectedSnoc(c, job, config, before, last);
      assert p in ExpectedTargets(c, job, config, targets) <==>
        p in ExpectedTargets(c, job, config, before) || OfTarget(c, job, config, last, p);
      if t :| t in targets && OfTarget(c, job, config, t, p) {
        assert t in before || t == last;
      }
    }
  }

  ghost predicate OfConfig(c: Scene, job: Job, config: StaticConfig, p: Placement) {
    p in ExpectedTargets(c, job, config, config.targets)
  }

  lemma {:induction false} FromConfigs(c: Scene, job: Job, configs: seq<StaticConfig>, p: Placement)
    ensures p in ExpectedConfigs(c, job, configs) <==> exists config :: config in configs && OfConfig(c, job, config, p)
    decreases |configs|
  {
    if configs != [] {
      var before, last := LastOf(configs);
      FromConfigs(c, job, before, p);
      ExpectedConfigsSnoc(c, job, before, last);
      assert p in ExpectedConfigs(c, job, configs) <==>
          p in ExpectedConfigs(c, job, before) || OfConfig(c, job, last, p);
      if config :| config in configs && OfConfig(c, job, config, p) {
        assert config in before || config == last;
      }
    }
  }

  ghost predicate OfJob(c: Scene, job: Job, p: Placement) { p in ExpectedConfigs(c, job, job.configs) }

  lemma ExpectedJobsSnoc(c: Scene, jobs: seq<Job>, job: Job)
    ensures Expected(c, jobs + [job]) == Expected(c, jobs) + ExpectedConfigs(c, job, job.configs)
  {
    assert (jobs + [job])[..|jobs|] == jobs;
  }

  lemma {:induction false} FromJobs(c: Scene, jobs: seq<Job>, p: Placement)
    ensures p in Expected(c, jobs) <==> exists job :: job in jobs && OfJob(c, job, p)
    decreases |jobs|
  {
    if jobs != [] {
      var before, last := LastOf(jobs);
      FromJobs(c, before, p);
      ExpectedJobsSnoc(c, before, last);
      assert p in Expected(c, jobs) <==> p in Expected(c, before) || OfJob(c, last, p);
      if job :| job in jobs && OfJob(c, job, p) {
        assert job in before || job == last;
      }
    }
  }

  /** Target `i` of config `k` of job `j` is expected to be placed as `p`. */
  ghost predicate PlacedFrom(c: Scene, jobs: seq<Job>, p: Placement, j: nat, k: nat, i: nat) {
    && j < |jobs| && k < |jobs[j].configs| && i < |jobs[j].configs[k].targets|
    && p in ExpectedTarget(c, jobs[j], jobs[j].configs[k], jobs[j].configs[k].targets[i])
  }

  /**
   Neither lost nor invented, over any nesting: a placement is expected exactly if it is that of
   some target of the input, and then that target is where the placement comes from.
   */
  lemma ExpectedExactly(c: Scene, jobs: seq<Job>, p: Placement)
    ensures p in Expected(c, jobs) <==> exists j: nat, k: nat, i: nat :: PlacedFrom(c, jobs, p, j, k, i)
    ensures forall j: nat, k: nat, i: nat :: PlacedFrom(c, jobs, p, j, k, i) ==> ComesFrom(c, jobs[j].configs[k], p, i)
  {
    if p in Expected(c, jobs) {
      var j, k, i := SomeOrigin(c, jobs, p);
    }
    forall j: nat, k: nat, i: nat | PlacedFrom(c, jobs, p, j, k, i)
      ensures p in Expected(c, jobs) && ComesFrom(c, jobs[j].configs[k], p, i)
    {
      IsExpected(c, jobs, p, j, k, i);
    }
  }

  lemma SomeOrigin(c: Scene, jobs: seq<Job>, p: Placement) returns (j: nat, k: nat, i: nat)
    requires p in Expected(c, jobs)
    ensures PlacedFrom(c, jobs, p, j, k, i)
  {
    FromJobs(c, jobs, p);
    var job :| job in jobs && OfJob(c, job, p);
    j :| j < |jobs| && jobs[j] == job;
    FromConfigs(c, job, job.configs, p);
    var config :| config in job.configs && OfConfig(c, job, config, p);
    k :| k < |job.configs| && job.configs[k] == config;
    FromTargets(c, job, config, config.targets, p);
    var t :| t in config.targets && OfTarget(c, job, config, t, p);
    i :| i < |config.targets| && config.targets[i] == t;
  }

  lemma IsExpected(c: Scene, jobs: seq<Job>, p: Placement, j: nat, k: nat, i: nat)
    requires PlacedFrom(c, jobs, p, j, k, i)
    ensures p in Expected(c, jobs) && ComesFrom(c, jobs[j].configs[k], p, i)
  {
    var job, config := jobs[j], jobs[j].configs[k];
    assert OfTarget(c, job, config, config.targets[i], p);
    FromTargets(c, job, config, config.targets, p);
    assert OfConfig(c, job, config, p);
    FromConfigs(c, job, job.configs, p);
    assert OfJob(c, job, p);
    FromJobs(c, jobs, p);
    TargetOrigin(c, job, config, i, p);
  }
}
