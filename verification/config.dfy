/**
 The monitor's start-up configuration: the built-in defaults and how the
 one-shot configuration message read from the named pipe overrides them.
 */
module Config {
  import opened Wrappers
  import opened Json

  /** The eight metric families the sampling loop can update. */
  datatype Family =
    | Cpu
    | Memory
    | Disk
    | Network
    | Processes
    | ContextSwitches
    | Fragmentation
    | Policies

  /** The configuration fixed at start-up: seconds to sleep between
      iterations and one enable flag per family. `sleepTime` is not
      validated, so zero and negative values are representable. */
  datatype Config = Config(
    sleepTime: int,
    cpuUsage: bool,
    memoryUsage: bool,
    disk: bool,
    network: bool,
    processesRunning: bool,
    contextSwitches: bool,
    fragmentation: bool,
    policies: bool)

  const DefaultSleepTime: int := 1

  /** The global defaults: one second between iterations, every family on. */
  const Defaults: Config := Config(DefaultSleepTime, true, true, true, true, true, true, true, true)

  /** The enable flag of family `f`. */
  function Enabled(c: Config, f: Family): bool
  {
    match f
    case Cpu => c.cpuUsage
    case Memory => c.memoryUsage
    case Disk => c.disk
    case Network => c.network
    case Processes => c.processesRunning
    case ContextSwitches => c.contextSwitches
    case Fragmentation => c.fragmentation
    case Policies => c.policies
  }

  /** The configuration with sleep time `sleepTime` and the flags `flag`
      gives. */
  function WithFlags(sleepTime: int, flag: Family -> bool): (c: Config)
    ensures c.sleepTime == sleepTime
    ensures forall f :: Enabled(c, f) == flag(f)
  {
    Config(sleepTime, flag(Cpu), flag(Memory), flag(Disk), flag(Network),
           flag(Processes), flag(ContextSwitches), flag(Fragmentation), flag(Policies))
  }

  /** The defaults sleep one second and enable every family. */
  lemma DefaultsEnableEveryFamily()
    ensures Defaults.sleepTime == 1
    ensures forall f :: Enabled(Defaults, f)
  {
  }

  /** `c` with the flag of `f` set to `b` and nothing else changed. */
  function SetFlag(c: Config, f: Family, b: bool): (r: Config)
    ensures Enabled(r, f) == b
    ensures forall g :: g != f ==> Enabled(r, g) == Enabled(c, g)
    ensures r.sleepTime == c.sleepTime
  {
    WithFlags(c.sleepTime, g => if g == f then b else Enabled(c, g))
  }

  /** A configuration is determined by its sleep time and its eight flags. */
  lemma ConfigExtensionality(c: Config, d: Config)
    requires c.sleepTime == d.sleepTime
    requires forall f :: Enabled(c, f) == Enabled(d, f)
    ensures c == d
  {
    assert Enabled(c, Cpu) == Enabled(d, Cpu);
    assert Enabled(c, Memory) == Enabled(d, Memory);
    assert Enabled(c, Disk) == Enabled(d, Disk);
    assert Enabled(c, Network) == Enabled(d, Network);
    assert Enabled(c, Processes) == Enabled(d, Processes);
    assert Enabled(c, ContextSwitches) == Enabled(d, ContextSwitches);
    assert Enabled(c, Fragmentation) == Enabled(d, Fragmentation);
    assert Enabled(c, Policies) == Enabled(d, Policies);
  }

  /** The member of the `metrics` object that enables family `f`. */
  function FamilyKey(f: Family): string
  {
    match f
    case Cpu => "cpu_usage"
    case Memory => "memory_usage"
    case Disk => "disk_usage"
    case Network => "network_usage"
    case Processes => "processes_running"
    case ContextSwitches => "context_switches"
    case Fragmentation => "fragmentation"
    case Policies => "policies"
  }

  /** Distinct families are enabled by distinct keys. */
  lemma FamilyKeyInjective(f: Family, g: Family)
    requires f != g
    ensures FamilyKey(f) != FamilyKey(g)
  {
  }

  const SleepTimeKey: string := "sleep_time"
  const MetricsKey: string := "metrics"

  /** The member of `metrics` for family `f` is the literal `true`. */
  predicate KeyIsTrue(metrics: Option<Json>, f: Family)
  {
    IsTrue(GetObjectItem(metrics, FamilyKey(f)))
  }

  /** The configuration whose flags are read from a present `metrics` item:
      a family is on exactly when its key holds `true`. */
  function FlagsFrom(sleepTime: int, metrics: Option<Json>): (c: Config)
    ensures c.sleepTime == sleepTime
    ensures forall f :: Enabled(c, f) == KeyIsTrue(metrics, f)
  {
    WithFlags(sleepTime, f => KeyIsTrue(metrics, f))
  }

  /** The configuration the monitor runs with, given the outcome of parsing
      the configuration message (`None` when parsing failed). */
  function ResolveConfig(parsed: Option<Json>): (c: Config)
    ensures parsed.None? ==> c == Defaults
    ensures IsNumber(GetObjectItem(parsed, SleepTimeKey)) ==>
              GetObjectItem(parsed, SleepTimeKey) == Some(JNum(c.sleepTime))
    ensures !IsNumber(GetObjectItem(parsed, SleepTimeKey)) ==> c.sleepTime == DefaultSleepTime
    ensures GetObjectItem(parsed, MetricsKey).None? ==> forall f :: Enabled(c, f)
    ensures GetObjectItem(parsed, MetricsKey).Some? ==>
              forall f :: Enabled(c, f) <==> IsTrue(GetObjectItem(GetObjectItem(parsed, MetricsKey), FamilyKey(f)))
  {
    if parsed.None? then Defaults
    else FromItems(GetObjectItem(parsed, SleepTimeKey), GetObjectItem(parsed, MetricsKey))
  }

  /** The configuration of a parsed message, from its `sleep_time` and
      `metrics` items (either may be NULL). */
  function FromItems(sleepItem: Option<Json>, metrics: Option<Json>): (c: Config)
    ensures IsNumber(sleepItem) ==> sleepItem == Some(JNum(c.sleepTime))
    ensures !IsNumber(sleepItem) ==> c.sleepTime == DefaultSleepTime
    ensures metrics.None? ==> forall f :: Enabled(c, f)
    ensures metrics.Some? ==> forall f :: Enabled(c, f) == KeyIsTrue(metrics, f)
  {
    var sleepTime := if IsNumber(sleepItem) then sleepItem.value.n else DefaultSleepTime;
    if metrics.Some? then FlagsFrom(sleepTime, metrics)
    else Defaults.(sleepTime := sleepTime)
  }

  /** The configuration table in declarative form: the sleep time is the
      value of the first `sleep_time` member when that is a number and 1
      otherwise; without a `metrics` member every family is on, and with one
      a family is on exactly when the first member of `metrics` under the
      family's key is `true`. */
  ghost predicate Satisfies(parsed: Option<Json>, c: Config)
  {
    && (forall item :: Member(parsed, SleepTimeKey, item) ==>
          c.sleepTime == (if item.Some? && item.value.JNum? then item.value.n else DefaultSleepTime))
    && (forall metrics :: Member(parsed, MetricsKey, metrics) ==>
          forall f, flag :: Member(metrics, FamilyKey(f), flag) ==>
            Enabled(c, f) == (metrics.None? || flag == Some(JBool(true))))
  }

  /** The resolved configuration meets the declarative table. */
  lemma ResolveConfigSatisfies(parsed: Option<Json>)
    ensures Satisfies(parsed, ResolveConfig(parsed))
  {
    var c := ResolveConfig(parsed);
    forall item | Member(parsed, SleepTimeKey, item)
      ensures c.sleepTime == (if item.Some? && item.value.JNum? then item.value.n else DefaultSleepTime)
    {
      GetObjectItemIsMember(parsed, SleepTimeKey, item);
    }
    forall metrics, f, flag | Member(parsed, MetricsKey, metrics) && Member(metrics, FamilyKey(f), flag)
      ensures Enabled(c, f) == (metrics.None? || flag == Some(JBool(true)))
    {
      GetObjectItemIsMember(parsed, MetricsKey, metrics);
      GetObjectItemIsMember(metrics, FamilyKey(f), flag);
    }
  }

  /** The declarative table admits no other configuration. */
  lemma SatisfiesDeterminesConfig(parsed: Option<Json>, c: Config)
    requires Satisfies(parsed, c)
    ensures c == ResolveConfig(parsed)
  {
    var d := ResolveConfig(parsed);
    var sleepItem := GetObjectItem(parsed, SleepTimeKey);
    GetObjectItemIsMember(parsed, SleepTimeKey, sleepItem);
    var metrics := GetObjectItem(parsed, MetricsKey);
    GetObjectItemIsMember(parsed, MetricsKey, metrics);
    forall f ensures Enabled(c, f) == Enabled(d, f) {
      var flag := GetObjectItem(metrics, FamilyKey(f));
      GetObjectItemIsMember(metrics, FamilyKey(f), flag);
    }
    ConfigExtensionality(c, d);
  }

  /** The configuration depends on the document only through its
      `sleep_time` and `metrics` items. */
  lemma ResolveConfigReadsTwoItems(p: Option<Json>, q: Option<Json>)
    requires p.Some? && q.Some?
    requires GetObjectItem(p, SleepTimeKey) == GetObjectItem(q, SleepTimeKey)
    requires GetObjectItem(p, MetricsKey) == GetObjectItem(q, MetricsKey)
    ensures ResolveConfig(p) == ResolveConfig(q)
  {
  }

  /** When the message parses but has no `metrics` member, every family
      stays on whatever other members it has. */
  lemma NoMetricsKeepsEveryFamily(fields: seq<(string, Json)>)
    requires Absent(fields, MetricsKey)
    ensures forall f :: Enabled(ResolveConfig(Some(JObj(fields))), f)
  {
    LookupNoneIsAbsent(fields, MetricsKey);
  }

  /** A `metrics` object with none of the eight keys turns every family off. */
  lemma MetricsWithoutKeysDisablesAll(fields: seq<(string, Json)>, metricFields: seq<(string, Json)>)
    requires Lookup(fields, MetricsKey) == Some(JObj(metricFields))
    requires forall f :: Absent(metricFields, FamilyKey(f))
    ensures forall f :: !Enabled(ResolveConfig(Some(JObj(fields))), f)
  {
    forall f ensures !Enabled(ResolveConfig(Some(JObj(fields))), f) {
      LookupNoneIsAbsent(metricFields, FamilyKey(f));
    }
  }

  /** A `metrics` member that is not an object (null, a number, an array...)
      also turns every family off: none of the lookups inside it succeeds. */
  lemma MetricsNotObjectDisablesAll(fields: seq<(string, Json)>, v: Json)
    requires Lookup(fields, MetricsKey) == Some(v)
    requires !v.JObj?
    ensures forall f :: !Enabled(ResolveConfig(Some(JObj(fields))), f)
  {
  }

  /** Changing the `sleep_time` member changes the sleep time and nothing
      else; a non-number value falls back to the default. */
  lemma SleepTimeIsLocal(fields: seq<(string, Json)>, v: Json)
    ensures ResolveConfig(Some(JObj(Upsert(fields, SleepTimeKey, v))))
         == ResolveConfig(Some(JObj(fields))).(sleepTime := if v.JNum? then v.n else DefaultSleepTime)
  {
    var fields' := Upsert(fields, SleepTimeKey, v);
    assert MetricsKey != SleepTimeKey by { assert MetricsKey[0] != SleepTimeKey[0]; }
    var metrics := Lookup(fields, MetricsKey);
    assert Lookup(fields', MetricsKey) == metrics;
    assert ResolveConfig(Some(JObj(fields))) == FromItems(Lookup(fields, SleepTimeKey), metrics);
    assert ResolveConfig(Some(JObj(fields'))) == FromItems(Some(v), metrics);
  }

  /** Setting the member for family `f` decides `f`'s key test and leaves
      every other family's key test as it was. */
  lemma KeyIsTrueAfterUpsert(metricFields: seq<(string, Json)>, f: Family, g: Family, v: Json)
    ensures KeyIsTrue(Some(JObj(Upsert(metricFields, FamilyKey(f), v))), g)
         == if g == f then v == JBool(true) else KeyIsTrue(Some(JObj(metricFields)), g)
  {
    if g != f {
      FamilyKeyInjective(f, g);
    }
  }

  /** Removing the member for family `f` fails `f`'s key test and leaves
      every other family's key test as it was. */
  lemma KeyIsTrueAfterRemove(metricFields: seq<(string, Json)>, f: Family, g: Family)
    ensures KeyIsTrue(Some(JObj(Remove(metricFields, FamilyKey(f)))), g)
         == if g == f then false else KeyIsTrue(Some(JObj(metricFields)), g)
  {
    if g != f {
      FamilyKeyInjective(f, g);
    }
  }

  /** Setting the member of a `metrics` object that belongs to family `f`
      changes that family's flag and nothing else. */
  lemma FlagsFromUpsert(sleepTime: int, metricFields: seq<(string, Json)>, f: Family, v: Json)
    ensures FlagsFrom(sleepTime, Some(JObj(Upsert(metricFields, FamilyKey(f), v))))
         == SetFlag(FlagsFrom(sleepTime, Some(JObj(metricFields))), f, v == JBool(true))
  {
    var c := FlagsFrom(sleepTime, Some(JObj(metricFields)));
    var d := FlagsFrom(sleepTime, Some(JObj(Upsert(metricFields, FamilyKey(f), v))));
    var e := SetFlag(c, f, v == JBool(true));
    forall g ensures Enabled(d, g) == Enabled(e, g) {
      KeyIsTrueAfterUpsert(metricFields, f, g, v);
    }
    ConfigExtensionality(d, e);
  }

  /** Removing the member of a `metrics` object that belongs to family `f`
      turns that family off and changes nothing else. */
  lemma FlagsFromRemove(sleepTime: int, metricFields: seq<(string, Json)>, f: Family)
    ensures FlagsFrom(sleepTime, Some(JObj(Remove(metricFields, FamilyKey(f)))))
         == SetFlag(FlagsFrom(sleepTime, Some(JObj(metricFields))), f, false)
  {
    var c := FlagsFrom(sleepTime, Some(JObj(metricFields)));
    var d := FlagsFrom(sleepTime, Some(JObj(Remove(metricFields, FamilyKey(f)))));
    var e := SetFlag(c, f, false);
    forall g ensures Enabled(d, g) == Enabled(e, g) {
      KeyIsTrueAfterRemove(metricFields, f, g);
    }
    ConfigExtensionality(d, e);
  }

  /** With a `metrics` member present, the flags are read from it alone. */
  lemma ResolveConfigWithMetrics(fields: seq<(string, Json)>, metrics: Json)
    requires Lookup(fields, MetricsKey) == Some(metrics)
    ensures ResolveConfig(Some(JObj(fields))) == FlagsFrom(ResolveConfig(Some(JObj(fields))).sleepTime, Some(metrics))
  {
  }

  /** Changing the member of `metrics` that belongs to family `f` changes
      that family's flag and nothing else. */
  lemma FlagIsLocal(fields: seq<(string, Json)>, metricFields: seq<(string, Json)>, f: Family, v: Json)
    requires Lookup(fields, MetricsKey) == Some(JObj(metricFields))
    ensures ResolveConfig(Some(JObj(Upsert(fields, MetricsKey, JObj(Upsert(metricFields, FamilyKey(f), v))))))
         == SetFlag(ResolveConfig(Some(JObj(fields))), f, v == JBool(true))
  {
    var metrics' := JObj(Upsert(metricFields, FamilyKey(f), v));
    var fields' := Upsert(fields, MetricsKey, metrics');
    assert MetricsKey != SleepTimeKey by { assert MetricsKey[0] != SleepTimeKey[0]; }
    var c := ResolveConfig(Some(JObj(fields)));
    var d := ResolveConfig(Some(JObj(fields')));
    assert d.sleepTime == c.sleepTime by {
      assert Lookup(fields', SleepTimeKey) == Lookup(fields, SleepTimeKey);
    }
    ResolveConfigWithMetrics(fields, JObj(metricFields));
    ResolveConfigWithMetrics(fields', metrics');
    FlagsFromUpsert(c.sleepTime, metricFields, f, v);
  }

  /** Removing the member of `metrics` that belongs to family `f` turns that
      family off and changes nothing else. */
  lemma RemovedFlagIsOff(fields: seq<(string, Json)>, metricFields: seq<(string, Json)>, f: Family)
    requires Lookup(fields, MetricsKey) == Some(JObj(metricFields))
    ensures ResolveConfig(Some(JObj(Upsert(fields, MetricsKey, JObj(Remove(metricFields, FamilyKey(f)))))))
         == SetFlag(ResolveConfig(Some(JObj(fields))), f, false)
  {
    var metrics' := JObj(Remove(metricFields, FamilyKey(f)));
    var fields' := Upsert(fields, MetricsKey, metrics');
    assert MetricsKey != SleepTimeKey by { assert MetricsKey[0] != SleepTimeKey[0]; }
    var c := ResolveConfig(Some(JObj(fields)));
    var d := ResolveConfig(Some(JObj(fields')));
    assert d.sleepTime == c.sleepTime by {
      assert Lookup(fields', SleepTimeKey) == Lookup(fields, SleepTimeKey);
    }
    ResolveConfigWithMetrics(fields, JObj(metricFields));
    ResolveConfigWithMetrics(fields', metrics');
    FlagsFromRemove(c.sleepTime, metricFields, f);
  }

  /** A message that parses but is not an object, or is an object with
      neither a `sleep_time` nor a `metrics` member, leaves every default in
      place, just as a message that does not parse. */
  lemma ParsedWithoutItemsGivesDefaults(doc: Json)
    requires !doc.JObj? || (Absent(doc.fields, SleepTimeKey) && Absent(doc.fields, MetricsKey))
    ensures ResolveConfig(Some(doc)) == Defaults
  {
    if doc.JObj? {
      LookupNoneIsAbsent(doc.fields, SleepTimeKey);
      LookupNoneIsAbsent(doc.fields, MetricsKey);
    }
  }

  /** The sleep time is taken as written: a message can set it to zero or a
      negative number, and the configuration keeps that value. */
  lemma SleepTimeIsNotValidated(n: int)
    ensures ResolveConfig(Some(JObj([(SleepTimeKey, JNum(n))]))).sleepTime == n
  {
  }
}
