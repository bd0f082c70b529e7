# Metrics monitor: start-up configuration and sampling dispatch

A Dafny model of the entry point of a Linux telemetry agent that samples
kernel counters and republishes them as gauges. The agent's `main` does two
things that can be stated without the operating system:

1. **Configuration resolution.** It starts from global defaults (sleep one
   second between iterations; all eight metric families enabled), reads one
   JSON message from a named pipe and overrides the defaults from it:
   `sleep_time` replaces the sleep time when it is a number; when a `metrics`
   member is present, each family's flag becomes "its key holds `true`", so
   a present but partial `metrics` object turns unlisted families off, while
   an absent one leaves every family on. A message that does not parse leaves
   all defaults in place.
2. **Iteration dispatch.** The endless main loop calls, in a fixed order
   (cpu, memory, disk, network, processes, context switches, fragmentation,
   allocator policies), the gauge update of every enabled family, then sleeps
   for the configured time. The configuration is never changed inside the
   loop.

Files:

- `wrappers.dfy` — `Option`, where `None` stands for a NULL item.
- `json.dfy` — the slice of the cJSON library the agent uses: a parsed
  document (`Json`), object member lookup (`GetObjectItem`, first member of
  the given name), the `IsNumber` / `IsTrue` tests, and two edit operations
  on member lists (`Upsert`, `Remove`) used to state locality properties.
- `config.dfy` — `Family`, the `Config` record, `Defaults`, `ResolveConfig`,
  a declarative reading of the configuration table (`Satisfies`) proved
  equivalent to it, and the edge-case and locality lemmas.
- `dispatch.dfy` — `Dispatch` (the ordered updates of one iteration), the
  loop body `Iteration`, the first `rounds` iterations of the loop
  (`RunLoop`), and the round trip from dispatched updates back to the flags.

Behaviour of the code worth knowing:

- `sleep_time` is not checked: the integer value of any number is copied, so
  zero and negative sleep times are kept (`Config.SleepTimeIsNotValidated`).
- Reading the pipe has no deadline: a read that reports "try again" is
  retried every 100 ms (src/main.c:56-60). The pipe handling is not part of
  this model; the model starts from the outcome of parsing.
- The defaults are kept whole when the message does not parse, when it parses
  to something other than an object (`[]`, `42`, `null`), and when it is an
  object with neither a `sleep_time` nor a `metrics` member (`{}`): both
  lookups at src/main.c:78 and src/main.c:84 then yield NULL
  (`Config.ParsedWithoutItemsGivesDefaults`).
- A `metrics` member that is present but not an object (`null`, a number, an
  array) passes the code's presence test, and every lookup inside it fails,
  so every family is turned off (`Config.MetricsNotObjectDisablesAll`).

The eight consecutive `if` statements of the loop body are written in
`Dispatch.Iteration` as one loop over the fixed family order, testing each
family's flag in turn.

## Model

| member | source | states |
|---|---|---|
| `Json.LookupIsFirstMember` | src/main.c:78-94 | a member lookup yields `v` exactly when `v` is the value of the first member with that name |
| `Json.LookupNoneIsAbsent` | src/main.c:78-94 | a member lookup yields NULL exactly when no member has that name |
| `Json.GetObjectItemIsMember` | src/main.c:78-94 | `GetObjectItem` returns exactly the declaratively described item: the first member of that name of an object, or NULL for a NULL document, a non-object, or a missing name |
| `Config.DefaultsEnableEveryFamily` | src/main.c:19-27 | the defaults are a sleep time of 1 and all eight families enabled |
| `Config.ResolveConfig` | src/main.c:71-96 | a failed parse gives the defaults (sleep 1, all eight flags on); the sleep time is the `sleep_time` item's value when that is a number and 1 otherwise; without a `metrics` item all families stay on; with one, each family is on iff its key holds `true` |
| `Config.FromItems` | src/main.c:78-95 | from the `sleep_time` and `metrics` items: the sleep time is the item's number when `IsNumber` (`cJSON_IsNumber`, src/main.c:79) holds and 1 otherwise; a NULL `metrics` keeps every family on, a present one sets each flag to its key test |
| `Config.FlagsFrom` | src/main.c:87-94 | with a `metrics` item present, each family's flag is the `IsTrue` test (`cJSON_IsTrue`: the item is the literal `true`) of that family's own key and the sleep time is passed through |
| `Config.ResolveConfigSatisfies` | src/main.c:71-96 | the resolved configuration meets the declarative configuration table (defaults 1 and on, first-member lookup, partial `metrics` turns families off) |
| `Config.SatisfiesDeterminesConfig` | src/main.c:71-96 | any configuration meeting the declarative table is the resolved one, so the table and `ResolveConfig` agree in both directions |
| `Config.ResolveConfigReadsTwoItems` | src/main.c:78-94 | two parsed documents with the same `sleep_time` and `metrics` items resolve to the same configuration |
| `Config.NoMetricsKeepsEveryFamily` | src/main.c:84-85 | a parsed object without a `metrics` member keeps all eight families on, whatever else it holds |
| `Config.MetricsWithoutKeysDisablesAll` | src/main.c:84-94 | a `metrics` object with none of the eight keys turns every family off |
| `Config.MetricsNotObjectDisablesAll` | src/main.c:84-94 | a `metrics` member that is not an object turns every family off |
| `Config.ResolveConfigWithMetrics` | src/main.c:84-95 | when a `metrics` member is present the flags are read from that member alone |
| `Config.SleepTimeIsLocal` | src/main.c:78-82 | setting `sleep_time` changes only the sleep time: to the number's value, or back to 1 for a non-number |
| `Config.KeyIsTrueAfterUpsert` | src/main.c:87-94 | setting one family's key in `metrics` decides that family's key test and leaves every other family's key test unchanged |
| `Config.KeyIsTrueAfterRemove` | src/main.c:87-94 | removing one family's key from `metrics` fails that family's key test and leaves every other family's key test unchanged |
| `Config.FlagsFromUpsert` | src/main.c:87-94 | setting one family's key in a `metrics` object changes only that family's flag, to whether the new value is `true` |
| `Config.FlagsFromRemove` | src/main.c:87-94 | removing one family's key from a `metrics` object turns only that family off |
| `Config.FlagIsLocal` | src/main.c:78-94 | in a whole message, setting one family's key inside `metrics` changes that flag and no other field of the configuration |
| `Config.RemovedFlagIsOff` | src/main.c:78-94 | in a whole message, removing one family's key from `metrics` turns that family off and changes no other field |
| `Config.ParsedWithoutItemsGivesDefaults` | src/main.c:78-95 | a parsed message that is not an object, or an object with neither `sleep_time` nor `metrics`, yields exactly the defaults |
| `Config.SleepTimeIsNotValidated` | src/main.c:78-82 | any integer, zero and negative included, given as `sleep_time` becomes the sleep time unchanged |
| `Dispatch.EnabledAmong` | src/main.c:117-132 | selecting the enabled families of a list keeps exactly the enabled ones |
| `Dispatch.EnabledAmongKeepsOrder` | src/main.c:117-132 | selecting the enabled families of an ordered list keeps them in that order, each once |
| `Dispatch.EnabledAmongSnoc` | src/main.c:117-132 | testing one more family after the others appends its update exactly when it is enabled |
| `Dispatch.FamilyOrderIsComplete` | src/main.c:117-132 | the loop tests every family, each once, in the fixed order |
| `Dispatch.Dispatch` | src/main.c:117-132 | one iteration updates exactly the enabled families, each once, in the order cpu, memory, disk, network, processes, context switches, fragmentation, policies |
| `Dispatch.FlagsOfDispatch` | src/main.c:117-132 | the dispatched updates determine every flag: reading them back gives the configuration |
| `Dispatch.DispatchInjective` | src/main.c:117-132 | configurations with the same sleep time but different flags dispatch different updates |
| `Dispatch.IterationSteps` | src/main.c:117-133 | an iteration is the dispatched updates followed by one sleep of the configured (unvalidated) length, and mentions an update iff its family is enabled |
| `Dispatch.Iteration` | src/main.c:115-133 | the loop body, testing each flag in turn, performs exactly the steps of `IterationSteps` |
| `Dispatch.RunLoop` | src/main.c:114-134 | every one of the first `rounds` iterations performs the same steps, and in each a family is updated iff it is enabled |

## Left out

- Creating, opening, polling, reading and closing the named pipe (src/main.c:42-69): operating-system I/O. The model starts from the outcome of parsing the message.
- `cJSON_Parse` (src/main.c:71): a foreign library. Its outcome is the `Option<Json>` given to `ResolveConfig`, `None` for a failed parse.
- `Json.GetObjectItem`: matches member names exactly; the real `cJSON_GetObjectItem` compares names case-insensitively, so `"CPU_USAGE"` would also be found there.
- `Json.JNum`: carries the integer (`valueint`) view of a number; cJSON stores numbers as doubles and truncates or saturates them to a C `int`, which is not modelled.
- The HTTP exposition thread and its start-up failure (src/main.c:100-106): concurrency and code that is not part of this model.
- `init_metrics` (src/main.c:110-111) and the `update_*_gauge` functions: their bodies are not part of this model; updates appear only as labels in the dispatch sequence.
- `sleep(sleep_time)` (src/main.c:133): timing is not modelled; the sleep appears as a step carrying the configured number, and its conversion to the unsigned argument of `sleep` is not modelled.
- `Dispatch.RunLoop`: models the first `rounds` iterations of a loop that never terminates. The configuration is an immutable parameter, so that no statement of the loop (src/main.c:114-134) writes the flags or `sleep_time` is assumed by the signature, not proved; the invariants only repeat `Iteration`'s contract.
- The counter readers, rate logic, fragmentation and allocator-policy readers declared in include/metrics.h: only declarations are available, and their values are floating point.
- Log output (`printf`, `fprintf`, `perror`) and freeing the parsed document (src/main.c:98).
