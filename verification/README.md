# dynamic_on_time: a Dafny model of the self-rebuilding cron schedule

This project models the ESPHome component `DynamicOnTime`. The component fires
a list of actions once a day, at a time set by two number inputs (hour and
minute), on the weekdays selected by seven switches (Mon..Sun). It drives a
cron trigger from the host library. Any time an input changes, the component
rebuilds the trigger's match rules from the current state of every input.

The model has five modules:

- `Weekdays` covers `flags_to_days_of_week_`. It turns the seven Mon..Sun
  switches into the cron trigger's ascending weekday codes (Sun=1 … Sat=7).
  The translation is written twice:
  - `Select`, a functional filter over positions;
  - `EraseRemove`, the erase-remove compaction over an array, proved equal to
    `Select`.

  Both are related to a reference set definition, `SelectedCodes`.
- `Cron` is an abstract view of the library's cron trigger: six match sets
  (second, minute, hour, day of month, month, weekday). It also holds the
  counting loops that add ranges of values to a set.
- `Schedule` covers `update_schedule_`, a rebuild over an owner record. The
  record holds the optional trigger, the optional automation, the set of live
  automations, the action list and an allocation counter that stands in for
  object identity. The trigger is created on first use. After that it is reset
  in place and keeps its identity. The old automation is released and a fresh
  one is bound to the trigger. The match sets are then filled from a snapshot
  of the inputs.
- `Lifecycle` covers the constructor, `setup` and the state callbacks. It
  models the Uninitialized → Ready transition, the single registration with
  the host and the nine subscriptions. Each callback ignores its value and
  rebuilds from the live inputs.
- `Wrappers` is an `Option` type that stands in for the nullable pointers.

Facts about the code the model relies on:

- `setup` subscribes to nine inputs: the hour and minute numbers and the seven
  day switches (lines 62-75).
- `update_schedule_` fills six match sets: second, minute, hour, day of month,
  month and weekday (lines 98-116).
- `update_schedule_` resets the trigger (lines 82-89) before it deletes the
  old automation (lines 92-93). The model treats a rebuild as one step, so
  this order has no visible effect.

## Model

| member | source | states |
|---|---|---|
| `Weekdays.SelectLength` | components/dynamic_on_time/dynamic_on_time.cpp:41-45 | the filter keeps exactly as many elements as there are set flags |
| `Weekdays.SelectMembership` | components/dynamic_on_time/dynamic_on_time.cpp:41-45 | a value survives the filter iff some position holding it has its paired flag set |
| `Weekdays.SelectAscending` | components/dynamic_on_time/dynamic_on_time.cpp:34-45 | removing elements keeps the order of the rest, so an ascending code vector stays strictly ascending |
| `Weekdays.SelectAt` | components/dynamic_on_time/dynamic_on_time.cpp:41-45 | in an ascending vector, the element at position i survives iff the flag at position i is set: each code is judged by its own paired flag |
| `Weekdays.SunFirstPairsCodes` | components/dynamic_on_time/dynamic_on_time.cpp:33-35 | pairing the code vector with the Sun-first flags makes day d's code survive iff day d's switch is on |
| `Weekdays.DaysOfWeek` | components/dynamic_on_time/dynamic_on_time.cpp:30-47 | the codes are strictly ascending, lie in 1..7, contain Code(d) iff day d's switch is on (Sun→1, Mon→2, …, Sat→7), and number as many as the switches that are on |
| `Weekdays.DaysOfWeekIsSelectedCodes` | components/dynamic_on_time/dynamic_on_time.cpp:33-47 | the translated codes, as a set, equal the reference set of codes of the enabled days |
| `Weekdays.DayOf` | components/dynamic_on_time/dynamic_on_time.cpp:33-35 | every code in 1..7 is the code of some weekday, so the numbering is onto |
| `Weekdays.TrueCountExtremes` | components/dynamic_on_time/dynamic_on_time.cpp:34-35 | no switch is on iff the count of enabled switches is 0, and every switch is on iff it is 7 |
| `Weekdays.DaysOfWeekBounds` | components/dynamic_on_time/dynamic_on_time.cpp:34-47 | all switches off give no codes; all on give exactly [1, 2, 3, 4, 5, 6, 7]; stated through the count and for the literal all-off and all-on switch records |
| `Weekdays.DaysOfWeekSingleDay` | components/dynamic_on_time/dynamic_on_time.cpp:34-47 | a single enabled day gives just that day's code, e.g. Monday alone [2] and Sunday alone [1] |
| `Weekdays.FindFirstRemoved` | components/dynamic_on_time/dynamic_on_time.cpp:42-44 | the search that starts remove_if stops at the first position whose flag is off (or the end); every earlier element is kept |
| `Weekdays.SelectAllKept` | components/dynamic_on_time/dynamic_on_time.cpp:42-44 | a prefix whose flags are all set passes the filter unchanged, which is why remove_if may leave the elements before the first removed one where they are |
| `Weekdays.MoveKept` | components/dynamic_on_time/dynamic_on_time.cpp:42-44 | the moving loop of remove_if, with a predicate that reads the flag at each element's own position, leaves the filter over positions in front of the returned end |
| `Weekdays.EraseRemove` | components/dynamic_on_time/dynamic_on_time.cpp:41-45 | remove_if followed by erase yields exactly the filter over positions |
| `Weekdays.FlagsToDaysOfWeek` | components/dynamic_on_time/dynamic_on_time.cpp:30-47 | the imperative translation returns strictly ascending codes in 1..7, containing a day's code iff its switch is on, as many as the switches that are on |
| `Cron.AddEach` | components/dynamic_on_time/dynamic_on_time.cpp:101-105 | the loops over 1..31 and 1..12 add exactly those values to the set and remove nothing |
| `Cron.UnionEmpty` | components/dynamic_on_time/dynamic_on_time.cpp:85-88 | the step that turns `Populate`'s union into equality after the reset: joining the empty match sets of a freshly reconstructed trigger with the intended sets gives exactly the intended sets |
| `Schedule.Initial` | components/dynamic_on_time/dynamic_on_time.cpp:24-28 | after construction there is no trigger, no automation and nothing live, and the ownership invariant holds |
| `Schedule.Populate` | components/dynamic_on_time/dynamic_on_time.cpp:98-116 | the add calls only add: the match sets become their previous contents joined with second 0, days 1..31, months 1..12, the hour, the minute and the enabled weekday codes |
| `Schedule.Rebuild` | components/dynamic_on_time/dynamic_on_time.cpp:78-116 | afterwards the match sets EQUAL the intended ones, whatever they held before; an existing trigger keeps its identity and a first one is fresh; a fresh automation is bound to the trigger and the unchanged action list; no live automation other than the old one is released |
| `Schedule.RebuildKeepsValid` | components/dynamic_on_time/dynamic_on_time.cpp:82-96 | under the ownership invariant, a rebuild releases the previous automation, keeps the invariant, and leaves exactly one automation live, bound to the trigger |
| `Schedule.RebuildIdempotent` | components/dynamic_on_time/dynamic_on_time.cpp:82-116 | a second rebuild from the same snapshot leaves the same trigger (identity and match sets), and the new automation is bound to it |
| `Schedule.RebuildAfterMinuteChange` | components/dynamic_on_time/dynamic_on_time.cpp:106-108 | changing only the minute and rebuilding leaves the minute set as just the new minute; the hours, the weekdays and the trigger's identity stay as they were |
| `Schedule.RepopulatingWithoutResetAccumulates` | components/dynamic_on_time/dynamic_on_time.cpp:79-89 | filling a trigger that was not reset keeps the earlier hour and minute next to the new ones; filling a reset trigger gives exactly the intended sets |
| `Schedule.MorningScheduleMatches` | components/dynamic_on_time/dynamic_on_time.cpp:98-116 | with hour 7, minute 30 and Mon, Wed and Fri on, a valid moment fires iff its second is 0, its time is 07:30 and its weekday is 2, 4 or 6 |
| `Lifecycle.LoopsCoverEveryInput` | components/dynamic_on_time/dynamic_on_time.cpp:62-75 | the number loop and the switch loop together visit all nine inputs, none twice |
| `Lifecycle.SubscribeAll` | components/dynamic_on_time/dynamic_on_time.cpp:62-75 | the two loops add nine subscriptions, one for each input, after the existing ones |
| `Lifecycle.Construct` | components/dynamic_on_time/dynamic_on_time.cpp:13-28 | the constructor only stores its arguments: the component is uninitialized, owns nothing, has registered nothing and has no subscriptions |
| `Lifecycle.Setup` | components/dynamic_on_time/dynamic_on_time.cpp:50-76 | the component becomes Ready; the trigger is registered exactly once, and it is already configured for the live inputs when registered; nine distinct callbacks are added, one per input; exactly one automation is live |
| `Lifecycle.OnStateChange` | components/dynamic_on_time/dynamic_on_time.cpp:62-75 | a change on a subscribed input rebuilds from the live state of all inputs and touches neither the phase, the registrations nor the subscriptions; a change on an input with no callback does nothing |
| `Lifecycle.CallbackIgnoresValue` | components/dynamic_on_time/dynamic_on_time.cpp:63-74 | which subscribed input changed, and the value handed to the callback, do not affect the result; the trigger matches the live inputs |
| `Lifecycle.StepKeepsSteady` | components/dynamic_on_time/dynamic_on_time.cpp:62-96 | one change callback keeps the Ready state: one registration of the same trigger, one live automation bound to it, the trigger set for the new inputs, the action list unchanged |
| `Lifecycle.RunKeepsSteady` | components/dynamic_on_time/dynamic_on_time.cpp:62-96 | over any sequence of change callbacks, the Ready state is kept: one registration of the same trigger; one live automation bound to it; the trigger set for the latest inputs; the action list unchanged |
| `Lifecycle.SetupThenChangesStaySteady` | components/dynamic_on_time/dynamic_on_time.cpp:50-96 | construction, setup, then any input changes leave the component Ready with one registration, one live automation running the configured actions, and the trigger set for the latest inputs |
| `Lifecycle.NoRebuildBeforeSetup` | components/dynamic_on_time/dynamic_on_time.cpp:50-76 | before setup no callback exists, so input changes leave the constructed component unchanged |

## Left out

- `dump_config` and the log call at the end of every rebuild are left out. They only format and log; they change no state.
- The float-to-`uint8_t` cast of the number inputs' state is left out. Hour and minute are integers in 0..23 and 0..59, the ranges the inputs' own bounds guarantee.
- The cron trigger's storage and its clock binding are left out, as are the real-time clock and the host's evaluation loop. The trigger is six match sets. `Cron.Matches` states the matching rule (every field in its set) and is not the library's code.
- Placement new, `delete`, `new` and allocation failure are left out. They become "same identity, empty sets", "identity removed from the live set" and "next identity from a counter". Allocation failure is fatal in the host and is not modelled.
- `App.register_component` and `add_on_state_callback` are left out. They are kept only as the sequence of registered triggers and the sequence of subscribed inputs. Running the actions is left out too; actions are opaque values.
- `Lifecycle.Setup` requires the Uninitialized phase. The host calls `setup` once per component; a second call is not modelled.
- `dynamic_on_time.h` is not part of this model. It is taken to declare the trigger and automation pointers as initially null, which is what `Schedule.Initial` assumes.
