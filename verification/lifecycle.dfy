/**
  The component's lifecycle (`DynamicOnTime` constructor and `setup`).

  The component starts Uninitialized. `setup` rebuilds the schedule once,
  registers the trigger with the host application exactly once, and adds a
  state callback to each of the nine inputs (hour, minute, and the seven
  day-of-week switches); it is then Ready. Every callback ignores the value it
  is handed and rebuilds from the live state of all inputs.
 */
module Lifecycle {
  import opened Weekdays
  import opened Schedule

  datatype Phase = Uninitialized | Ready

  /** The inputs the component listens to: two numbers and seven switches. */
  datatype Input =
    | HourNumber | MinuteNumber
    | MonSwitch | TueSwitch | WedSwitch | ThuSwitch | FriSwitch | SatSwitch | SunSwitch

  /** The inputs of the two subscription loops, in the order they are visited. */
  const NumberInputs: seq<Input> := [HourNumber, MinuteNumber]
  const SwitchInputs: seq<Input> := [MonSwitch, TueSwitch, WedSwitch, ThuSwitch, FriSwitch, SatSwitch, SunSwitch]

  /** Between them, the two loops visit every input, and none twice. */
  lemma LoopsCoverEveryInput()
    ensures forall i: Input :: i in NumberInputs + SwitchInputs
    ensures forall j, k :: 0 <= j < k < |NumberInputs + SwitchInputs|
              ==> (NumberInputs + SwitchInputs)[j] != (NumberInputs + SwitchInputs)[k]
  {
    forall i: Input
      ensures i in NumberInputs + SwitchInputs
    {
      var all := NumberInputs + SwitchInputs;
      match i
      case HourNumber => assert all[0] == i;
      case MinuteNumber => assert all[1] == i;
      case MonSwitch => assert all[2] == i;
      case TueSwitch => assert all[3] == i;
      case WedSwitch => assert all[4] == i;
      case ThuSwitch => assert all[5] == i;
      case FriSwitch => assert all[6] == i;
      case SatSwitch => assert all[7] == i;
      case SunSwitch => assert all[8] == i;
    }
  }

  /**
    The component: its phase, what it owns, the triggers it handed to the
    host's component registry (as each was at the moment of registration), and
    the inputs it has added a state callback to.
   */
  datatype Component = Component(
    phase: Phase,
    owner: Owner,
    registered: seq<CronTrigger>,
    subscribed: seq<Input>)

  /** The constructor: it only stores its arguments; nothing is allocated or registered. */
  function Construct(actions: seq<Action>): (c: Component)
    ensures c.phase == Uninitialized
    ensures c.owner.trigger.None? && c.owner.automation.None? && c.owner.live == {}
    ensures c.owner.actions == actions && Valid(c.owner)
    ensures c.registered == [] && c.subscribed == []
  {
    Component(Uninitialized, Initial(actions), [], [])
  }

  /**
    The two subscription loops of `setup`: a callback is added to the hour and
    minute numbers, then to each of the seven switches.
   */
  function SubscribeAll(subscribed: seq<Input>): (r: seq<Input>)
    ensures |r| == |subscribed| + 9
    ensures r[..|subscribed|] == subscribed
    ensures forall i: Input :: i in r[|subscribed|..]
    ensures forall j, k :: |subscribed| <= j < k < |r| ==> r[j] != r[k]
  {
    var added := NumberInputs + SwitchInputs;
    var r := subscribed + added;
    assert r[|subscribed|..] == added;
    LoopsCoverEveryInput();
    assert forall j :: |subscribed| <= j < |r| ==> r[j] == added[j - |subscribed|];
    r
  }

  /**
    `setup`, which the host runs once per component. `live` is the state of
    the inputs at that moment.
   */
  function Setup(c: Component, live: Snapshot): (r: Component)
    requires c.phase == Uninitialized
    ensures r.phase == Ready
    ensures r.owner.trigger.Some? && r.owner.automation.Some?
    ensures r.owner.trigger.value.sets == Intended(live)
    ensures Valid(c.owner) ==> Valid(r.owner) && r.owner.live == {r.owner.automation.value.id}
    // exactly one registration, of the component's trigger, already fully configured
    ensures |r.registered| == |c.registered| + 1
    ensures r.registered[..|c.registered|] == c.registered
    ensures r.registered[|c.registered|].id == r.owner.trigger.value.id
    ensures r.registered[|c.registered|].sets == Intended(live)
    // one callback for each of the nine inputs
    ensures |r.subscribed| == |c.subscribed| + 9
    ensures r.subscribed[..|c.subscribed|] == c.subscribed
    ensures forall i: Input :: i in r.subscribed[|c.subscribed|..]
    ensures forall j, k :: |c.subscribed| <= j < k < |r.subscribed| ==> r.subscribed[j] != r.subscribed[k]
  {
    // rebuild first, so the trigger is configured before anyone can see it
    var owner := Rebuild(c.owner, live);
    RebuildKeepsValid(c.owner, live);
    // App.register_component(trigger_)
    var registered := c.registered + [owner.trigger.value];
    assert registered[..|c.registered|] == c.registered;
    Component(Ready, owner, registered, SubscribeAll(c.subscribed))
  }

  /**
    A state change of `input` to `value`. If a callback was added to that
    input, it rebuilds from `live`, the current state of all inputs; the value
    it is handed plays no part. Otherwise nothing listens and nothing changes.
   */
  function OnStateChange(c: Component, live: Snapshot, input: Input, value: real): (r: Component)
    ensures r.phase == c.phase && r.registered == c.registered && r.subscribed == c.subscribed
    ensures input in c.subscribed ==> r.owner == Rebuild(c.owner, live)
    ensures input !in c.subscribed ==> r == c
  {
    if input in c.subscribed then c.(owner := Rebuild(c.owner, live)) else c
  }

  /** Which input changed, and to what value, does not matter: all callbacks do the same. */
  lemma CallbackIgnoresValue(c: Component, live: Snapshot, i: Input, v: real, j: Input, w: real)
    requires i in c.subscribed && j in c.subscribed
    ensures OnStateChange(c, live, i, v) == OnStateChange(c, live, j, w)
    ensures OnStateChange(c, live, i, v).owner.trigger.value.sets == Intended(live)
  {
  }

  /** One input change, together with the state of all inputs right after it. */
  datatype Change = Change(input: Input, value: real, live: Snapshot)

  /** A sequence of input changes, delivered one after another. */
  function Run(c: Component, changes: seq<Change>): Component
    decreases |changes|
  {
    if |changes| == 0 then c
    else
      var ch := changes[0];
      Run(OnStateChange(c, ch.live, ch.input, ch.value), changes[1..])
  }

  /** The input state after `changes`, starting from `s`. */
  function LastSnapshot(s: Snapshot, changes: seq<Change>): Snapshot {
    if |changes| == 0 then s else changes[|changes| - 1].live
  }

  /**
    The Ready state the component keeps: one registration, of the trigger it
    still owns; one live automation, bound to that trigger; the trigger set up
    for `s`; a callback on every input.
   */
  predicate Steady(c: Component, s: Snapshot) {
    && c.phase == Ready
    && Valid(c.owner)
    && c.owner.trigger.Some? && c.owner.automation.Some?
    && c.owner.live == {c.owner.automation.value.id}
    && |c.registered| == 1
    && c.registered[0].id == c.owner.trigger.value.id
    && c.owner.trigger.value.sets == Intended(s)
    && forall i: Input :: i in c.subscribed
  }

  /** One change callback keeps the Ready state. */
  lemma StepKeepsSteady(c: Component, s: Snapshot, ch: Change)
    requires Steady(c, s)
    ensures var c' := OnStateChange(c, ch.live, ch.input, ch.value);
            && Steady(c', ch.live)
            && c'.registered == c.registered
            && c'.owner.trigger.value.id == c.owner.trigger.value.id
            && c'.owner.actions == c.owner.actions
  {
    RebuildKeepsValid(c.owner, ch.live);
  }

  /** Change callbacks keep the Ready state, and never register anything. */
  lemma {:induction false} RunKeepsSteady(c: Component, s: Snapshot, changes: seq<Change>)
    requires Steady(c, s)
    ensures Steady(Run(c, changes), LastSnapshot(s, changes))
    ensures Run(c, changes).registered == c.registered
    ensures Run(c, changes).owner.trigger.value.id == c.owner.trigger.value.id
    ensures Run(c, changes).owner.actions == c.owner.actions
    decreases |changes|
  {
    if |changes| > 0 {
      var ch := changes[0];
      var c' := OnStateChange(c, ch.live, ch.input, ch.value);
      StepKeepsSteady(c, s, ch);
      RunKeepsSteady(c', ch.live, changes[1..]);
      if |changes| > 1 {
        assert changes[1..][|changes[1..]| - 1] == changes[|changes| - 1];
      }
    }
  }

  /**
    From construction, `setup` followed by any sequence of input changes
    leaves the component Ready with one registration, one live automation and
    a trigger configured for the latest input state.
   */
  lemma SetupThenChangesStaySteady(actions: seq<Action>, live: Snapshot, changes: seq<Change>)
    ensures var c := Run(Setup(Construct(actions), live), changes);
            && Steady(c, LastSnapshot(live, changes))
            && c.owner.actions == actions
            && c.owner.automation.value.actions == actions
  {
    var c0 := Setup(Construct(actions), live);
    assert c0.subscribed == c0.subscribed[0..];
    assert Steady(c0, live);
    RunKeepsSteady(c0, live, changes);
  }

  /** Before `setup` no callback exists, so input changes have no effect. */
  lemma {:induction false} NoRebuildBeforeSetup(actions: seq<Action>, changes: seq<Change>)
    ensures Run(Construct(actions), changes) == Construct(actions)
    decreases |changes|
  {
    if |changes| > 0 {
      NoRebuildBeforeSetup(actions, changes[1..]);
    }
  }
}
