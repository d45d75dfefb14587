/**
  The schedule rebuild (`DynamicOnTime::update_schedule_`).

  The component owns at most one cron trigger and at most one automation
  binding the action list to that trigger. A rebuild
    1. constructs the trigger on first use, or destroys and reconstructs it in
       place afterwards, so that its identity survives and its match sets start
       out empty;
    2. deletes the previous automation and creates a fresh one bound to the
       trigger and the unchanged action list;
    3. adds second 0, every day of month, every month, the snapshot's hour and
       minute and the translated weekdays to the trigger.
  Object identities are modelled by a counter standing in for the allocator:
  every identity handed out so far lies below `nextId`.
 */
module Schedule {
  import opened Wrappers
  import opened Weekdays
  import opened Cron

  /** Range guaranteed by the hour input's own bounds. */
  type Hour = h: int | 0 <= h <= 23

  /** Range guaranteed by the minute input's own bounds. */
  type Minute = m: int | 0 <= m <= 59

  /** The input values read at the start of a rebuild. */
  datatype Snapshot = Snapshot(hour: Hour, minute: Minute, flags: Flags)

  /** The identity (address) of an object the component allocated. */
  type Id = nat

  /** An action of the configured list; what it does is not modelled. */
  type Action = nat

  /** The cron trigger object: its identity and its match sets. */
  datatype CronTrigger = CronTrigger(id: Id, sets: MatchSets)

  /** An automation: the binding of an action list to a trigger. */
  datatype Automation = Automation(id: Id, trigger: Id, actions: seq<Action>)

  /**
    What the component owns: the trigger and automation pointers, the set of
    automations currently allocated, the action list given at construction,
    and the allocator's next free identity.
   */
  datatype Owner = Owner(
    trigger: Option<CronTrigger>,
    automation: Option<Automation>,
    live: set<Id>,
    actions: seq<Action>,
    nextId: Id)

  /**
    The ownership invariant: every identity came from the allocator, the only
    live automation is the one the component points to, and it is bound to the
    component's trigger and action list.
   */
  predicate Valid(o: Owner) {
    && (o.trigger.Some? ==> o.trigger.value.id < o.nextId)
    && (forall a :: a in o.live ==> a < o.nextId)
    && (o.automation.None? ==> o.live == {})
    && (o.automation.Some? ==>
          && o.trigger.Some?
          && o.automation.value.id != o.trigger.value.id
          && o.automation.value.trigger == o.trigger.value.id
          && o.automation.value.actions == o.actions
          && o.live == {o.automation.value.id})
  }

  /** The state right after construction: both pointers null, nothing allocated. */
  function Initial(actions: seq<Action>): (o: Owner)
    ensures Valid(o)
    ensures o.trigger.None? && o.automation.None? && o.live == {}
    ensures o.actions == actions
  {
    Owner(None, None, {}, actions, 0)
  }

  /** The match sets a rebuild is meant to leave for snapshot `s`. */
  function Intended(s: Snapshot): MatchSets {
    MatchSets({0}, {s.minute}, {s.hour}, AllDaysOfMonth, AllMonths, SelectedCodes(s.flags))
  }

  /**
    The `add_*` calls of a rebuild, in source order. Each only adds, so the
    result is whatever the trigger already held joined with the intended sets.
   */
  function Populate(m: MatchSets, s: Snapshot): (r: MatchSets)
    ensures r == Union(m, Intended(s))
  {
    var m1 := m.(seconds := m.seconds + {0});
    var m2 := m1.(daysOfMonth := AddEach(m1.daysOfMonth, 1, 31));
    var m3 := m2.(months := AddEach(m2.months, 1, 12));
    var m4 := m3.(hours := m3.hours + {s.hour});
    var m5 := m4.(minutes := m4.minutes + {s.minute});
    var days := DaysOfWeek(s.flags);
    DaysOfWeekIsSelectedCodes(s.flags);
    m5.(daysOfWeek := m5.daysOfWeek + set x | x in days)
  }

  /** `update_schedule_`: rebuild trigger and automation from snapshot `s`. */
  function Rebuild(o: Owner, s: Snapshot): (r: Owner)
    ensures r.trigger.Some? && r.automation.Some?
    // the match sets are exactly the intended ones: nothing from earlier rebuilds survives
    ensures r.trigger.value.sets == Intended(s)
    // an existing trigger keeps its identity; a first one is freshly allocated
    ensures o.trigger.Some? ==> r.trigger.value.id == o.trigger.value.id
    ensures o.trigger.None? ==> r.trigger.value.id >= o.nextId
    // a fresh automation, bound to that trigger and the unchanged action list
    ensures r.automation.value.id >= o.nextId
    ensures r.automation.value.trigger == r.trigger.value.id
    ensures r.automation.value.actions == o.actions
    ensures r.actions == o.actions
    // the previous automation is released and nothing else is
    ensures forall a :: a in o.live && (o.automation.None? || a != o.automation.value.id) ==> a in r.live
    ensures r.automation.value.id in r.live
  {
    // placement new on the existing trigger, or a first allocation
    var (t, next) :=
      if o.trigger.Some? then (CronTrigger(o.trigger.value.id, Empty), o.nextId)
      else (CronTrigger(o.nextId, Empty), o.nextId + 1);
    // delete the old automation, then allocate its replacement
    var live := if o.automation.Some? then o.live - {o.automation.value.id} else o.live;
    var a := Automation(next, t.id, o.actions);
    var t' := t.(sets := Populate(t.sets, s));
    UnionEmpty(Intended(s));
    Owner(Some(t'), Some(a), live + {a.id}, o.actions, next + 1)
  }

  /**
    Under the ownership invariant a rebuild releases the previous automation,
    keeps the invariant, and leaves exactly one automation live.
   */
  lemma RebuildKeepsValid(o: Owner, s: Snapshot)
    ensures Valid(o) && o.automation.Some? ==> o.automation.value.id !in Rebuild(o, s).live
    ensures Valid(o) ==> Valid(Rebuild(o, s))
    ensures Valid(o) ==> Rebuild(o, s).live == {Rebuild(o, s).automation.value.id}
  {
  }

  /** Two rebuilds from the same snapshot leave the same trigger as one. */
  lemma RebuildIdempotent(o: Owner, s: Snapshot)
    ensures Rebuild(Rebuild(o, s), s).trigger == Rebuild(o, s).trigger
    ensures Rebuild(Rebuild(o, s), s).automation.value.trigger == Rebuild(o, s).trigger.value.id
  {
  }

  /**
    Changing only the minute and rebuilding changes only the minute set:
    hours and weekdays are as before.
   */
  lemma RebuildAfterMinuteChange(o: Owner, s: Snapshot, minute: Minute)
    ensures var before := Rebuild(o, s).trigger.value;
            var after := Rebuild(Rebuild(o, s), s.(minute := minute)).trigger.value;
            && after.id == before.id
            && after.sets.minutes == {minute}
            && after.sets.hours == before.sets.hours
            && after.sets.daysOfWeek == before.sets.daysOfWeek
  {
  }

  /**
    Why the trigger is reset before repopulating: adding the intended entries
    to a trigger that still holds an earlier schedule keeps the earlier hour
    and minute as well.
   */
  lemma RepopulatingWithoutResetAccumulates(earlier: Snapshot, s: Snapshot)
    ensures Populate(Intended(earlier), s).hours == {earlier.hour, s.hour}
    ensures Populate(Intended(earlier), s).minutes == {earlier.minute, s.minute}
    ensures Populate(Empty, s) == Intended(s)
  {
    UnionEmpty(Intended(s));
  }

  /**
    A schedule for 07:30 on Monday, Wednesday and Friday fires at second 0 of
    07:30 on weekdays 2, 4 and 6, on any day of any month, and at no other
    moment.
   */
  lemma MorningScheduleMatches(o: Owner, t: Moment)
    requires 1 <= t.dayOfMonth <= 31 && 1 <= t.month <= 12
    ensures var s := Snapshot(7, 30, Flags(true, false, true, false, true, false, false));
            Matches(Rebuild(o, s).trigger.value.sets, t)
            <==> t.second == 0 && t.hour == 7 && t.minute == 30 && t.dayOfWeek in {2, 4, 6}
  {
    var f := Flags(true, false, true, false, true, false, false);
    assert SelectedCodes(f) == {2, 4, 6} by {
      assert Mon in AllDays && Wed in AllDays && Fri in AllDays;
      assert forall d :: d in AllDays && Flag(f, d) ==> d in {Mon, Wed, Fri};
    }
  }
}
