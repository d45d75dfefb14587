/**
  Translation of the seven day-of-week switches into the cron trigger's
  weekday codes (`DynamicOnTime::flags_to_days_of_week_`).

  The component receives the switches in Mon..Sun order, while the trigger
  numbers days from Sunday: Sun=1, Mon=2, ..., Sat=7. The translation pairs the
  code vector [1..7] with the flags reordered to Sun..Sat and keeps, by
  position, the codes whose flag is set. Two models are given: the functional
  filter `Select`, and the erase-remove compaction `EraseRemove` over an
  array, proved equal to it.
 */
module Weekdays {

  /** The seven switches, in the order the component takes them. */
  datatype Flags = Flags(mon: bool, tue: bool, wed: bool, thu: bool, fri: bool, sat: bool, sun: bool)

  datatype Weekday = Sun | Mon | Tue | Wed | Thu | Fri | Sat

  const AllDays: set<Weekday> := {Sun, Mon, Tue, Wed, Thu, Fri, Sat}

  /** The trigger's numbering of a day: Sunday is 1, Saturday is 7. */
  function Code(d: Weekday): int {
    match d
    case Sun => 1
    case Mon => 2
    case Tue => 3
    case Wed => 4
    case Thu => 5
    case Fri => 6
    case Sat => 7
  }

  /** The switch that enables day `d`. */
  function Flag(f: Flags, d: Weekday): bool {
    match d
    case Sun => f.sun
    case Mon => f.mon
    case Tue => f.tue
    case Wed => f.wed
    case Thu => f.thu
    case Fri => f.fri
    case Sat => f.sat
  }

  /** Reference definition: the codes of the enabled days, as a set. */
  function SelectedCodes(f: Flags): set<int> {
    set d | d in AllDays && Flag(f, d) :: Code(d)
  }

  /** The code vector the translation starts from. */
  const Codes: seq<int> := [1, 2, 3, 4, 5, 6, 7]

  /** The flags reordered Sun..Sat, so that position i pairs with Codes[i]. */
  function SunFirst(f: Flags): seq<bool> {
    [f.sun, f.mon, f.tue, f.wed, f.thu, f.fri, f.sat]
  }

  /** Number of switches that are on. */
  function TrueCount(f: Flags): nat {
    CountTrue(SunFirst(f))
  }

  predicate StrictlyAscending(s: seq<int>) {
    forall i, j :: 0 <= i < j < |s| ==> s[i] < s[j]
  }

  function CountTrue(bs: seq<bool>): nat {
    if |bs| == 0 then 0
    else CountTrue(bs[..|bs| - 1]) + (if bs[|bs| - 1] then 1 else 0)
  }

  /**
    The filter over index: the elements of `xs` whose flag at the same
    position is set, in their original order.
   */
  function Select(xs: seq<int>, keep: seq<bool>): seq<int>
    requires |xs| == |keep|
  {
    if |xs| == 0 then []
    else Select(xs[..|xs| - 1], keep[..|keep| - 1]) + (if keep[|keep| - 1] then [xs[|xs| - 1]] else [])
  }

  /** Extending both inputs by one position extends the filter by at most that element. */
  lemma SelectStep(xs: seq<int>, keep: seq<bool>, i: nat)
    requires |xs| == |keep|
    requires i < |xs|
    ensures Select(xs[..i + 1], keep[..i + 1])
            == Select(xs[..i], keep[..i]) + (if keep[i] then [xs[i]] else [])
  {
    assert xs[..i + 1][..i] == xs[..i];
    assert keep[..i + 1][..i] == keep[..i];
  }

  lemma {:induction false} SelectLength(xs: seq<int>, keep: seq<bool>)
    requires |xs| == |keep|
    ensures |Select(xs, keep)| == CountTrue(keep)
  {
    if |xs| > 0 {
      SelectLength(xs[..|xs| - 1], keep[..|keep| - 1]);
    }
  }

  /** An element survives the filter iff some position holding it has its flag set. */
  lemma {:induction false} SelectMembership(xs: seq<int>, keep: seq<bool>, x: int)
    requires |xs| == |keep|
    ensures x in Select(xs, keep) <==> exists i :: 0 <= i < |xs| && xs[i] == x && keep[i]
  {
    if |xs| > 0 {
      var n := |xs| - 1;
      SelectMembership(xs[..n], keep[..n], x);
      if exists i :: 0 <= i < |xs| && xs[i] == x && keep[i] {
        var i :| 0 <= i < |xs| && xs[i] == x && keep[i];
        if i < n {
          assert xs[..n][i] == x && keep[..n][i];
        }
      }
      if x in Select(xs[..n], keep[..n]) {
        var i :| 0 <= i < n && xs[..n][i] == x && keep[..n][i];
        assert xs[i] == x && keep[i];
      }
    }
  }

  /** Every element of the filter comes from the input. */
  lemma {:induction false} SelectSubset(xs: seq<int>, keep: seq<bool>)
    requires |xs| == |keep|
    ensures forall x :: x in Select(xs, keep) ==> x in xs
  {
    forall x | x in Select(xs, keep)
      ensures x in xs
    {
      SelectMembership(xs, keep, x);
    }
  }

  /** The filter keeps the order of its input, so an ascending input stays ascending. */
  lemma {:induction false} SelectAscending(xs: seq<int>, keep: seq<bool>)
    requires |xs| == |keep|
    requires StrictlyAscending(xs)
    ensures StrictlyAscending(Select(xs, keep))
  {
    if |xs| > 0 {
      var n := |xs| - 1;
      var prefix := Select(xs[..n], keep[..n]);
      assert StrictlyAscending(xs[..n]) by {
        forall i, j | 0 <= i < j < n
          ensures xs[..n][i] < xs[..n][j]
        {
          assert xs[..n][i] == xs[i] && xs[..n][j] == xs[j];
        }
      }
      SelectAscending(xs[..n], keep[..n]);
      SelectSubset(xs[..n], keep[..n]);
      forall x | x in prefix
        ensures x < xs[n]
      {
        var k :| 0 <= k < n && xs[..n][k] == x;
      }
      var r := Select(xs, keep);
      assert r == prefix + (if keep[n] then [xs[n]] else []);
      forall i, j | 0 <= i < j < |r|
        ensures r[i] < r[j]
      {
        if j < |prefix| {
          assert r[i] == prefix[i] && r[j] == prefix[j];
        } else {
          assert r[i] == prefix[i] && prefix[i] in prefix;
        }
      }
    }
  }

  /** In an ascending input, the element at position i survives iff its own flag is set. */
  lemma {:induction false} SelectAt(xs: seq<int>, keep: seq<bool>, i: nat)
    requires |xs| == |keep|
    requires StrictlyAscending(xs)
    requires i < |xs|
    ensures xs[i] in Select(xs, keep) <==> keep[i]
  {
    var n := |xs| - 1;
    assert StrictlyAscending(xs[..n]) by {
      forall j, k | 0 <= j < k < n
        ensures xs[..n][j] < xs[..n][k]
      {
        assert xs[..n][j] == xs[j] && xs[..n][k] == xs[k];
      }
    }
    SelectSubset(xs[..n], keep[..n]);
    if i < n {
      SelectAt(xs[..n], keep[..n], i);
      assert xs[..n][i] == xs[i] && keep[..n][i] == keep[i];
      assert xs[i] != xs[n];
    } else {
      forall x | x in Select(xs[..n], keep[..n])
        ensures x < xs[n]
      {
        var k :| 0 <= k < n && xs[..n][k] == x;
        assert xs[k] < xs[n];
      }
    }
  }

  /** Position Code(d) - 1 pairs day d's code with day d's switch. */
  lemma SunFirstPairsCodes(f: Flags, d: Weekday)
    ensures Code(d) in Select(Codes, SunFirst(f)) <==> Flag(f, d)
  {
    var i := Code(d) - 1;
    assert Codes[i] == Code(d) && SunFirst(f)[i] == Flag(f, d);
    SelectAt(Codes, SunFirst(f), i);
  }

  /** The weekday codes for the given switches, ascending. */
  function DaysOfWeek(f: Flags): (r: seq<int>)
    ensures StrictlyAscending(r)
    ensures forall x :: x in r ==> 1 <= x <= 7
    ensures forall d: Weekday :: Code(d) in r <==> Flag(f, d)
    ensures |r| == TrueCount(f)
  {
    SelectAscending(Codes, SunFirst(f));
    SelectSubset(Codes, SunFirst(f));
    SelectLength(Codes, SunFirst(f));
    assert forall d: Weekday :: Code(d) in Select(Codes, SunFirst(f)) <==> Flag(f, d) by {
      forall d: Weekday {
        SunFirstPairsCodes(f, d);
      }
    }
    Select(Codes, SunFirst(f))
  }

  /** The codes produced are exactly the reference set of enabled days. */
  lemma DaysOfWeekIsSelectedCodes(f: Flags)
    ensures (set x | x in DaysOfWeek(f)) == SelectedCodes(f)
  {
    var r := DaysOfWeek(f);
    forall x | x in r
      ensures x in SelectedCodes(f)
    {
      var d := DayOf(x);
      assert Code(d) == x;
    }
  }

  /** The day a code in 1..7 stands for. */
  function DayOf(c: int): (d: Weekday)
    requires 1 <= c <= 7
    ensures Code(d) == c
  {
    if c == 1 then Sun
    else if c == 2 then Mon
    else if c == 3 then Tue
    else if c == 4 then Wed
    else if c == 5 then Thu
    else if c == 6 then Fri
    else Sat
  }

  /** No switch is on iff the count is 0; every switch is on iff the count is 7. */
  lemma TrueCountExtremes(f: Flags)
    ensures TrueCount(f) == 0 <==> !f.mon && !f.tue && !f.wed && !f.thu && !f.fri && !f.sat && !f.sun
    ensures TrueCount(f) == 7 <==> f.mon && f.tue && f.wed && f.thu && f.fri && f.sat && f.sun
  {
    var s7 := SunFirst(f);
    var s6 := [f.sun, f.mon, f.tue, f.wed, f.thu, f.fri];
    var s5 := [f.sun, f.mon, f.tue, f.wed, f.thu];
    var s4 := [f.sun, f.mon, f.tue, f.wed];
    var s3 := [f.sun, f.mon, f.tue];
    var s2 := [f.sun, f.mon];
    var s1 := [f.sun];
    assert s7[..6] == s6 && s6[..5] == s5 && s5[..4] == s4;
    assert s4[..3] == s3 && s3[..2] == s2 && s2[..1] == s1 && s1[..0] == [];
    assert TrueCount(f) == CountTrue(s6) + (if f.sat then 1 else 0);
    assert CountTrue(s6) == CountTrue(s5) + (if f.fri then 1 else 0);
    assert CountTrue(s5) == CountTrue(s4) + (if f.thu then 1 else 0);
    assert CountTrue(s4) == CountTrue(s3) + (if f.wed then 1 else 0);
    assert CountTrue(s3) == CountTrue(s2) + (if f.tue then 1 else 0);
    assert CountTrue(s2) == CountTrue(s1) + (if f.mon then 1 else 0);
    assert CountTrue(s1) == (if f.sun then 1 else 0);
  }

  /**
    The boundary configurations: no day gives no code, every day gives all
    seven, stated both through the count and for the literal switch records.
   */
  lemma {:induction false} DaysOfWeekBounds(f: Flags)
    ensures TrueCount(f) == 0 ==> DaysOfWeek(f) == []
    ensures TrueCount(f) == 7 ==> DaysOfWeek(f) == Codes
    ensures f == Flags(false, false, false, false, false, false, false) ==> DaysOfWeek(f) == []
    ensures f == Flags(true, true, true, true, true, true, true) ==> DaysOfWeek(f) == Codes
  {
    TrueCountExtremes(f);
    var r := DaysOfWeek(f);
    if TrueCount(f) == 7 {
      // Seven distinct ascending codes drawn from 1..7 are 1..7 themselves.
      assert |r| == 7;
      assert r[0] in r && r[6] in r;
      assert r[0] < r[1] < r[2] < r[3] < r[4] < r[5] < r[6];
    }
  }

  /** A single enabled day gives just that day's code: Monday alone gives [2], Sunday alone [1]. */
  lemma {:induction false} DaysOfWeekSingleDay(f: Flags, d: Weekday)
    requires Flag(f, d) && TrueCount(f) == 1
    ensures DaysOfWeek(f) == [Code(d)]
  {
    var r := DaysOfWeek(f);
    assert |r| == 1 && Code(d) in r;
  }

  /**
    `std::remove_if` followed by `erase`, with a predicate that looks up the
    flag at the tested element's own position in the vector. The positions
    read are never written before they are tested (the write position never
    passes the read position), so each element is tested against the flag
    it was paired with.
   */
  method EraseRemove(days: seq<int>, flags: seq<bool>) returns (r: seq<int>)
    requires |days| == |flags|
    ensures r == Select(days, flags)
  {
    // find_if only reads, so it is done before the copy
    var first := FindFirstRemoved(days, flags);
    var a := new int[|days|];
    forall i | 0 <= i < |days| {
      a[i] := days[i];
    }
    var newEnd := first;
    if first < a.Length {
      newEnd := MoveKept(a, first, days, flags);
    } else {
      assert days[..first] == days && flags[..first] == flags;
    }
    // erase(new_end, end)
    r := a[..newEnd];
  }

  /**
    The `find_if` that starts `remove_if`: the first position the predicate
    removes (its flag is off), or the length when there is none. Everything
    before it is kept.
   */
  method FindFirstRemoved(days: seq<int>, flags: seq<bool>) returns (first: nat)
    requires |days| == |flags|
    ensures first <= |flags|
    ensures first < |flags| ==> !flags[first]
    ensures forall k :: 0 <= k < first ==> flags[k]
    ensures Select(days[..first], flags[..first]) == days[..first]
  {
    first := 0;
    while first < |flags| && flags[first]
      invariant first <= |flags|
      invariant forall k :: 0 <= k < first ==> flags[k]
    {
      first := first + 1;
    }
    SelectAllKept(days, flags, first);
  }

  /** A prefix whose flags are all set passes the filter unchanged. */
  lemma {:induction false} SelectAllKept(days: seq<int>, flags: seq<bool>, n: nat)
    requires |days| == |flags| && n <= |flags|
    requires forall k :: 0 <= k < n ==> flags[k]
    ensures Select(days[..n], flags[..n]) == days[..n]
  {
    if n > 0 {
      SelectAllKept(days, flags, n - 1);
      SelectStep(days, flags, n - 1);
      assert days[..n] == days[..n - 1] + [days[n - 1]];
    }
  }

  /**
    The moving loop of `remove_if`: read position `i` runs ahead of write
    position `w`; an element the predicate keeps is moved from `i` down to
    `w`. As `w < i` throughout, positions from `i` on still hold their
    original elements when they are tested.
   */
  method MoveKept(a: array<int>, first: nat, days: seq<int>, flags: seq<bool>) returns (w: nat)
    requires a.Length == |days| == |flags|
    requires first < a.Length && !flags[first]
    requires a[..] == days
    requires Select(days[..first], flags[..first]) == days[..first]
    modifies a
    ensures w <= a.Length
    ensures a[..w] == Select(days, flags)
  {
    SelectStep(days, flags, first);
    assert a[..first] == days[..first];
    w := first;
    var i := first + 1;
    while i < a.Length
      invariant w < i <= a.Length
      invariant forall k :: i <= k < a.Length ==> a[k] == days[k]
      invariant a[..w] == Select(days[..i], flags[..i])
    {
      SelectStep(days, flags, i);
      if flags[i] {
        a[w] := a[i];
        w := w + 1;
      }
      i := i + 1;
    }
    assert days[..i] == days && flags[..i] == flags;
  }

  /** `flags_to_days_of_week_`: the compaction of Codes under the Sun-first flags. */
  method FlagsToDaysOfWeek(f: Flags) returns (r: seq<int>)
    ensures StrictlyAscending(r)
    ensures forall d: Weekday :: Code(d) in r <==> Flag(f, d)
    ensures forall x :: x in r ==> 1 <= x <= 7
    ensures |r| == TrueCount(f)
  {
    r := EraseRemove(Codes, SunFirst(f));
    assert r == DaysOfWeek(f);
  }
}
