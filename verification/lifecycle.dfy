/** The system conditions as bit flags, and the runs of locking and recovery they trigger. */
module Lifecycle {
  import opened Common
  import opened State
  import opened Machine

  const NO_CONDITION: bv64 := 0
  const SCREEN_LOCKED: bv64 := 1
  const SLEEPING: bv64 := 2
  const SESSION_INACTIVE: bv64 := 4

  /** What an event makes the lifecycle thread do, apart from updating the flags. */
  datatype Effect = Nothing | Locks(condition: Condition) | Recovers

  datatype Event = Deactivation(condition: Condition) | Reactivation(condition: Condition) | Unknown

  /** The event numbers of the native callback. */
  function Decoded(event: int): Event {
    match event
    case 1 => Deactivation(ScreenLocked)
    case 2 => Reactivation(ScreenLocked)
    case 3 => Deactivation(Sleeping)
    case 4 => Reactivation(Sleeping)
    case 5 => Deactivation(SessionInactive)
    case 6 => Reactivation(SessionInactive)
    case _ => Unknown
  }

  function Bit(c: Condition): bv64 {
    match c
    case ScreenLocked => SCREEN_LOCKED
    case Sleeping => SLEEPING
    case SessionInactive => SESSION_INACTIVE
  }

  /** The conditions whose bits are set. */
  function Outstanding(flags: bv64): set<Condition> {
    set c: Condition | c in {ScreenLocked, Sleeping, SessionInactive} && flags & Bit(c) != 0
  }

  /** Only the three known bits are ever set. */
  predicate KnownBits(flags: bv64) {
    flags & !7 == 0
  }

  // ----- the same on sets

  function Next(outstanding: set<Condition>, event: Event): (set<Condition>, Effect) {
    match event
    case Deactivation(c) => (outstanding + {c}, if outstanding == {} then Locks(c) else Nothing)
    case Reactivation(c) => (outstanding - {c}, if outstanding == {c} then Recovers else Nothing)
    case Unknown => (outstanding, Nothing)
  }

  lemma BitsAreDistinct(flags: bv64, c: Condition, d: Condition)
    ensures (flags | Bit(c)) & Bit(d) != 0 <==> c == d || flags & Bit(d) != 0
    ensures flags & !Bit(c) & Bit(d) != 0 <==> c != d && flags & Bit(d) != 0
  {
    match (c, d) {
      case (ScreenLocked, ScreenLocked) =>
      case (ScreenLocked, Sleeping) =>
      case (ScreenLocked, SessionInactive) =>
      case (Sleeping, ScreenLocked) =>
      case (Sleeping, Sleeping) =>
      case (Sleeping, SessionInactive) =>
      case (SessionInactive, ScreenLocked) =>
      case (SessionInactive, Sleeping) =>
      case (SessionInactive, SessionInactive) =>
    }
  }

  lemma AnyCondition(c: Condition)
    ensures c in {ScreenLocked, Sleeping, SessionInactive}
  {
  }

  lemma SetBit(flags: bv64, c: Condition)
    requires KnownBits(flags)
    ensures KnownBits(flags | Bit(c)) && Outstanding(flags | Bit(c)) == Outstanding(flags) + {c}
  {
    AnyCondition(c);
    forall d ensures d in Outstanding(flags | Bit(c)) <==> d in Outstanding(flags) + {c} {
      BitsAreDistinct(flags, c, d);
    }
  }

  lemma ClearBit(flags: bv64, c: Condition)
    requires KnownBits(flags)
    ensures KnownBits(flags & !Bit(c)) && Outstanding(flags & !Bit(c)) == Outstanding(flags) - {c}
  {
    forall d ensures d in Outstanding(flags & !Bit(c)) <==> d in Outstanding(flags) - {c} {
      BitsAreDistinct(flags, c, d);
    }
  }

  lemma NoBits(flags: bv64)
    requires KnownBits(flags)
    ensures flags == 0 <==> Outstanding(flags) == {}
  {
    if Outstanding(flags) == {} {
      assert ScreenLocked !in Outstanding(flags) && Sleeping !in Outstanding(flags);
      assert SessionInactive !in Outstanding(flags);
    }
  }

  /** `lifecycle_flags` and the thread that handles the events one after the other. */
  class LifecycleFlags {
    var bits: bv64

    ghost predicate Valid()
      reads this
    {
      KnownBits(bits)
    }

    constructor ()
      ensures Valid() && bits == NO_CONDITION
    {
      bits := NO_CONDITION;
    }

    method HandleEvent(event: int) returns (effect: Effect)
      requires Valid()
      modifies this
      ensures Valid()
      ensures (Outstanding(bits), effect) == Next(old(Outstanding(bits)), Decoded(event))
    {
      match Decoded(event)
      case Deactivation(c) => effect := Deactivate(c);
      case Reactivation(c) => effect := Reactivate(c);
      case Unknown => effect := Nothing;
    }

    /** `fetch_or`; the session is locked only if no condition was outstanding. */
    method Deactivate(c: Condition) returns (effect: Effect)
      requires Valid()
      modifies this
      ensures Valid()
      ensures (Outstanding(bits), effect) == Next(old(Outstanding(bits)), Deactivation(c))
    {
      var previous := bits;
      bits := previous | Bit(c);
      SetBit(previous, c);
      NoBits(previous);
      if previous & Bit(c) != 0 || previous != 0 { return Nothing; }
      return Locks(c);
    }

    /** `fetch_and`; recovery runs only if the cleared condition was the only one. */
    method Reactivate(c: Condition) returns (effect: Effect)
      requires Valid()
      modifies this
      ensures Valid()
      ensures (Outstanding(bits), effect) == Next(old(Outstanding(bits)), Reactivation(c))
    {
      var previous := bits;
      bits := previous & !Bit(c);
      ClearBit(previous, c);
      NoBits(bits);
      OnlyBit(previous, c);
      if previous & Bit(c) == 0 || previous & !Bit(c) != 0 { return Nothing; }
      return Recovers;
    }

    /** The receiver loop over all events that arrive. */
    method HandleAll(events: seq<int>) returns (effects: seq<Effect>)
      requires Valid() && bits == NO_CONDITION
      modifies this
      ensures Valid()
      ensures Outstanding(bits) == OutstandingAfter(events)
      ensures effects == Effects(events)
      ensures bits & 1 != 0 <==> HeldSince(events, 1, 2)
      ensures bits & 2 != 0 <==> HeldSince(events, 3, 4)
      ensures bits & 4 != 0 <==> HeldSince(events, 5, 6)
    {
      hide Outstanding, Next, HeldSince;
      effects := [];
      NoneAtFirst();
      var i := 0;
      while i < |events|
        invariant 0 <= i <= |events| && Valid()
        invariant Outstanding(bits) == OutstandingAfter(events[..i])
        invariant effects == Effects(events[..i])
      {
        var effect := HandleEvent(events[i]);
        effects := effects + [effect];
        assert events[..i + 1][..i] == events[..i];
        i := i + 1;
      }
      assert events[..i] == events;
      BitsByNumber(bits, events);
    }
  }

  lemma NoneAtFirst()
    ensures Outstanding(NO_CONDITION) == {}
  {
  }

  lemma OnlyBit(flags: bv64, c: Condition)
    requires KnownBits(flags)
    ensures Outstanding(flags) == {c} <==> flags & Bit(c) != 0 && flags & !Bit(c) == 0
  {
    AnyCondition(c);
    ClearBit(flags, c);
    NoBits(flags & !Bit(c));
    assert c in Outstanding(flags) <==> flags & Bit(c) != 0;
  }

  // ----- over all event sequences

  function OutstandingAfter(events: seq<int>): set<Condition> {
    if events == [] then {}
    else Next(OutstandingAfter(events[..|events| - 1]), Decoded(events[|events| - 1])).0
  }

  /** What each event triggered. */
  function Effects(events: seq<int>): (r: seq<Effect>)
    ensures |r| == |events|
  {
    if events == [] then []
    else
      var before := events[..|events| - 1];
      Effects(before) + [Next(OutstandingAfter(before), Decoded(events[|events| - 1])).1]
  }

  /** The last event about a condition among these, if any. */
  function LastAbout(events: seq<int>, c: Condition): Event {
    if events == [] then Unknown
    else
      var last := Decoded(events[|events| - 1]);
      if !last.Unknown? && last.condition == c then last else LastAbout(events[..|events| - 1], c)
  }

  /** A condition is outstanding exactly when the last event about it was its deactivation. */
  lemma {:induction false} BitFollowsLastEvent(events: seq<int>, c: Condition)
    ensures c in OutstandingAfter(events) <==> LastAbout(events, c) == Deactivation(c)
    ensures LastAbout(events, c) in {Deactivation(c), Reactivation(c), Unknown}
  {
    hide Decoded;
    if events != [] { BitFollowsLastEvent(events[..|events| - 1], c); }
  }

  function LockRuns(effects: seq<Effect>): nat {
    if effects == [] then 0
    else LockRuns(effects[..|effects| - 1]) + if effects[|effects| - 1].Locks? then 1 else 0
  }

  function RecoveryRuns(effects: seq<Effect>): nat {
    if effects == [] then 0
    else RecoveryRuns(effects[..|effects| - 1]) + if effects[|effects| - 1].Recovers? then 1 else 0
  }

  /** Locking and recovery alternate: at any time there was one lock run more, or as many of both. */
  lemma {:induction false} RunsAlternate(events: seq<int>)
    ensures LockRuns(Effects(events)) == RecoveryRuns(Effects(events)) + if OutstandingAfter(events) != {} then 1 else 0
  {
    hide Decoded;
    if events != [] {
      var before := events[..|events| - 1];
      RunsAlternate(before);
      assert Effects(events)[..|before|] == Effects(before);
    }
  }

  lemma {:induction false} EffectAt(events: seq<int>, i: nat)
    requires i < |events|
    ensures Effects(events)[i] == Next(OutstandingAfter(events[..i]), Decoded(events[i])).1
  {
    hide Decoded, Next;
    var n := |events| - 1;
    if i < n {
      EffectAt(events[..n], i);
      assert events[..n][..i] == events[..i];
    }
  }

  /** Recovery runs exactly when an event clears the last outstanding condition, and locking when it sets the first. */
  lemma RunsExactly(events: seq<int>, i: nat)
    requires i < |events|
    ensures var before, after := OutstandingAfter(events[..i]), OutstandingAfter(events[..i + 1]);
            && (Effects(events)[i].Recovers? <==> before != {} && after == {})
            && (Effects(events)[i].Locks? <==> before == {} && after != {})
  {
    hide Decoded;
    EffectAt(events, i);
    assert events[..i + 1][..i] == events[..i];
    var before, event := OutstandingAfter(events[..i]), Decoded(events[i]);
    if event.Reactivation? && before - {event.condition} == {} && before != {} {
      assert before == {event.condition};
    }
  }

  // ----- on the raw event numbers

  /** The number `on` occurs, and `off` does not occur after it. */
  predicate HeldSince(events: seq<int>, on: int, off: int) {
    exists k | 0 <= k < |events| :: events[k] == on && NotAfter(events, k, off)
  }

  predicate NotAfter(events: seq<int>, k: int, off: int) {
    forall j | k < j < |events| && j >= 0 :: events[j] != off
  }

  lemma HeldStep(events: seq<int>, on: int, off: int)
    requires events != [] && on != off
    ensures var last := events[|events| - 1];
            HeldSince(events, on, off)
            <==> last == on || (last != off && HeldSince(events[..|events| - 1], on, off))
  {
    var n := |events| - 1;
    var before := events[..n];
    if events[n] == on {
      assert NotAfter(events, n, off);
    }
    if k :| 0 <= k < |before| && before[k] == on && NotAfter(before, k, off) {
      if events[n] != off {
        assert events[k] == on;
        forall j | k < j < |events| ensures events[j] != off {
          if j < n { assert before[j] == events[j]; }
        }
        assert NotAfter(events, k, off);
      }
    }
    if k :| 0 <= k < |events| && events[k] == on && NotAfter(events, k, off) {
      if k < n {
        assert before[k] == on;
        assert forall j | k < j < n :: before[j] == events[j];
        assert NotAfter(before, k, off);
      }
    }
  }

  /** Which pair of numbers each condition has: set by the odd one, cleared by the even one behind it. */
  lemma {:induction false} OutstandingByNumber(events: seq<int>)
    ensures ScreenLocked in OutstandingAfter(events) <==> HeldSince(events, 1, 2)
    ensures Sleeping in OutstandingAfter(events) <==> HeldSince(events, 3, 4)
    ensures SessionInactive in OutstandingAfter(events) <==> HeldSince(events, 5, 6)
  {
    hide HeldSince;
    if events == [] {
      NothingHeld();
    } else {
      OutstandingByNumber(events[..|events| - 1]);
      HeldStep(events, 1, 2);
      HeldStep(events, 3, 4);
      HeldStep(events, 5, 6);
    }
  }

  lemma NothingHeld()
    ensures !HeldSince([], 1, 2) && !HeldSince([], 3, 4) && !HeldSince([], 5, 6)
  {
  }

  predicate NothingHeldBefore(events: seq<int>, i: nat)
    requires i <= |events|
  {
    !HeldSince(events[..i], 1, 2) && !HeldSince(events[..i], 3, 4) && !HeldSince(events[..i], 5, 6)
  }

  lemma NothingOutstanding(events: seq<int>)
    ensures OutstandingAfter(events) == {}
       <==> !HeldSince(events, 1, 2) && !HeldSince(events, 3, 4) && !HeldSince(events, 5, 6)
  {
    hide HeldSince, OutstandingAfter;
    OutstandingByNumber(events);
    var outstanding := OutstandingAfter(events);
    if ScreenLocked !in outstanding && Sleeping !in outstanding && SessionInactive !in outstanding {
      forall c: Condition ensures c !in outstanding { AnyCondition(c); }
    }
  }

  /** The session is locked exactly at a number 1, 3 or 5 that finds nothing held, for the condition of that number. */
  lemma LocksByNumber(events: seq<int>, i: nat)
    requires i < |events|
    ensures Effects(events)[i].Locks? <==> events[i] in {1, 3, 5} && NothingHeldBefore(events, i)
    ensures Effects(events)[i].Locks? ==>
              && (events[i] == 1 <==> Effects(events)[i].condition == ScreenLocked)
              && (events[i] == 3 <==> Effects(events)[i].condition == Sleeping)
              && (events[i] == 5 <==> Effects(events)[i].condition == SessionInactive)
  {
    hide HeldSince, OutstandingAfter, Effects;
    EffectAt(events, i);
    NothingOutstanding(events[..i]);
  }

  /** Recovery runs exactly at a number 2, 4 or 6 whose condition is held when no other one is. */
  lemma RecoversByNumber(events: seq<int>, i: nat)
    requires i < |events|
    ensures var before := events[..i];
            Effects(events)[i].Recovers?
            <==> || (events[i] == 2 && HeldSince(before, 1, 2) && !HeldSince(before, 3, 4) && !HeldSince(before, 5, 6))
                 || (events[i] == 4 && HeldSince(before, 3, 4) && !HeldSince(before, 1, 2) && !HeldSince(before, 5, 6))
                 || (events[i] == 6 && HeldSince(before, 5, 6) && !HeldSince(before, 1, 2) && !HeldSince(before, 3, 4))
  {
    hide HeldSince, OutstandingAfter, Effects;
    EffectAt(events, i);
    OutstandingByNumber(events[..i]);
    OnlyOne(OutstandingAfter(events[..i]));
  }

  lemma OnlyOne(outstanding: set<Condition>)
    ensures outstanding == {ScreenLocked}
       <==> ScreenLocked in outstanding && Sleeping !in outstanding && SessionInactive !in outstanding
    ensures outstanding == {Sleeping}
       <==> Sleeping in outstanding && ScreenLocked !in outstanding && SessionInactive !in outstanding
    ensures outstanding == {SessionInactive}
       <==> SessionInactive in outstanding && ScreenLocked !in outstanding && Sleeping !in outstanding
  {
    forall c | c in outstanding ensures c in {ScreenLocked, Sleeping, SessionInactive} { AnyCondition(c); }
  }

  /** Any other number changes and triggers nothing. */
  lemma OtherNumbersIgnored(events: seq<int>, i: nat)
    requires i < |events| && !(1 <= events[i] <= 6)
    ensures Effects(events)[i] == Nothing && OutstandingAfter(events[..i + 1]) == OutstandingAfter(events[..i])
  {
    hide Effects;
    EffectAt(events, i);
    assert events[..i + 1][..i] == events[..i];
  }

  lemma BitsByNumber(flags: bv64, events: seq<int>)
    requires Outstanding(flags) == OutstandingAfter(events)
    ensures flags & 1 != 0 <==> HeldSince(events, 1, 2)
    ensures flags & 2 != 0 <==> HeldSince(events, 3, 4)
    ensures flags & 4 != 0 <==> HeldSince(events, 5, 6)
  {
    hide HeldSince, OutstandingAfter;
    OutstandingByNumber(events);
    assert ScreenLocked in Outstanding(flags) <==> flags & 1 != 0;
    assert Sleeping in Outstanding(flags) <==> flags & 2 != 0;
    assert SessionInactive in Outstanding(flags) <==> flags & 4 != 0;
  }

  /** The session machine takes exactly these steps when it treats the flags as a set. */
  lemma MachineTakesTheseSteps(s: Shared, c: Condition)
    ensures LockShared(s, None, LockAction.Deactivate(c)).outstanding == Next(s.outstanding, Deactivation(c)).0
    ensures LockTask(s, None, LockAction.Deactivate(c)).Some? <==> Next(s.outstanding, Deactivation(c)).1 == Locks(c)
    ensures LockShared(s, None, LockAction.Reactivate(c)).outstanding == Next(s.outstanding, Reactivation(c)).0
    ensures LockTask(s, None, LockAction.Reactivate(c)).Some? <==> Next(s.outstanding, Reactivation(c)).1 == Recovers
  {
    if c in s.outstanding && s.outstanding - {c} == {} {
      assert s.outstanding == {c};
    }
  }
}
