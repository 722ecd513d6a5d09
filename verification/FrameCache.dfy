/**
 * The daily-frame cache of backend/main.py (`_ensure_daily_frame`): double-checked locking under an async
 * lock, as a state machine in which any number of callers, each wanting some trade date, interleave
 * between any two of their steps, assemblies may fail and callers may be cancelled while they wait.
 */
module FrameCache {
  import opened Outcome

  type Caller = nat
  type Date = int

  datatype Phase =
    | Entered      // about to make the first, unlocked check
    | Waiting      // missed; waiting for the lock
    | Locked       // holds the lock; about to make the second check
    | Assembling   // holds the lock; awaiting the assembler
    | Alerting     // holds the lock; assembly failed, awaiting the alerter
    | Returned
    | Cancelled

  datatype Event = Began(caller: Caller, date: Date) | Stored(caller: Caller, date: Date)

  datatype State = State(
    cached: Option<Date>,
    lock: Option<Caller>,
    wants: map<Caller, Date>,
    phase: map<Caller, Phase>,
    events: seq<Event>)

  /** One atomic step of one caller. */
  datatype Step =
    | Enter(caller: Caller, date: Date)
    | FirstCheck(caller: Caller)
    | Acquire(caller: Caller)
    | SecondCheck(caller: Caller)
    | Succeed(caller: Caller)
    | Fail(caller: Caller, alerter: bool)
    | AlertDone(caller: Caller)
    | Cancel(caller: Caller)

  predicate At(s: State, p: Caller, phase: Phase) { p in s.phase && p in s.wants && s.phase[p] == phase }

  predicate Hit(s: State, p: Caller)
    requires p in s.wants
  {
    s.cached == Some(s.wants[p])
  }

  predicate Enabled(s: State, step: Step) {
    var p := step.caller;
    match step
    case Enter(_, _) => p !in s.phase && p !in s.wants
    case FirstCheck(_) => At(s, p, Entered)
    case Acquire(_) => At(s, p, Waiting) && s.lock.None?
    case SecondCheck(_) => At(s, p, Locked)
    case Succeed(_) => At(s, p, Assembling)
    case Fail(_, _) => At(s, p, Assembling)
    case AlertDone(_) => At(s, p, Alerting)
    case Cancel(_) => At(s, p, Waiting) || At(s, p, Assembling) || At(s, p, Alerting)
  }

  function To(s: State, p: Caller, phase: Phase): State { s.(phase := s.phase[p := phase]) }

  /** Leaving the `async with` block, normally or by an exception. */
  function Leave(s: State, p: Caller, phase: Phase): State { To(s, p, phase).(lock := None) }

  function Next(s: State, step: Step): State
    requires Enabled(s, step)
  {
    var p := step.caller;
    match step
    case Enter(_, date) => To(s, p, Entered).(wants := s.wants[p := date])
    case FirstCheck(_) => To(s, p, if Hit(s, p) then Returned else Waiting)
    case Acquire(_) => To(s, p, Locked).(lock := Some(p))
    case SecondCheck(_) =>
      if Hit(s, p) then Leave(s, p, Returned)
      else To(s, p, Assembling).(events := s.events + [Began(p, s.wants[p])])
    case Succeed(_) =>
      Leave(s, p, Returned).(cached := Some(s.wants[p]), events := s.events + [Stored(p, s.wants[p])])
    case Fail(_, alerter) => if alerter then To(s, p, Alerting) else Leave(s, p, Returned)
    case AlertDone(_) => Leave(s, p, Returned)
    case Cancel(_) => if s.phase[p].Waiting? then To(s, p, Cancelled) else Leave(s, p, Cancelled)
  }

  function Init(cached: Option<Date>): State { State(cached, None, map[], map[], []) }

  /** The state after a sequence of steps; None if some step was not enabled when it was taken. */
  function Exec(s: State, steps: seq<Step>): Option<State> {
    if steps == [] then Some(s)
    else
      var mid := Exec(s, steps[..|steps| - 1]);
      if mid.Some? && Enabled(mid.value, steps[|steps| - 1]) then Some(Next(mid.value, steps[|steps| - 1])) else None
  }

  // ---------------------------------------------------------------- the invariant

  predicate Inside(phase: Phase) { phase.Locked? || phase.Assembling? || phase.Alerting? }

  /** The lock is held by exactly the caller that is inside the block. */
  ghost predicate Exclusive(s: State) {
    && (forall p :: p in s.phase ==> p in s.wants && (Inside(s.phase[p]) <==> s.lock == Some(p)))
    && (s.lock.Some? ==> s.lock.value in s.phase)
  }

  /** What the cache held after the first k events. */
  ghost function CachedAfter(initial: Option<Date>, events: seq<Event>): Option<Date> {
    if events == [] then initial
    else
      var e := events[|events| - 1];
      if e.Stored? then Some(e.date) else CachedAfter(initial, events[..|events| - 1])
  }

  /** Every assembly began, and every one that succeeded stored, while its date was not the cached one. */
  ghost predicate OnlyMisses(initial: Option<Date>, events: seq<Event>) {
    forall k :: 0 <= k < |events| ==> CachedAfter(initial, events[..k]) != Some(events[k].date)
  }

  ghost predicate History(initial: Option<Date>, s: State) {
    s.cached == CachedAfter(initial, s.events) && OnlyMisses(initial, s.events)
  }

  ghost predicate AssemblingMisses(s: State) {
    forall p :: p in s.phase && p in s.wants && s.phase[p].Assembling? ==> !Hit(s, p)
  }

  ghost predicate EventsAreWanted(s: State) {
    forall k :: 0 <= k < |s.events| ==>
      s.events[k].caller in s.wants && s.wants[s.events[k].caller] == s.events[k].date
  }

  ghost predicate Inv(initial: Option<Date>, s: State) {
    Exclusive(s) && History(initial, s) && AssemblingMisses(s) && EventsAreWanted(s)
  }

  lemma AppendEvent(initial: Option<Date>, events: seq<Event>, e: Event)
    requires OnlyMisses(initial, events) && CachedAfter(initial, events) != Some(e.date)
    ensures OnlyMisses(initial, events + [e])
    ensures CachedAfter(initial, events + [e]) == if e.Stored? then Some(e.date) else CachedAfter(initial, events)
  {
    var all := events + [e];
    assert all[..|events|] == events;
    forall k | 0 <= k < |all| ensures CachedAfter(initial, all[..k]) != Some(all[k].date) {
      if k < |events| { assert all[..k] == events[..k]; }
    }
  }

  lemma StepKeepsExclusive(s: State, step: Step)
    requires Exclusive(s) && Enabled(s, step)
    ensures Exclusive(Next(s, step))
  {}

  lemma StepKeepsMisses(s: State, step: Step)
    requires Exclusive(s) && AssemblingMisses(s) && Enabled(s, step)
    ensures AssemblingMisses(Next(s, step))
  {
    var t := Next(s, step);
    assert step.Succeed? ==> s.lock == Some(step.caller);
    forall p | p in t.phase && p in t.wants && t.phase[p].Assembling? ensures !Hit(t, p) {
      if p != step.caller { assert s.phase[p].Assembling? && s.lock == Some(p); }
    }
  }

  lemma StepKeepsHistory(initial: Option<Date>, s: State, step: Step)
    requires AssemblingMisses(s) && History(initial, s) && Enabled(s, step)
    ensures History(initial, Next(s, step))
  {
    var p := step.caller;
    if step.SecondCheck? && !Hit(s, p) { AppendEvent(initial, s.events, Began(p, s.wants[p])); }
    if step.Succeed? { AppendEvent(initial, s.events, Stored(p, s.wants[p])); }
  }

  lemma StepKeepsEvents(s: State, step: Step)
    requires EventsAreWanted(s) && Enabled(s, step)
    ensures EventsAreWanted(Next(s, step))
  {}

  lemma StepKeepsInv(initial: Option<Date>, s: State, step: Step)
    requires Inv(initial, s) && Enabled(s, step)
    ensures Inv(initial, Next(s, step))
  {
    StepKeepsExclusive(s, step);
    StepKeepsMisses(s, step);
    StepKeepsHistory(initial, s, step);
    StepKeepsEvents(s, step);
  }

  lemma {:induction false} RunKeepsInv(cached: Option<Date>, steps: seq<Step>, t: State)
    requires Exec(Init(cached), steps) == Some(t)
    ensures Inv(cached, t)
    decreases |steps|
  {
    if steps != [] {
      var n := |steps| - 1;
      var mid := Exec(Init(cached), steps[..n]).value;
      RunKeepsInv(cached, steps[..n], mid);
      StepKeepsInv(cached, mid, steps[n]);
    }
  }

  // ---------------------------------------------------------------- safety of every run

  /** Two different callers are never inside the block at once, and a lock that is held has its holder inside. */
  lemma MutualExclusion(cached: Option<Date>, steps: seq<Step>, t: State, p: Caller, q: Caller)
    requires Exec(Init(cached), steps) == Some(t)
    requires p in t.phase && q in t.phase && Inside(t.phase[p]) && Inside(t.phase[q])
    ensures p == q && t.lock == Some(p)
  {
    RunKeepsInv(cached, steps, t);
  }

  /** The lock is free after every exit path: when every caller has left, nobody holds it. */
  lemma LockIsFreeInTheEnd(cached: Option<Date>, steps: seq<Step>, t: State)
    requires Exec(Init(cached), steps) == Some(t)
    requires forall p :: p in t.phase ==> t.phase[p].Returned? || t.phase[p].Cancelled?
    ensures t.lock.None?
  {
    RunKeepsInv(cached, steps, t);
  }

  ghost predicate AllWant(s: State, d: Date) { forall p :: p in s.wants ==> s.wants[p] == d }

  /** For any dates: two stored frames with no other stored frame between them carry different dates. */
  lemma ConsecutiveStoresDiffer(cached: Option<Date>, steps: seq<Step>, t: State, i: nat, j: nat)
    requires Exec(Init(cached), steps) == Some(t)
    requires i < j < |t.events| && t.events[i].Stored? && t.events[j].Stored?
    requires forall k :: i < k < j ==> !t.events[k].Stored?
    ensures t.events[i].date != t.events[j].date
  {
    RunKeepsInv(cached, steps, t);
    LastStore(cached, t.events, i, j);
  }

  lemma {:induction false} LastStore(initial: Option<Date>, events: seq<Event>, i: nat, j: nat)
    requires i < j <= |events| && events[i].Stored? && forall k :: i < k < j ==> !events[k].Stored?
    ensures CachedAfter(initial, events[..j]) == Some(events[i].date)
    decreases j
  {
    assert events[..j][..j - 1] == events[..j - 1];
    if j > i + 1 { LastStore(initial, events, i, j - 1); }
  }

  lemma {:induction false} CachedStays(initial: Option<Date>, events: seq<Event>, k: nat, d: Date)
    requires k <= |events| && CachedAfter(initial, events[..k]) == Some(d)
    requires forall i :: 0 <= i < |events| ==> events[i].date == d
    ensures CachedAfter(initial, events) == Some(d)
  {
    if k == |events| {
      assert events[..k] == events;
    } else {
      var n := |events| - 1;
      assert events[..n][..k] == events[..k];
      CachedStays(initial, events[..n], k, d);
    }
  }

  /**
   * When every caller wants the same date: once the date is cached no assembly begins any more, so at most
   * one assembly ever succeeds, and it is the last assembly to begin.
   */
  lemma AtMostOneAssemblySucceeds(cached: Option<Date>, steps: seq<Step>, t: State, d: Date, i: nat, j: nat)
    requires Exec(Init(cached), steps) == Some(t) && AllWant(t, d)
    requires i < |t.events| && t.events[i].Stored? && j < |t.events|
    ensures j <= i
    ensures t.cached == Some(d) && cached != Some(d)
  {
    RunKeepsInv(cached, steps, t);
    NoLaterEvent(cached, t.events, i, j, d);
    CachedSince(cached, t.events, i, |t.events|, d);
    assert t.events[..|t.events|] == t.events;
    StoredMeansNotCached(cached, t.events, i, d);
  }

  lemma CachedSince(initial: Option<Date>, events: seq<Event>, i: nat, j: nat, d: Date)
    requires i < j <= |events| && events[i].Stored?
    requires forall k :: 0 <= k < |events| ==> events[k].date == d
    ensures CachedAfter(initial, events[..j]) == Some(d)
  {
    assert events[..i + 1][..i] == events[..i];
    assert events[..j][..i + 1] == events[..i + 1];
    CachedStays(initial, events[..j], i + 1, d);
  }

  lemma NoLaterEvent(initial: Option<Date>, events: seq<Event>, i: nat, j: nat, d: Date)
    requires OnlyMisses(initial, events) && i < |events| && events[i].Stored? && j < |events|
    requires forall k :: 0 <= k < |events| ==> events[k].date == d
    ensures j <= i
  {
    if j > i { CachedSince(initial, events, i, j, d); }
  }

  lemma StoredMeansNotCached(initial: Option<Date>, events: seq<Event>, i: nat, d: Date)
    requires OnlyMisses(initial, events) && i < |events|
    requires forall k :: 0 <= k < |events| ==> events[k].date == d
    ensures initial != Some(d)
  {
    assert events[..0] == [];
    assert CachedAfter(initial, events[..0]) == initial;
    assert events[0].date == d;
  }

  /** A cache that already holds the wanted date is never reassembled. */
  lemma WarmCacheNeverAssembles(steps: seq<Step>, t: State, d: Date)
    requires Exec(Init(Some(d)), steps) == Some(t) && AllWant(t, d)
    ensures t.events == [] && t.cached == Some(d)
  {
    RunKeepsInv(Some(d), steps, t);
    if t.events != [] { StoredMeansNotCached(Some(d), t.events, 0, d); }
  }

  /** A caller that finds its date cached returns at once: no lock, no assembly. */
  lemma HitReturnsAtOnce(s: State, p: Caller)
    requires At(s, p, Entered)
    ensures var t := Next(s, FirstCheck(p));
            && t.lock == s.lock && t.events == s.events && t.cached == s.cached
            && (At(t, p, Returned) <==> Hit(s, p)) && (At(t, p, Waiting) <==> !Hit(s, p))
  {}

  /** A step other than a successful assembly leaves the cache alone; in particular a failed one does. */
  lemma OnlySuccessWrites(s: State, step: Step)
    requires Enabled(s, step) && !step.Succeed?
    ensures Next(s, step).cached == s.cached
  {}

  // ---------------------------------------------------------------- what the locked steps do

  /** A successful assembly caches the caller's date, records one store, frees the lock and returns. */
  lemma SuccessWrites(s: State, p: Caller)
    requires At(s, p, Assembling)
    ensures var t := Next(s, Succeed(p));
            && t.cached == Some(s.wants[p]) && t.events == s.events + [Stored(p, s.wants[p])]
            && At(t, p, Returned) && t.lock.None? && t.wants == s.wants
  {}

  /** A caller enters with the date it wants, and takes the lock only when it is free. */
  lemma EntryAndLock(s: State, p: Caller, date: Date)
    ensures Enabled(s, Enter(p, date)) ==> Entering(s, p, date, Next(s, Enter(p, date)))
    ensures Enabled(s, Acquire(p)) ==> s.lock.None? && Acquiring(s, p, Next(s, Acquire(p)))
  {}

  ghost predicate Entering(s: State, p: Caller, date: Date, t: State) {
    At(t, p, Entered) && t.wants[p] == date && t.cached == s.cached && t.lock == s.lock && t.events == s.events
  }

  ghost predicate Acquiring(s: State, p: Caller, t: State) {
    At(t, p, Locked) && t.lock == Some(p) && t.cached == s.cached && t.events == s.events && t.wants == s.wants
  }

  /** The second check returns on a hit; an assembly begins, with the lock kept, exactly on a miss. */
  lemma SecondCheckDecides(s: State, p: Caller)
    requires At(s, p, Locked)
    ensures var t := Next(s, SecondCheck(p));
            && t.cached == s.cached
            && if s.cached == Some(s.wants[p]) then At(t, p, Returned) && t.lock.None? && t.events == s.events
               else At(t, p, Assembling) && t.lock == s.lock && t.events == s.events + [Began(p, s.wants[p])]
  {}

  /** A failed assembly leaves cache and record alone; the lock is kept only while an alert is being sent. */
  lemma FailureWritesNothing(s: State, p: Caller, alerter: bool)
    requires At(s, p, Assembling)
    ensures var t := Next(s, Fail(p, alerter));
            && t.cached == s.cached && t.events == s.events
            && if alerter then At(t, p, Alerting) && t.lock == s.lock else At(t, p, Returned) && t.lock.None?
  {}

  /** In every reachable state, a step by which a caller leaves the block frees the lock, whatever the step. */
  lemma LeavingFreesTheLock(cached: Option<Date>, steps: seq<Step>, t: State, step: Step)
    requires Exec(Init(cached), steps) == Some(t) && Enabled(t, step)
    requires At(t, step.caller, Locked) || At(t, step.caller, Assembling) || At(t, step.caller, Alerting)
    ensures var u := Next(t, step);
            if At(u, step.caller, Returned) || At(u, step.caller, Cancelled) then u.lock.None?
            else u.lock == Some(step.caller)
  {
    RunKeepsInv(cached, steps, t);
  }

  // ---------------------------------------------------------------- one success is enough

  lemma {:induction false} PrefixRuns(s: State, steps: seq<Step>, k: nat)
    requires k <= |steps| && Exec(s, steps).Some?
    ensures Exec(s, steps[..k]).Some?
    ensures forall p :: p in Exec(s, steps[..k]).value.wants ==>
              p in Exec(s, steps).value.wants
              && Exec(s, steps[..k]).value.wants[p] == Exec(s, steps).value.wants[p]
  {
    if k == |steps| {
      assert steps[..k] == steps;
    } else {
      var n := |steps| - 1;
      assert steps[..n][..k] == steps[..k];
      PrefixRuns(s, steps[..n], k);
    }
  }

  ghost predicate NobodyAssembles(s: State) { forall p :: p in s.phase ==> !s.phase[p].Assembling? }

  lemma SuccessSettles(initial: Option<Date>, s: State, p: Caller, d: Date)
    requires Inv(initial, s) && At(s, p, Assembling) && s.wants[p] == d
    ensures var t := Next(s, Succeed(p)); t.cached == Some(d) && NobodyAssembles(t)
  {
    var t := Next(s, Succeed(p));
    forall q | q in t.phase ensures !t.phase[q].Assembling? {
      if q != p { assert s.lock == Some(p); }
    }
  }

  lemma SettledStays(s: State, step: Step, d: Date)
    requires s.cached == Some(d) && NobodyAssembles(s) && Enabled(s, step) && AllWant(s, d)
    ensures !step.Succeed?
    ensures var t := Next(s, step); t.cached == Some(d) && NobodyAssembles(t) && t.events == s.events
    ensures step.SecondCheck? ==> At(Next(s, step), step.caller, Returned)
  {}

  /** From a successful assembly on, a run in which all want d has d cached, nobody assembling and no more events. */
  lemma {:induction false} SettledAfter(cached: Option<Date>, steps: seq<Step>, t: State, d: Date, i: nat)
    requires Exec(Init(cached), steps) == Some(t) && AllWant(t, d) && i < |steps| && steps[i].Succeed?
    ensures t.cached == Some(d) && NobodyAssembles(t)
    ensures Exec(Init(cached), steps[..i + 1]).Some?
    ensures t.events == Exec(Init(cached), steps[..i + 1]).value.events
    decreases |steps|
  {
    var n := |steps| - 1;
    var mid := Exec(Init(cached), steps[..n]).value;
    PrefixRuns(Init(cached), steps, n);
    if i == n {
      RunKeepsInv(cached, steps[..n], mid);
      SuccessSettles(cached, mid, steps[n].caller, d);
      assert steps[..i + 1] == steps;
    } else {
      SettledAfter(cached, steps[..n], mid, d, i);
      assert steps[..n][..i + 1] == steps[..i + 1];
      SettledStays(mid, steps[n], d);
    }
  }

  lemma StepOfRun(s: State, steps: seq<Step>, j: nat)
    requires j < |steps| && Exec(s, steps).Some?
    ensures Exec(s, steps[..j]).Some? && Exec(s, steps[..j + 1]).Some?
    ensures Enabled(Exec(s, steps[..j]).value, steps[j])
    ensures Exec(s, steps[..j + 1]).value == Next(Exec(s, steps[..j]).value, steps[j])
  {
    PrefixRuns(s, steps, j + 1);
    assert steps[..j + 1][..j] == steps[..j];
  }

  lemma SettledBefore(cached: Option<Date>, steps: seq<Step>, t: State, d: Date, i: nat, j: nat, mid: State)
    requires Exec(Init(cached), steps) == Some(t) && AllWant(t, d) && i < j < |steps| && steps[i].Succeed?
    requires Exec(Init(cached), steps[..j]) == Some(mid)
    ensures mid.cached == Some(d) && NobodyAssembles(mid) && AllWant(mid, d)
  {
    PrefixRuns(Init(cached), steps, j);
    SettledAfter(cached, steps[..j], mid, d, i);
  }

  /** Step j of the run neither stores nor begins anything, finds d cached, and returns if it is a second check. */
  ghost predicate AddsNothing(cached: Option<Date>, steps: seq<Step>, j: nat, d: Date)
    requires j < |steps|
  {
    var before, after := Exec(Init(cached), steps[..j]), Exec(Init(cached), steps[..j + 1]);
    && before.Some? && after.Some? && !steps[j].Succeed?
    && before.value.cached == after.value.cached == Some(d) && after.value.events == before.value.events
    && (steps[j].SecondCheck? ==> At(after.value, steps[j].caller, Returned))
  }

  lemma LaterStepAddsNothing(cached: Option<Date>, steps: seq<Step>, t: State, d: Date, i: nat, j: nat)
    requires Exec(Init(cached), steps) == Some(t) && AllWant(t, d) && i < j < |steps| && steps[i].Succeed?
    ensures AddsNothing(cached, steps, j, d)
  {
    StepOfRun(Init(cached), steps, j);
    var mid := Exec(Init(cached), steps[..j]).value;
    SettledBefore(cached, steps, t, d, i, j, mid);
    SettledStays(mid, steps[j], d);
  }

  /**
   * A run with a successful assembly in which all callers want d ends with d cached. After that assembly no
   * other succeeds and none begins: every later second check returns at once, leaving the record as it was.
   */
  lemma OneSuccessServesAll(cached: Option<Date>, steps: seq<Step>, t: State, d: Date, i: nat)
    requires Exec(Init(cached), steps) == Some(t) && AllWant(t, d) && i < |steps| && steps[i].Succeed?
    ensures t.cached == Some(d)
    ensures forall j :: i < j < |steps| ==> AddsNothing(cached, steps, j, d)
  {
    SettledAfter(cached, steps, t, d, i);
    forall j | i < j < |steps| ensures AddsNothing(cached, steps, j, d) {
      LaterStepAddsNothing(cached, steps, t, d, i, j);
    }
  }

  // ---------------------------------------------------------------- progress

  function Remaining(phase: Phase): nat {
    match phase
    case Entered => 5
    case Waiting => 4
    case Locked => 3
    case Assembling => 2
    case Alerting => 1
    case Returned => 0
    case Cancelled => 0
  }

  /** A caller returns after at most five steps of its own; nobody else's step delays it. */
  lemma StepsAreBounded(s: State, step: Step, p: Caller)
    requires Enabled(s, step) && p in s.phase
    ensures p in Next(s, step).phase
    ensures step.caller == p ==> Remaining(Next(s, step).phase[p]) < Remaining(s.phase[p])
    ensures step.caller != p ==> Next(s, step).phase[p] == s.phase[p]
  {}

  /** No deadlock: while some caller has not left, some caller can take a step. */
  lemma NoDeadlock(cached: Option<Date>, steps: seq<Step>, t: State, p: Caller) returns (step: Step)
    requires Exec(Init(cached), steps) == Some(t)
    requires p in t.phase && !t.phase[p].Returned? && !t.phase[p].Cancelled?
    ensures Enabled(t, step) && !step.Enter? && !step.Cancel?
  {
    RunKeepsInv(cached, steps, t);
    var q := if t.phase[p].Waiting? && t.lock.Some? then t.lock.value else p;
    step := if t.phase[q].Entered? then FirstCheck(q)
      else if t.phase[q].Waiting? then Acquire(q)
      else if t.phase[q].Locked? then SecondCheck(q)
      else if t.phase[q].Assembling? then Succeed(q)
      else AlertDone(q);
  }
}
