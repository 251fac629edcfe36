/** The lock file of `acquireLock`, its dead-holder break and its release, as processes that
    interleave on a shared directory and may be killed between any two file operations.

    One `acquireLock` call is one invocation. Its nonce is fresh, so the nonce names the invocation:
    a record is modelled by the nonce of the call that wrote it. A link, a read and an unlink are
    three separate steps. The liveness answer is sound and stable (only a killed invocation is
    called dead, and it stays dead) but not complete: a dead holder may be answered "unknown".
    Every file operation may also fail, and what the code then does is part of the step. */
module FileLock {

  const MAX_ATTEMPTS := 3
  const MAX_BREAK_GUARDS := 8

  datatype Record = Missing | Corrupt | Held(nonce: nat)

  datatype Ending = Released | Refused | Failed

  /** Why the guards are being cleared: every slot had a dead breaker, or the stale record was dealt with under the
      own guard, or an exception passes through. */
  datatype Why = AllDead | Broke | Threw

  /** Where an invocation stands. `passed[i]` is the dead breaker it read in slot `i`, so the slot it tries next is `|passed|`. */
  datatype Pc =
    | Idle
    | ReadLock(attempt: nat)
    | LinkLock(attempt: nat)
    | ReadAgain(attempt: nat)
    | Judge(attempt: nat, stale: nat)
    | LinkGuard(attempt: nat, stale: nat, passed: seq<nat>, retries: nat)
    | ReadGuard(attempt: nat, stale: nat, passed: seq<nat>, retries: nat)
    | JudgeGuard(attempt: nat, stale: nat, passed: seq<nat>, retries: nat, breaker: nat)
    | CheckLock(attempt: nat, stale: nat, passed: seq<nat>)
    | UnlinkStale(attempt: nat, stale: nat, passed: seq<nat>)
    | ReadDead(attempt: nat, stale: nat, passed: seq<nat>, i: nat, why: Why)
    | UnlinkDead(attempt: nat, stale: nat, passed: seq<nat>, i: nat, why: Why)
    | ReadOwn(attempt: nat, stale: nat, k: nat, why: Why)
    | UnlinkOwn(attempt: nat, stale: nat, k: nat, why: Why)
    | Holding
    | ReadRelease(ending: Ending)
    | UnlinkRelease(ending: Ending)
    | Done(ending: Ending)

  /** `guards[(n, i)]` is the nonce in the guard file of slot `i`, `<lock>.break.<n>.<i + 1>`. `exhausted` remembers
      that some breaker found every guard slot of a standing stale record taken by a dead breaker, `faulted` that
      under some guard the read or the unlink of a standing stale record failed. */
  datatype State = State(
    lock: Record,
    guards: map<(nat, nat), nat>,
    pcs: map<nat, Pc>,
    dead: set<nat>,
    exhausted: bool,
    faulted: bool)
  {
    function At(p: nat): Pc {
      if p in pcs then pcs[p] else Idle
    }

    predicate Runs(p: nat) {
      p !in dead
    }

    predicate Holds(p: nat) {
      Runs(p) && At(p).Holding?
    }

    function Goto(p: nat, pc: Pc): State {
      this.(pcs := pcs[p := pc])
    }
  }

  /** Before any guard is tried. */
  predicate Acquiring(pc: Pc) {
    pc.Idle? || pc.ReadLock? || pc.LinkLock? || pc.ReadAgain? || pc.Judge?
  }

  /** Between its link and its unlink: the record on disk is its own. */
  predicate Linked(pc: Pc) {
    pc.Holding? || pc.ReadRelease? || pc.UnlinkRelease?
  }

  /** On the way to a guard: still reading the guards of dead breakers. */
  predicate Climbing(pc: Pc) {
    pc.LinkGuard? || pc.ReadGuard? || pc.JudgeGuard?
  }

  /** Owns slot `|passed|` and has not yet dealt with the stale record. */
  predicate Breaking(pc: Pc) {
    pc.CheckLock? || pc.UnlinkStale?
  }

  /** Has dealt with the stale record and is removing guards. */
  predicate Clearing(pc: Pc) {
    pc.ReadDead? || pc.UnlinkDead? || pc.ReadOwn? || pc.UnlinkOwn?
  }

  /** What a step meets. `trusts`: the liveness probe recognises a dead process as dead; `works`: its file
      operation does not fail; `synced`: neither does the directory sync after a link. */
  datatype Luck = Luck(trusts: bool, works: bool, synced: bool)

  const GOOD := Luck(true, true, true)

  /** `Step(p, l)` lets invocation `p` do its next file operation. */
  datatype Event = Step(p: nat, l: Luck) | Crash(p: nat)

  predicate Initial(s: State) {
    !s.lock.Held? && s.guards == map[] && s.pcs == map[] && s.dead == {} && !s.exhausted && !s.faulted
  }

  /** The probe: "dead" is answered only for an invocation that was killed. */
  predicate JudgedDead(s: State, nonce: nat, trusts: bool) {
    trusts && nonce in s.dead
  }

  function NextAttempt(attempt: nat): Pc {
    if attempt + 1 < MAX_ATTEMPTS then ReadLock(attempt + 1) else Done(Refused)
  }

  /** What a read of the lock decides when the record is not missing. */
  function Seen(attempt: nat, record: Record): Pc
    requires !record.Missing?
  {
    match record
    case Corrupt => Done(Refused)
    case Held(n) => Judge(attempt, n)
  }

  /** After the clearing: the next attempt, or the exception leaves the call. */
  function AfterClearing(attempt: nat, why: Why): Pc {
    if why.Threw? then Done(Failed) else NextAttempt(attempt)
  }

  /** The dead guards are cleared in order, then the own guard if there is one. */
  function ClearFrom(attempt: nat, stale: nat, passed: seq<nat>, i: nat, why: Why): Pc {
    if i < |passed| then ReadDead(attempt, stale, passed, i, why)
    else if !why.AllDead? then ReadOwn(attempt, stale, |passed|, why)
    else NextAttempt(attempt)
  }

  /** `acquireLock` up to the verdict on the holder. */
  function NextAcquire(s: State, p: nat, l: Luck): State
    requires Acquiring(s.At(p))
  {
    match s.At(p)
    case Idle => s.Goto(p, ReadLock(0))
    case ReadLock(a) =>
      s.Goto(p, if !l.works then Done(Failed) else if s.lock.Missing? then LinkLock(a) else Seen(a, s.lock))
    case LinkLock(a) =>
      if !l.works then s.Goto(p, Done(Failed))
      else if s.lock.Missing? then
        s.(lock := Held(p)).Goto(p, if l.synced then Holding else ReadRelease(Failed))
      else s.Goto(p, ReadAgain(a))
    case ReadAgain(a) =>
      s.Goto(p, if !l.works then Done(Failed) else if s.lock.Missing? then NextAttempt(a) else Seen(a, s.lock))
    case Judge(a, n) =>
      s.Goto(p, if JudgedDead(s, n, l.trusts) then LinkGuard(a, n, [], 0) else Done(Refused))
  }

  /** The guard loop of `breakDead`. */
  function NextClimb(s: State, p: nat, l: Luck): State
    requires Climbing(s.At(p))
  {
    var pc := s.At(p);
    var (a, n, passed, r) := (pc.attempt, pc.stale, pc.passed, pc.retries);
    var k := |passed|;
    match pc
    case LinkGuard(_, _, _, _) =>
      if k >= MAX_BREAK_GUARDS then
        s.(exhausted := s.exhausted || s.lock == Held(n)).Goto(p, ClearFrom(a, n, passed, 0, AllDead))
      else if !l.works then s.Goto(p, Done(Failed))
      else if (n, k) !in s.guards then
        s.(guards := s.guards[(n, k) := p]).Goto(p, if l.synced then CheckLock(a, n, passed) else Done(Failed))
      else s.Goto(p, ReadGuard(a, n, passed, r))
    case ReadGuard(_, _, _, _) =>
      if !l.works then s.Goto(p, Done(Refused))
      else if (n, k) in s.guards then s.Goto(p, JudgeGuard(a, n, passed, r, s.guards[(n, k)]))
      else s.Goto(p, if r < MAX_BREAK_GUARDS then LinkGuard(a, n, passed, r + 1) else Done(Refused))
    case JudgeGuard(_, _, _, _, b) =>
      s.Goto(p, if JudgedDead(s, b, l.trusts) then LinkGuard(a, n, passed + [b], r) else Done(Refused))
  }

  /** Under the own guard: the lock is read once more, and removed when the stale record is still in it. A failure of
      either clears the guards too, and then leaves the call. */
  function NextBreak(s: State, p: nat, l: Luck): State
    requires Breaking(s.At(p))
  {
    var pc := s.At(p);
    var (a, n, passed) := (pc.attempt, pc.stale, pc.passed);
    if !l.works then
      s.(faulted := s.faulted || s.lock == Held(n)).Goto(p, ClearFrom(a, n, passed, 0, Threw))
    else if pc.UnlinkStale? then
      s.(lock := Missing).Goto(p, ClearFrom(a, n, passed, 0, Broke))
    else
      s.Goto(p, if s.lock == Held(n) then UnlinkStale(a, n, passed) else ClearFrom(a, n, passed, 0, Broke))
  }

  /** The guards of dead breakers go first, then the own guard; each is read again before it is unlinked, and one
      that cannot be read or unlinked is left. */
  function NextClear(s: State, p: nat, l: Luck): State
    requires Clearing(s.At(p))
  {
    match s.At(p)
    case ReadDead(a, n, passed, i, why) =>
      if l.works && i < |passed| && (n, i) in s.guards && s.guards[(n, i)] == passed[i]
      then s.Goto(p, UnlinkDead(a, n, passed, i, why))
      else s.Goto(p, ClearFrom(a, n, passed, i + 1, why))
    case UnlinkDead(a, n, passed, i, why) =>
      s.(guards := if l.works then s.guards - {(n, i)} else s.guards).Goto(p, ClearFrom(a, n, passed, i + 1, why))
    case ReadOwn(a, n, k, why) =>
      s.Goto(p, if l.works && (n, k) in s.guards && s.guards[(n, k)] == p then UnlinkOwn(a, n, k, why) else AfterClearing(a, why))
    case UnlinkOwn(a, n, k, why) =>
      s.(guards := if l.works then s.guards - {(n, k)} else s.guards).Goto(p, AfterClearing(a, why))
  }

  /** The release closure, and the undo after a link whose directory sync failed. */
  function NextRelease(s: State, p: nat, l: Luck): State
    requires Linked(s.At(p))
  {
    match s.At(p)
    case Holding => s.Goto(p, ReadRelease(Released))
    case ReadRelease(e) =>
      s.Goto(p, if !l.works then Done(Failed) else if s.lock == Held(p) then UnlinkRelease(e) else Done(e))
    case UnlinkRelease(e) =>
      if l.works then s.(lock := Missing).Goto(p, Done(e)) else s.Goto(p, Done(Failed))
  }

  function Next(s: State, p: nat, l: Luck): State {
    var pc := s.At(p);
    if Acquiring(pc) then NextAcquire(s, p, l)
    else if Climbing(pc) then NextClimb(s, p, l)
    else if Breaking(pc) then NextBreak(s, p, l)
    else if Clearing(pc) then NextClear(s, p, l)
    else if Linked(pc) then NextRelease(s, p, l)
    else s
  }

  /** One event of a run. A killed invocation never moves again. */
  function Apply(s: State, e: Event): State {
    match e
    case Crash(p) => s.(dead := s.dead + {p})
    case Step(p, l) => if s.Runs(p) then Next(s, p, l) else s
  }

  function Run(s: State, es: seq<Event>): State
    decreases |es|
  {
    if es == [] then s else Run(Apply(s, es[0]), es[1..])
  }

  // ---------------------------------------------------------------- the invariant

  /** The guards a breaker passed still hold the dead breakers it read there. */
  predicate PassedStand(s: State, stale: nat, passed: seq<nat>) {
    forall i: nat :: i < |passed| ==>
      (stale, i) in s.guards && s.guards[(stale, i)] == passed[i] && passed[i] in s.dead
  }

  predicate BreakerOk(s: State, p: nat) {
    var pc := s.At(p);
    && (Climbing(pc) || Breaking(pc) || Clearing(pc) ==> pc.stale in s.dead)
    && (Climbing(pc) && s.lock == Held(pc.stale) ==> PassedStand(s, pc.stale, pc.passed))
    && (pc.JudgeGuard? && s.lock == Held(pc.stale) ==>
          (pc.stale, |pc.passed|) in s.guards && s.guards[(pc.stale, |pc.passed|)] == pc.breaker)
    && (Breaking(pc) && s.lock == Held(pc.stale) ==>
          && PassedStand(s, pc.stale, pc.passed)
          && (pc.stale, |pc.passed|) in s.guards
          && s.guards[(pc.stale, |pc.passed|)] == p)
    && (pc.UnlinkStale? ==> s.lock == Held(pc.stale))
    && (Clearing(pc) ==> s.lock != Held(pc.stale))
  }

  predicate HolderOk(s: State, p: nat) {
    Linked(s.At(p)) ==> s.lock == Held(p)
  }

  /** Neither all slots dead nor a failed read or unlink under a guard, while the stale record stood. */
  predicate Sound(s: State) {
    !s.exhausted && !s.faulted
  }

  ghost predicate Inv(s: State) {
    Sound(s) ==> forall p: nat :: s.Runs(p) ==> HolderOk(s, p) && BreakerOk(s, p)
  }

  /** Until a stale record is unlinked, at most one running process owns a guard for its nonce. */
  lemma OneBreaker(s: State, p: nat, q: nat)
    requires Inv(s) && Sound(s) && s.Runs(p) && s.Runs(q)
    requires Breaking(s.At(p)) && Breaking(s.At(q))
    requires s.At(p).stale == s.At(q).stale && s.lock == Held(s.At(p).stale)
    ensures p == q
  {
    var (a, b) := (s.At(p).passed, s.At(q).passed);
    assert BreakerOk(s, p) && BreakerOk(s, q);
    if |a| < |b| {
      var passedByQ := b[|a|];
    } else if |b| < |a| {
      var passedByP := a[|b|];
    }
  }

  /** What is known about `q` survives a change elsewhere that neither revives its stale record
      nor touches the guards of that record. */
  lemma Frame(s: State, t: State, q: nat)
    requires BreakerOk(s, q) && t.At(q) == s.At(q) && s.dead <= t.dead
    requires var pc := s.At(q); Climbing(pc) || Breaking(pc) || Clearing(pc) ==>
        && (t.lock == Held(pc.stale) ==> s.lock == Held(pc.stale))
        && (t.lock == Held(pc.stale) ==>
              forall k: nat :: (pc.stale, k) in s.guards ==>
                (pc.stale, k) in t.guards && t.guards[(pc.stale, k)] == s.guards[(pc.stale, k)])
        && (pc.UnlinkStale? ==> t.lock == s.lock)
    ensures BreakerOk(t, q)
  {
  }

  // The step of `p` keeps what is known about `p` itself, phase by phase.

  lemma AcquireKeepsSelf(s: State, p: nat, l: Luck)
    requires HolderOk(s, p) && BreakerOk(s, p) && Acquiring(s.At(p)) && s.Runs(p)
    ensures HolderOk(NextAcquire(s, p, l), p) && BreakerOk(NextAcquire(s, p, l), p)
  {
  }

  lemma ClimbKeepsSelf(s: State, p: nat, l: Luck)
    requires HolderOk(s, p) && BreakerOk(s, p) && Climbing(s.At(p)) && Sound(NextClimb(s, p, l))
    ensures HolderOk(NextClimb(s, p, l), p) && BreakerOk(NextClimb(s, p, l), p)
  {
  }

  lemma BreakKeepsSelf(s: State, p: nat, l: Luck)
    requires HolderOk(s, p) && BreakerOk(s, p) && Breaking(s.At(p)) && s.Runs(p) && Sound(NextBreak(s, p, l))
    ensures HolderOk(NextBreak(s, p, l), p) && BreakerOk(NextBreak(s, p, l), p)
  {
  }

  lemma ClearKeepsSelf(s: State, p: nat, l: Luck)
    requires HolderOk(s, p) && BreakerOk(s, p) && Clearing(s.At(p))
    ensures HolderOk(NextClear(s, p, l), p) && BreakerOk(NextClear(s, p, l), p)
  {
  }

  lemma ReleaseKeepsSelf(s: State, p: nat, l: Luck)
    requires HolderOk(s, p) && BreakerOk(s, p) && Linked(s.At(p))
    ensures HolderOk(NextRelease(s, p, l), p) && BreakerOk(NextRelease(s, p, l), p)
  {
  }

  // The step of `p` keeps what is known about every other running invocation, phase by phase.

  lemma LockStepKeepsOther(s: State, p: nat, l: Luck, q: nat)
    requires Inv(s) && Sound(s) && s.Runs(p) && s.Runs(q) && p != q
    requires Acquiring(s.At(p)) || Linked(s.At(p))
    ensures HolderOk(Next(s, p, l), q) && BreakerOk(Next(s, p, l), q)
  {
    assert HolderOk(s, p) && HolderOk(s, q);
    Frame(s, if Linked(s.At(p)) then NextRelease(s, p, l) else NextAcquire(s, p, l), q);
  }

  lemma ClimbKeepsOther(s: State, p: nat, l: Luck, q: nat)
    requires Inv(s) && Sound(s) && s.Runs(q) && p != q && Climbing(s.At(p))
    ensures HolderOk(NextClimb(s, p, l), q) && BreakerOk(NextClimb(s, p, l), q)
  {
    assert HolderOk(s, q);
    Frame(s, NextClimb(s, p, l), q);
  }

  lemma BreakKeepsOther(s: State, p: nat, l: Luck, q: nat)
    requires Inv(s) && Sound(s) && s.Runs(p) && s.Runs(q) && p != q && Breaking(s.At(p))
    ensures HolderOk(NextBreak(s, p, l), q) && BreakerOk(NextBreak(s, p, l), q)
  {
    assert BreakerOk(s, p) && HolderOk(s, q) && BreakerOk(s, q);
    if s.At(p).UnlinkStale? && s.At(q).UnlinkStale? {
      OneBreaker(s, p, q);
    }
    Frame(s, NextBreak(s, p, l), q);
  }

  lemma ClearKeepsOther(s: State, p: nat, l: Luck, q: nat)
    requires Inv(s) && Sound(s) && s.Runs(p) && s.Runs(q) && p != q && Clearing(s.At(p))
    ensures HolderOk(NextClear(s, p, l), q) && BreakerOk(NextClear(s, p, l), q)
  {
    assert BreakerOk(s, p) && HolderOk(s, q);
    Frame(s, NextClear(s, p, l), q);
  }

  lemma StepKeepsInvFor(s: State, p: nat, l: Luck, q: nat)
    requires Inv(s) && s.Runs(p) && s.Runs(q) && Sound(Next(s, p, l))
    ensures HolderOk(Next(s, p, l), q) && BreakerOk(Next(s, p, l), q)
  {
    var pc := s.At(p);
    assert HolderOk(s, q) && BreakerOk(s, q);
    if Acquiring(pc) {
      if p == q { AcquireKeepsSelf(s, p, l); } else { LockStepKeepsOther(s, p, l, q); }
    } else if Climbing(pc) {
      if p == q { ClimbKeepsSelf(s, p, l); } else { ClimbKeepsOther(s, p, l, q); }
    } else if Breaking(pc) {
      if p == q { BreakKeepsSelf(s, p, l); } else { BreakKeepsOther(s, p, l, q); }
    } else if Clearing(pc) {
      if p == q { ClearKeepsSelf(s, p, l); } else { ClearKeepsOther(s, p, l, q); }
    } else if Linked(pc) {
      if p == q { ReleaseKeepsSelf(s, p, l); } else { LockStepKeepsOther(s, p, l, q); }
    }
  }

  lemma StepKeepsInv(s: State, p: nat, l: Luck)
    requires Inv(s) && s.Runs(p)
    ensures Inv(Next(s, p, l))
  {
    var t := Next(s, p, l);
    if Sound(t) {
      forall q: nat | t.Runs(q) ensures HolderOk(t, q) && BreakerOk(t, q) {
        StepKeepsInvFor(s, p, l, q);
      }
    }
  }

  lemma ApplyKeepsInv(s: State, e: Event)
    requires Inv(s)
    ensures Inv(Apply(s, e))
  {
    match e
    case Crash(p) =>
      if Sound(s) {
        forall q: nat | Apply(s, e).Runs(q) ensures HolderOk(Apply(s, e), q) && BreakerOk(Apply(s, e), q) {
          assert HolderOk(s, q) && BreakerOk(s, q);
        }
      }
    case Step(p, l) =>
      if s.Runs(p) { StepKeepsInv(s, p, l); }
  }

  lemma {:induction false} RunKeepsInv(s: State, es: seq<Event>)
    requires Inv(s)
    ensures Inv(Run(s, es))
    decreases |es|
  {
    if es != [] {
      ApplyKeepsInv(s, es[0]);
      RunKeepsInv(Apply(s, es[0]), es[1..]);
    }
  }

  /** Mutual exclusion, over every interleaving of any number of acquiring, breaking and releasing
      invocations with kills anywhere, as long as no stale record used up its guard slots
      and no read or unlink of a stale record failed under a guard. */
  lemma MutualExclusion(s: State, es: seq<Event>, p: nat, q: nat)
    requires Initial(s) && Sound(Run(s, es))
    requires Run(s, es).Holds(p) && Run(s, es).Holds(q)
    ensures p == q
  {
    RunKeepsInv(s, es);
    assert HolderOk(Run(s, es), p) && HolderOk(Run(s, es), q);
  }

  /** A release or a break never removes a newer lock: whatever event makes a record go, it is the
      writer's own, or the writer was killed. */
  lemma OnlyOwnOrDeadRecordsGo(s: State, es: seq<Event>, e: Event, n: nat)
    requires Initial(s) && Sound(Run(s, es))
    requires Run(s, es).lock == Held(n) && Apply(Run(s, es), e).lock != Held(n)
    ensures e.Step? && (e.p == n || n in Run(s, es).dead)
  {
    RunKeepsInv(s, es);
    var t := Run(s, es);
    if e.Step? && t.Runs(e.p) {
      assert HolderOk(t, e.p) && BreakerOk(t, e.p);
    }
  }

  // ---------------------------------------------------------------- how many deaths it takes

  /** A guard is for the record of a dead holder, and while that record stands its owner is at work in that very
      slot, or its call has ended. */
  predicate GuardOk(s: State, g: (nat, nat))
    requires g in s.guards
  {
    var pc := s.At(s.guards[g]);
    && g.0 in s.dead && s.guards[g] != g.0
    && (s.lock == Held(g.0) ==> pc.Done? || (Breaking(pc) && pc.stale == g.0 && |pc.passed| == g.1))
  }

  /** While a stale record stands no invocation owns two of its guards. */
  predicate OneGuardEach(s: State) {
    forall g, h :: g in s.guards && h in s.guards && g.0 == h.0 && s.lock == Held(g.0) && s.guards[g] == s.guards[h] ==> g == h
  }

  predicate GuardsOk(s: State) {
    OneGuardEach(s) && forall g :: g in s.guards ==> GuardOk(s, g)
  }

  /** A step that takes no guard, by an invocation that owns no guard of the standing record. */
  lemma NoNewGuard(s: State, t: State, p: nat)
    requires GuardsOk(s) && s.dead == t.dead && s.Runs(p)
    requires forall q: nat :: q != p ==> t.At(q) == s.At(q)
    requires forall g :: g in t.guards ==> g in s.guards && t.guards[g] == s.guards[g]
    requires t.lock.Held? ==> t.lock == s.lock || t.lock == Held(p)
    requires forall g :: g in t.guards && t.lock == s.lock == Held(g.0) && t.guards[g] == p ==> GuardOk(t, g)
    ensures GuardsOk(t)
  {
    forall g | g in t.guards ensures GuardOk(t, g) {
      assert GuardOk(s, g);
    }
    forall g, h | g in t.guards && h in t.guards && g.0 == h.0 && t.lock == Held(g.0) && t.guards[g] == t.guards[h] ensures g == h {
      assert GuardOk(s, g);
    }
  }

  lemma AcquireKeepsGuards(s: State, p: nat, l: Luck)
    requires GuardsOk(s) && s.Runs(p) && Acquiring(s.At(p))
    ensures GuardsOk(NextAcquire(s, p, l))
  {
    forall g | g in s.guards && s.lock == Held(g.0) ensures s.guards[g] != p {
      assert GuardOk(s, g);
    }
    NoNewGuard(s, NextAcquire(s, p, l), p);
  }

  lemma ReleaseKeepsGuards(s: State, p: nat, l: Luck)
    requires GuardsOk(s) && s.Runs(p) && Linked(s.At(p))
    ensures GuardsOk(NextRelease(s, p, l))
  {
    forall g | g in s.guards && s.lock == Held(g.0) ensures s.guards[g] != p {
      assert GuardOk(s, g);
    }
    NoNewGuard(s, NextRelease(s, p, l), p);
  }

  lemma ClearKeepsGuards(s: State, p: nat, l: Luck)
    requires GuardsOk(s) && s.Runs(p) && Clearing(s.At(p))
    ensures GuardsOk(NextClear(s, p, l))
  {
    forall g | g in s.guards && s.lock == Held(g.0) ensures s.guards[g] != p {
      assert GuardOk(s, g);
    }
    NoNewGuard(s, NextClear(s, p, l), p);
  }

  lemma BreakKeepsGuards(s: State, p: nat, l: Luck)
    requires GuardsOk(s) && s.Runs(p) && Breaking(s.At(p)) && !NextBreak(s, p, l).faulted
    ensures GuardsOk(NextBreak(s, p, l))
  {
    forall g | g in s.guards && s.lock == Held(g.0) && s.guards[g] == p ensures s.At(p).stale == g.0 && |s.At(p).passed| == g.1 {
      assert GuardOk(s, g);
    }
    NoNewGuard(s, NextBreak(s, p, l), p);
  }

  lemma NewGuard(s: State, t: State, p: nat, n: nat, k: nat)
    requires GuardsOk(s) && n in s.dead && p != n && (n, k) !in s.guards && t.lock == s.lock && t.dead == s.dead
    requires forall q: nat :: q != p ==> t.At(q) == s.At(q)
    requires forall g :: g in s.guards && s.lock == Held(g.0) ==> s.guards[g] != p
    requires t.guards == s.guards[(n, k) := p] && GuardOk(t, (n, k))
    ensures GuardsOk(t)
  {
    forall g | g in t.guards ensures GuardOk(t, g) {
      if g in s.guards {
        assert GuardOk(s, g);
      }
    }
  }

  lemma ClimbMoves(s: State, p: nat, l: Luck)
    requires Climbing(s.At(p))
    ensures var t := NextClimb(s, p, l);
      var g := (s.At(p).stale, |s.At(p).passed|);
      && t.lock == s.lock && t.dead == s.dead && (forall q: nat :: q != p ==> t.At(q) == s.At(q))
      && (t.guards == s.guards || (g !in s.guards && t.guards == s.guards[g := p] && (t.At(p).Done? || t.At(p) == CheckLock(s.At(p).attempt, g.0, s.At(p).passed))))
  {
  }

  lemma ClimbKeepsGuards(s: State, p: nat, l: Luck)
    requires GuardsOk(s) && s.Runs(p) && Climbing(s.At(p)) && s.At(p).stale in s.dead
    ensures GuardsOk(NextClimb(s, p, l))
  {
    var t := NextClimb(s, p, l);
    ClimbMoves(s, p, l);
    forall g | g in s.guards && s.lock == Held(g.0) ensures s.guards[g] != p {
      assert GuardOk(s, g);
    }
    if t.guards == s.guards {
      NoNewGuard(s, t, p);
    } else {
      NewGuard(s, t, p, s.At(p).stale, |s.At(p).passed|);
    }
  }

  lemma StepKeepsGuards(s: State, p: nat, l: Luck)
    requires Inv(s) && Sound(s) && GuardsOk(s) && s.Runs(p) && !Next(s, p, l).faulted
    ensures GuardsOk(Next(s, p, l))
  {
    var pc := s.At(p);
    assert BreakerOk(s, p);
    if Acquiring(pc) {
      AcquireKeepsGuards(s, p, l);
    } else if Linked(pc) {
      ReleaseKeepsGuards(s, p, l);
    } else if Climbing(pc) {
      ClimbKeepsGuards(s, p, l);
    } else if Breaking(pc) {
      BreakKeepsGuards(s, p, l);
    } else if Clearing(pc) {
      ClearKeepsGuards(s, p, l);
    }
  }

  lemma {:induction false} SmallerSet(a: set<nat>, b: set<nat>)
    requires a <= b
    ensures |a| <= |b|
  {
    if a != {} {
      var x :| x in a;
      SmallerSet(a - {x}, b - {x});
    }
  }

  /** Distinct dead breakers, none of them `n`, and `n`. */
  lemma {:induction false} DeadAreMany(passed: seq<nat>, n: nat, dead: set<nat>)
    requires n in dead && (forall i :: 0 <= i < |passed| ==> passed[i] in dead && passed[i] != n)
    requires forall i, j :: 0 <= i < j < |passed| ==> passed[i] != passed[j]
    ensures |dead| > |passed|
  {
    if passed == [] {
      SmallerSet({n}, dead);
    } else {
      DeadAreMany(passed[1..], n, dead - {passed[0]});
    }
  }

  /** Who finds all slots of a standing record dead has read as many dead breakers as there are slots, all
      different, and the holder is dead too. */
  lemma ExhaustionTakesDeaths(s: State, p: nat, l: Luck)
    requires Inv(s) && Sound(s) && GuardsOk(s) && s.Runs(p) && Next(s, p, l).exhausted
    ensures |s.dead| > MAX_BREAK_GUARDS
  {
    assert BreakerOk(s, p);
    var (n, passed) := (s.At(p).stale, s.At(p).passed);
    forall i: nat | i < |passed| ensures passed[i] in s.dead && passed[i] != n {
      assert GuardOk(s, (n, i));
    }
    forall i: nat, j: nat | i < j < |passed| ensures passed[i] != passed[j] {
      assert (n, i) in s.guards && (n, j) in s.guards;
    }
    DeadAreMany(passed, n, s.dead);
  }

  ghost predicate DeathsOk(s: State) {
    s.faulted || (if s.exhausted then |s.dead| > MAX_BREAK_GUARDS else GuardsOk(s))
  }

  lemma ApplyKeepsDeathsOk(s: State, e: Event)
    requires Inv(s) && DeathsOk(s)
    ensures DeathsOk(Apply(s, e))
  {
    var t := Apply(s, e);
    SmallerSet(s.dead, t.dead);
    if e.Crash? {
      if Sound(s) {
        forall g | g in t.guards ensures GuardOk(t, g) {
          assert GuardOk(s, g);
        }
      }
    } else if Sound(s) && s.Runs(e.p) && !t.faulted {
      StepKeepsGuards(s, e.p, e.l);
      if t.exhausted {
        ExhaustionTakesDeaths(s, e.p, e.l);
      }
    }
  }

  lemma {:induction false} RunKeepsDeathsOk(s: State, es: seq<Event>)
    requires Inv(s) && DeathsOk(s)
    ensures DeathsOk(Run(s, es))
    decreases |es|
  {
    if es != [] {
      ApplyKeepsInv(s, es[0]);
      ApplyKeepsDeathsOk(s, es[0]);
      RunKeepsDeathsOk(Apply(s, es[0]), es[1..]);
    }
  }

  /** All slots of a standing record are dead only after nine invocations were killed, so with fewer the lock is
      exclusive as long as no read or unlink of a stale record fails under a guard. */
  lemma ExclusiveBelowNineDeaths(s: State, es: seq<Event>, p: nat, q: nat)
    requires Initial(s) && !Run(s, es).faulted && |Run(s, es).dead| <= MAX_BREAK_GUARDS
    ensures !Run(s, es).exhausted
    ensures Run(s, es).Holds(p) && Run(s, es).Holds(q) ==> p == q
  {
    RunKeepsDeathsOk(s, es);
    if Run(s, es).Holds(p) && Run(s, es).Holds(q) {
      MutualExclusion(s, es, p, q);
    }
  }

  // ---------------------------------------------------------------- progress

  /** `n` undisturbed steps of `p`, by a probe that recognises the dead. */
  function Solo(s: State, p: nat, n: nat): State
    decreases n
  {
    if n == 0 then s else Solo(Next(s, p, GOOD), p, n - 1)
  }

  /** Left alone, `p` gets from `s` to `t`. */
  ghost predicate Goes(s: State, p: nat, t: State) {
    exists n: nat :: Solo(s, p, n) == t
  }

  lemma {:induction false} SoloAdd(s: State, p: nat, m: nat, n: nat)
    ensures Solo(s, p, m + n) == Solo(Solo(s, p, m), p, n)
    decreases m
  {
    if m > 0 {
      SoloAdd(Next(s, p, GOOD), p, m - 1, n);
    }
  }

  lemma Then(s: State, p: nat, t: State, u: State)
    requires Goes(s, p, t) && Goes(t, p, u)
    ensures Goes(s, p, u)
  {
    var m: nat :| Solo(s, p, m) == t;
    var n: nat :| Solo(t, p, n) == u;
    SoloAdd(s, p, m, n);
  }

  /** One step of `p` that only moves it and leaves `u` elsewhere. */
  lemma One(s: State, p: nat, u: State, pc: Pc)
    requires Next(s, p, GOOD) == u.Goto(p, pc)
    ensures Goes(s, p, u.Goto(p, pc))
  {
    assert Solo(s, p, 1) == Solo(Next(s, p, GOOD), p, 0);
  }

  lemma Regoto(s: State, p: nat, a: Pc, b: Pc)
    ensures s.Goto(p, a).Goto(p, b) == s.Goto(p, b)
  {
    assert s.pcs[p := a][p := b] == s.pcs[p := b];
  }

  /** `p` goes on from `pc` to `next` in one step, leaving `t` where it found `s`. */
  lemma Move(s: State, p: nat, pc: Pc, t: State, next: Pc)
    requires t.pcs == s.pcs && Next(s.Goto(p, pc), p, GOOD) == t.Goto(p, pc).Goto(p, next)
    ensures Goes(s.Goto(p, pc), p, t.Goto(p, next))
  {
    Regoto(t, p, pc, next);
    One(s.Goto(p, pc), p, t, next);
  }

  lemma FreeLockIsTaken(s: State, p: nat, a: nat)
    requires s.lock.Missing?
    ensures Goes(s.Goto(p, ReadLock(a)), p, s.(lock := Held(p)).Goto(p, Holding))
  {
    var t := s.(lock := Held(p));
    Move(s, p, ReadLock(a), s, LinkLock(a));
    Move(s, p, LinkLock(a), t, Holding);
    Then(s.Goto(p, ReadLock(a)), p, s.Goto(p, LinkLock(a)), t.Goto(p, Holding));
  }

  /** A free lock is taken by the first to try. */
  lemma NewcomerTakesFreeLock(s: State, p: nat)
    requires s.lock.Missing? && s.At(p).Idle?
    ensures Goes(s, p, s.(lock := Held(p)).Goto(p, Holding))
  {
    One(s, p, s, ReadLock(0));
    FreeLockIsTaken(s, p, 0);
    Then(s, p, s.Goto(p, ReadLock(0)), s.(lock := Held(p)).Goto(p, Holding));
  }

  /** The release of a held lock frees it. */
  lemma HeldLockIsReleased(s: State, p: nat)
    requires s.lock == Held(p)
    ensures Goes(s.Goto(p, Holding), p, s.(lock := Missing).Goto(p, Done(Released)))
  {
    var t := s.(lock := Missing);
    Move(s, p, Holding, s, ReadRelease(Released));
    Move(s, p, ReadRelease(Released), s, UnlinkRelease(Released));
    Move(s, p, UnlinkRelease(Released), t, Done(Released));
    Then(s.Goto(p, Holding), p, s.Goto(p, ReadRelease(Released)), s.Goto(p, UnlinkRelease(Released)));
    Then(s.Goto(p, Holding), p, s.Goto(p, UnlinkRelease(Released)), t.Goto(p, Done(Released)));
  }

  /** A newcomer reads a dead holder's record and sets out for its guards. */
  lemma DeadHolderIsSeen(s: State, p: nat, n: nat)
    requires s.lock == Held(n) && n in s.dead && s.At(p).Idle?
    ensures Goes(s, p, s.Goto(p, LinkGuard(0, n, [], 0)))
  {
    One(s, p, s, ReadLock(0));
    Move(s, p, ReadLock(0), s, Judge(0, n));
    Move(s, p, Judge(0, n), s, LinkGuard(0, n, [], 0));
    Then(s, p, s.Goto(p, ReadLock(0)), s.Goto(p, Judge(0, n)));
    Then(s, p, s.Goto(p, Judge(0, n)), s.Goto(p, LinkGuard(0, n, [], 0)));
  }

  /** It takes a free first guard and reads the stale record under it. */
  lemma FirstGuardIsTaken(s: State, p: nat, a: nat, n: nat)
    requires s.lock == Held(n) && (n, 0) !in s.guards
    ensures Goes(s.Goto(p, LinkGuard(a, n, [], 0)), p,
                 s.(guards := s.guards[(n, 0) := p]).Goto(p, UnlinkStale(a, n, [])))
  {
    var g := s.(guards := s.guards[(n, 0) := p]);
    Move(s, p, LinkGuard(a, n, [], 0), g, CheckLock(a, n, []));
    Move(g, p, CheckLock(a, n, []), g, UnlinkStale(a, n, []));
    Then(s.Goto(p, LinkGuard(a, n, [], 0)), p, g.Goto(p, CheckLock(a, n, [])), g.Goto(p, UnlinkStale(a, n, [])));
  }

  /** It unlinks the stale record, then its own guard, and tries again. */
  lemma StaleLockIsUnlinked(s: State, p: nat, n: nat)
    requires (n, 0) in s.guards && s.guards[(n, 0)] == p
    ensures Goes(s.Goto(p, UnlinkStale(0, n, [])), p,
                 s.(lock := Missing, guards := s.guards - {(n, 0)}).Goto(p, ReadLock(1)))
  {
    var g := s.(lock := Missing);
    var h := s.(lock := Missing, guards := s.guards - {(n, 0)});
    Move(s, p, UnlinkStale(0, n, []), g, ReadOwn(0, n, 0, Broke));
    Move(g, p, ReadOwn(0, n, 0, Broke), g, UnlinkOwn(0, n, 0, Broke));
    Move(g, p, UnlinkOwn(0, n, 0, Broke), h, ReadLock(1));
    Then(s.Goto(p, UnlinkStale(0, n, [])), p, g.Goto(p, ReadOwn(0, n, 0, Broke)), g.Goto(p, UnlinkOwn(0, n, 0, Broke)));
    Then(s.Goto(p, UnlinkStale(0, n, [])), p, g.Goto(p, UnlinkOwn(0, n, 0, Broke)), h.Goto(p, ReadLock(1)));
  }

  /** A caller left alone takes over from a dead holder and leaves no guard behind. */
  lemma DeadHolderIsReplaced(s: State, p: nat, n: nat)
    requires s.lock == Held(n) && n in s.dead && s.At(p).Idle? && (n, 0) !in s.guards
    ensures Goes(s, p, s.(lock := Held(p)).Goto(p, Holding))
  {
    var g := s.(guards := s.guards[(n, 0) := p]);
    var free := s.(lock := Missing);
    assert g.guards - {(n, 0)} == s.guards;
    DeadHolderIsSeen(s, p, n);
    FirstGuardIsTaken(s, p, 0, n);
    StaleLockIsUnlinked(g, p, n);
    FreeLockIsTaken(free, p, 1);
    Then(s, p, s.Goto(p, LinkGuard(0, n, [], 0)), g.Goto(p, UnlinkStale(0, n, [])));
    Then(s, p, g.Goto(p, UnlinkStale(0, n, [])), free.Goto(p, ReadLock(1)));
    Then(s, p, free.Goto(p, ReadLock(1)), s.(lock := Held(p)).Goto(p, Holding));
  }

  /** A holder that was not killed keeps its lock: every other call that reads its record gives up. */
  lemma LiveHolderIsRespected(s: State, p: nat, n: nat, l: Luck)
    requires s.lock == Held(n) && s.Runs(n) && (s.At(p).ReadLock? || s.At(p).ReadAgain?)
    ensures var r := Next(Next(s, p, l), p, l); r.At(p) == Done(if l.works then Refused else Failed) && r.lock == s.lock
  {
  }

  // ---------------------------------------------------------------- why the hypothesis is needed

  lemma {:induction false} RunConcat(s: State, a: seq<Event>, b: seq<Event>)
    ensures Run(s, a + b) == Run(Run(s, a), b)
    decreases |a|
  {
    if a == [] {
      assert a + b == b;
    } else {
      assert (a + b)[0] == a[0] && (a + b)[1..] == a[1..] + b;
      RunConcat(Apply(s, a[0]), a[1..], b);
    }
  }

  lemma {:induction false} SoloIsRun(s: State, p: nat, n: nat) returns (es: seq<Event>)
    requires s.Runs(p)
    ensures Run(s, es) == Solo(s, p, n)
    decreases n
  {
    if n == 0 {
      es := [];
    } else {
      var rest := SoloIsRun(Next(s, p, GOOD), p, n - 1);
      es := [Step(p, GOOD)] + rest;
      assert es[1..] == rest;
    }
  }

  /** A run that goes on from `es` with `p` alone until `t`. */
  lemma Extend(s: State, es: seq<Event>, p: nat, t: State) returns (longer: seq<Event>)
    requires Run(s, es).Runs(p) && Goes(Run(s, es), p, t)
    ensures Run(s, longer) == t
  {
    var n: nat :| Solo(Run(s, es), p, n) == t;
    var more := SoloIsRun(Run(s, es), p, n);
    longer := es + more;
    RunConcat(s, es, more);
  }

  lemma Kill(s: State, es: seq<Event>, p: nat)
    ensures Run(s, es + [Crash(p)]) == Apply(Run(s, es), Crash(p))
  {
    RunConcat(s, es, [Crash(p)]);
    assert Run(Run(s, es), [Crash(p)]) == Apply(Run(s, es), Crash(p));
  }

  /** Breakers 1, 2, ... in slots 0, 1, ... */
  function Breakers(n: nat): seq<nat> {
    seq(n, i => i + 1)
  }

  /** The lock is held by the killed invocation 0; breakers 1..m were killed owning slots 0..m-1,
      and no slot from `m` on is taken. */
  ghost predicate Stuck(s: State, m: nat) {
    && s.lock == Held(0) && !s.faulted
    && (forall i: nat :: i <= m ==> i in s.dead)
    && (forall i: nat :: i < m ==> (0, i) in s.guards && s.guards[(0, i)] == i + 1)
    && (forall i: nat :: i >= m ==> (0, i) !in s.guards)
  }

  ghost predicate Unstarted(s: State, p: nat) {
    s.At(p).Idle? && s.Runs(p)
  }

  function Climb(k: nat): Pc {
    LinkGuard(0, 0, Breakers(k), 0)
  }

  lemma PassOneGuard(s: State, p: nat, k: nat)
    requires k < MAX_BREAK_GUARDS && (0, k) in s.guards && s.guards[(0, k)] == k + 1 && k + 1 in s.dead
    ensures Goes(s.Goto(p, Climb(k)), p, s.Goto(p, Climb(k + 1)))
  {
    var read, judge := ReadGuard(0, 0, Breakers(k), 0), JudgeGuard(0, 0, Breakers(k), 0, k + 1);
    assert Breakers(k) + [k + 1] == Breakers(k + 1);
    Move(s, p, Climb(k), s, read);
    Move(s, p, read, s, judge);
    Move(s, p, judge, s, Climb(k + 1));
    Then(s.Goto(p, Climb(k)), p, s.Goto(p, read), s.Goto(p, judge));
    Then(s.Goto(p, Climb(k)), p, s.Goto(p, judge), s.Goto(p, Climb(k + 1)));
  }

  /** A newcomer sees the dead holder and passes the guards of all `m` dead breakers. */
  lemma {:induction false} ClimbTo(s: State, p: nat, k: nat, m: nat)
    requires Stuck(s, m) && k <= m <= MAX_BREAK_GUARDS && s.At(p).Idle?
    ensures Goes(s, p, s.Goto(p, Climb(k)))
  {
    if k == 0 {
      assert Breakers(0) == [];
      DeadHolderIsSeen(s, p, 0);
    } else {
      ClimbTo(s, p, k - 1, m);
      PassOneGuard(s, p, k - 1);
      Then(s, p, s.Goto(p, Climb(k - 1)), s.Goto(p, Climb(k)));
    }
  }

  /** The first free slot above the dead breakers is taken. */
  lemma NextSlotIsTaken(s: State, p: nat, m: nat)
    requires Stuck(s, m) && m < MAX_BREAK_GUARDS && s.At(p).Idle?
    ensures Goes(s, p, s.(guards := s.guards[(0, m) := p]).Goto(p, CheckLock(0, 0, Breakers(m))))
  {
    var g := s.(guards := s.guards[(0, m) := p]);
    ClimbTo(s, p, m, m);
    Move(s, p, Climb(m), g, CheckLock(0, 0, Breakers(m)));
    Then(s, p, s.Goto(p, Climb(m)), g.Goto(p, CheckLock(0, 0, Breakers(m))));
  }

  const NOBODY := State(Missing, map[], map[], {}, false, false)

  lemma {:induction false} DeadBreakersPileUp(m: nat) returns (es: seq<Event>)
    requires m <= MAX_BREAK_GUARDS
    ensures Stuck(Run(NOBODY, es), m) && forall p: nat :: p > m ==> Unstarted(Run(NOBODY, es), p)
  {
    if m == 0 {
      NewcomerTakesFreeLock(NOBODY, 0);
      es := Extend(NOBODY, [], 0, NOBODY.(lock := Held(0)).Goto(0, Holding));
      Kill(NOBODY, es, 0);
      es := es + [Crash(0)];
    } else {
      es := DeadBreakersPileUp(m - 1);
      var s := Run(NOBODY, es);
      assert Unstarted(s, m);
      NextSlotIsTaken(s, m, m - 1);
      var t := s.(guards := s.guards[(0, m - 1) := m]).Goto(m, CheckLock(0, 0, Breakers(m - 1)));
      es := Extend(NOBODY, es, m, t);
      Kill(NOBODY, es, m);
      es := es + [Crash(m)];
      forall p: nat | p > m ensures Unstarted(Run(NOBODY, es), p) {
        assert Unstarted(s, p);
      }
    }
  }

  function SlotsFrom(i: nat): set<(nat, nat)> {
    set j: nat | i <= j < MAX_BREAK_GUARDS :: (0, j)
  }

  lemma ClearOne(s: State, p: nat, i: nat)
    requires i < MAX_BREAK_GUARDS && (0, i) in s.guards && s.guards[(0, i)] == i + 1
    ensures var b := Breakers(MAX_BREAK_GUARDS);
      Goes(s.Goto(p, ReadDead(0, 0, b, i, AllDead)), p,
           s.(guards := s.guards - {(0, i)}).Goto(p, ClearFrom(0, 0, b, i + 1, AllDead)))
  {
    var b := Breakers(MAX_BREAK_GUARDS);
    var read, unlink, on := ReadDead(0, 0, b, i, AllDead), UnlinkDead(0, 0, b, i, AllDead), ClearFrom(0, 0, b, i + 1, AllDead);
    var g := s.(guards := s.guards - {(0, i)});
    Move(s, p, read, s, unlink);
    Move(s, p, unlink, g, on);
    Then(s.Goto(p, read), p, s.Goto(p, unlink), g.Goto(p, on));
  }

  /** A breaker that found every slot dead clears them all and starts over. */
  lemma {:induction false} ClearAll(s: State, p: nat, i: nat)
    requires i <= MAX_BREAK_GUARDS
    requires forall j: nat :: i <= j < MAX_BREAK_GUARDS ==> (0, j) in s.guards && s.guards[(0, j)] == j + 1
    ensures Goes(s.Goto(p, ClearFrom(0, 0, Breakers(MAX_BREAK_GUARDS), i, AllDead)), p,
                 s.(guards := s.guards - SlotsFrom(i)).Goto(p, ReadLock(1)))
    decreases MAX_BREAK_GUARDS - i
  {
    var b := Breakers(MAX_BREAK_GUARDS);
    var goal := s.(guards := s.guards - SlotsFrom(i)).Goto(p, ReadLock(1));
    if i < MAX_BREAK_GUARDS {
      var g := s.(guards := s.guards - {(0, i)});
      ClearOne(s, p, i);
      ClearAll(g, p, i + 1);
      assert g.guards - SlotsFrom(i + 1) == s.guards - SlotsFrom(i);
      Then(s.Goto(p, ReadDead(0, 0, b, i, AllDead)), p, g.Goto(p, ClearFrom(0, 0, b, i + 1, AllDead)), goal);
    } else {
      assert s.guards - SlotsFrom(i) == s.guards;
      assert Solo(goal, p, 0) == goal;
    }
  }

  /** A breaker that finds all slots dead is about to unlink slot 0. */
  lemma AllSlotsDead(s: State, p: nat)
    requires Stuck(s, MAX_BREAK_GUARDS) && s.At(p).Idle?
    ensures Goes(s, p, s.(exhausted := true).Goto(p, ReadDead(0, 0, Breakers(MAX_BREAK_GUARDS), 0, AllDead)))
  {
    var x := s.(exhausted := true);
    var read := ReadDead(0, 0, Breakers(MAX_BREAK_GUARDS), 0, AllDead);
    ClimbTo(s, p, MAX_BREAK_GUARDS, MAX_BREAK_GUARDS);
    Move(s, p, Climb(MAX_BREAK_GUARDS), x, read);
    Then(s, p, s.Goto(p, Climb(MAX_BREAK_GUARDS)), x.Goto(p, read));
  }

  /** A second breaker that finds all slots dead clears them, starts over and owns slot 0 again,
      about to unlink the stale record. */
  lemma SlotZeroIsReclaimed(s: State, p: nat)
    requires Stuck(s, MAX_BREAK_GUARDS) && s.At(p).Idle?
    ensures Goes(s, p, s.(exhausted := true, guards := (s.guards - SlotsFrom(0))[(0, 0) := p])
                        .Goto(p, UnlinkStale(1, 0, [])))
  {
    var x := s.(exhausted := true);
    var c := x.(guards := s.guards - SlotsFrom(0));
    var b := Breakers(MAX_BREAK_GUARDS);
    AllSlotsDead(s, p);
    ClearAll(x, p, 0);
    Then(s, p, x.Goto(p, ReadDead(0, 0, b, 0, AllDead)), c.Goto(p, ReadLock(1)));
    Move(c, p, ReadLock(1), c, Judge(1, 0));
    Then(s, p, c.Goto(p, ReadLock(1)), c.Goto(p, Judge(1, 0)));
    Move(c, p, Judge(1, 0), c, LinkGuard(1, 0, [], 0));
    Then(s, p, c.Goto(p, Judge(1, 0)), c.Goto(p, LinkGuard(1, 0, [], 0)));
    FirstGuardIsTaken(c, p, 1, 0);
    Then(s, p, c.Goto(p, LinkGuard(1, 0, [], 0)), c.(guards := c.guards[(0, 0) := p]).Goto(p, UnlinkStale(1, 0, [])));
  }

  /** Eight dead breakers; then 9 and 10 both find every slot dead. 9 has read slot 0 when 10 clears
      all slots and claims slot 0 again. */
  lemma LiveGuardUnderThreat() returns (es: seq<Event>)
    ensures var s := Run(NOBODY, es);
      && s.lock == Held(0) && 0 in s.dead && s.Runs(9) && s.Runs(10)
      && s.exhausted && !s.faulted
      && s.At(9) == UnlinkDead(0, 0, Breakers(MAX_BREAK_GUARDS), 0, AllDead)
      && s.At(10) == UnlinkStale(1, 0, [])
      && (forall p: nat :: p > 10 ==> Unstarted(s, p))
  {
    es := DeadBreakersPileUp(MAX_BREAK_GUARDS);
    var s := Run(NOBODY, es);
    assert Unstarted(s, 9) && Unstarted(s, 10);
    var b := Breakers(MAX_BREAK_GUARDS);
    AllSlotsDead(s, 9);
    var s0 := s.(exhausted := true);
    Move(s0, 9, ReadDead(0, 0, b, 0, AllDead), s0, UnlinkDead(0, 0, b, 0, AllDead));
    var s9 := s0.Goto(9, UnlinkDead(0, 0, b, 0, AllDead));
    Then(s, 9, s0.Goto(9, ReadDead(0, 0, b, 0, AllDead)), s9);
    es := Extend(NOBODY, es, 9, s9);
    SlotZeroIsReclaimed(s9, 10);
    var s10 := s9.(exhausted := true, guards := (s9.guards - SlotsFrom(0))[(0, 0) := 10]).Goto(10, UnlinkStale(1, 0, []));
    es := Extend(NOBODY, es, 10, s10);
    forall p: nat | p > 10 ensures Unstarted(s10, p) {
      assert Unstarted(s, p);
    }
  }

  /** 9 unlinks the live guard of 10, and 11 claims slot 0 once more: 10 and 11 are both about to
      unlink the stale record. */
  lemma TwoBreakersAtOnce() returns (es: seq<Event>)
    ensures var s := Run(NOBODY, es);
      && s.exhausted && !s.faulted && s.At(10) == UnlinkStale(1, 0, []) && s.At(11) == UnlinkStale(0, 0, []) && s.Runs(10) && s.Runs(11)
      && (forall p: nat :: p > 11 ==> Unstarted(s, p))
  {
    es := LiveGuardUnderThreat();
    var s := Run(NOBODY, es);
    assert Unstarted(s, 11);
    var g := s.(guards := s.guards - {(0, 0)});
    One(s, 9, g, ClearFrom(0, 0, Breakers(MAX_BREAK_GUARDS), 1, AllDead));
    var t := g.Goto(9, ClearFrom(0, 0, Breakers(MAX_BREAK_GUARDS), 1, AllDead));
    es := Extend(NOBODY, es, 9, t);
    DeadHolderIsSeen(t, 11, 0);
    FirstGuardIsTaken(t, 11, 0, 0);
    var u := t.(guards := t.guards[(0, 0) := 11]).Goto(11, UnlinkStale(0, 0, []));
    Then(t, 11, t.Goto(11, LinkGuard(0, 0, [], 0)), u);
    es := Extend(NOBODY, es, 11, u);
    forall p: nat | p > 11 ensures Unstarted(u, p) {
      assert Unstarted(s, p);
    }
  }

  /** Two breakers about to unlink the same stale record make two holders: one unlinks it, `h` takes the lock, the
      other unlinks that, `k` takes it too. */
  lemma TwoBreakersTwoHolders(es: seq<Event>, p: nat, q: nat, h: nat, k: nat) returns (longer: seq<Event>)
    requires var s := Run(NOBODY, es);
      && s.At(p).UnlinkStale? && s.At(q).UnlinkStale? && s.Runs(p) && s.Runs(q) && p != q
      && Unstarted(s, h) && Unstarted(s, k) && h != k
    ensures var (s, t) := (Run(NOBODY, es), Run(NOBODY, longer));
      t.Holds(h) && t.Holds(k) && t.dead == s.dead && t.exhausted == s.exhausted && t.faulted == s.faulted
  {
    var s := Run(NOBODY, es);
    var a := AfterUnlink(s, p);
    StaleIsUnlinked(s, p);
    longer := Extend(NOBODY, es, p, a);
    NewcomerTakesFreeLock(a, h);
    var b := a.(lock := Held(h)).Goto(h, Holding);
    longer := Extend(NOBODY, longer, h, b);
    var c := AfterUnlink(b, q);
    StaleIsUnlinked(b, q);
    longer := Extend(NOBODY, longer, q, c);
    NewcomerTakesFreeLock(c, k);
    longer := Extend(NOBODY, longer, k, c.(lock := Held(k)).Goto(k, Holding));
  }

  function AfterUnlink(s: State, p: nat): State
    requires s.At(p).UnlinkStale?
  {
    s.(lock := Missing).Goto(p, ClearFrom(s.At(p).attempt, s.At(p).stale, s.At(p).passed, 0, Broke))
  }

  lemma StaleIsUnlinked(s: State, p: nat)
    requires s.At(p).UnlinkStale?
    ensures Goes(s, p, AfterUnlink(s, p))
  {
    One(s, p, s.(lock := Missing), ClearFrom(s.At(p).attempt, s.At(p).stale, s.At(p).passed, 0, Broke));
  }

  /** Without the first hypothesis of `MutualExclusion` two running invocations can hold the lock at once. */
  lemma ExhaustedSlotsBreakExclusion() returns (es: seq<Event>)
    ensures var s := Run(NOBODY, es); s.exhausted && !s.faulted && s.Holds(12) && s.Holds(13)
  {
    es := TwoBreakersAtOnce();
    assert Unstarted(Run(NOBODY, es), 12) && Unstarted(Run(NOBODY, es), 13);
    es := TwoBreakersTwoHolders(es, 10, 11, 12, 13);
  }

  // ---------------------------------------------------------------- a failure under a guard

  /** Holder 0 was killed; breaker 1 owns slot 0 and is about to read (`atRead`) or to unlink the stale record. */
  function AtWork(atRead: bool): State {
    State(Held(0), map[(0, 0) := 1],
      map[0 := Holding, 1 := if atRead then CheckLock(0, 0, []) else UnlinkStale(0, 0, [])], {0}, false, false)
  }

  lemma BreakerAtWork(atRead: bool) returns (es: seq<Event>)
    ensures Run(NOBODY, es) == AtWork(atRead)
  {
    NewcomerTakesFreeLock(NOBODY, 0);
    es := Extend(NOBODY, [], 0, NOBODY.(lock := Held(0)).Goto(0, Holding));
    Kill(NOBODY, es, 0);
    es := es + [Crash(0)];
    var s := Run(NOBODY, es);
    var g := s.(guards := s.guards[(0, 0) := 1]);
    DeadHolderIsSeen(s, 1, 0);
    if atRead {
      Move(s, 1, LinkGuard(0, 0, [], 0), g, CheckLock(0, 0, []));
      Then(s, 1, s.Goto(1, LinkGuard(0, 0, [], 0)), g.Goto(1, CheckLock(0, 0, [])));
      es := Extend(NOBODY, es, 1, g.Goto(1, CheckLock(0, 0, [])));
    } else {
      FirstGuardIsTaken(s, 1, 0, 0);
      Then(s, 1, s.Goto(1, LinkGuard(0, 0, [], 0)), g.Goto(1, UnlinkStale(0, 0, [])));
      es := Extend(NOBODY, es, 1, g.Goto(1, UnlinkStale(0, 0, [])));
    }
  }

  lemma GuardIsRead(s: State, p: nat, b: nat)
    requires s.lock == Held(0) && 0 in s.dead && s.At(p).Idle? && (0, 0) in s.guards && s.guards[(0, 0)] == b
    ensures Goes(s, p, s.Goto(p, JudgeGuard(0, 0, [], 0, b)))
  {
    var link, read, judge := LinkGuard(0, 0, [], 0), ReadGuard(0, 0, [], 0), JudgeGuard(0, 0, [], 0, b);
    DeadHolderIsSeen(s, p, 0);
    Move(s, p, link, s, read);
    Move(s, p, read, s, judge);
    Then(s, p, s.Goto(p, link), s.Goto(p, read));
    Then(s, p, s.Goto(p, read), s.Goto(p, judge));
  }

  /** The failure clears the guard of breaker 1 while the stale record stands, and its call ends in the exception. */
  lemma FailureClearsGuard(s: State)
    requires s.lock == Held(0) && s.guards == map[(0, 0) := 1] && Breaking(s.At(1))
    requires s.At(1).attempt == 0 && s.At(1).stale == 0 && s.At(1).passed == []
    ensures var t := Next(s, 1, Luck(true, false, true));
      t.faulted && Goes(t, 1, s.(faulted := true, guards := map[]).Goto(1, Done(Failed)))
  {
    var f := s.(faulted := true);
    var g := f.(guards := map[]);
    var own, unlink := ReadOwn(0, 0, 0, Threw), UnlinkOwn(0, 0, 0, Threw);
    assert s.guards - {(0, 0)} == map[];
    Move(f, 1, own, f, unlink);
    Move(f, 1, unlink, g, Done(Failed));
    Then(f.Goto(1, own), 1, f.Goto(1, unlink), g.Goto(1, Done(Failed)));
  }

  /** Breaker 2, which had read that guard, finds its breaker dead and takes slot 1. */
  lemma NextSlotBeside(s: State, p: nat)
    requires s.lock == Held(0) && s.guards == map[] && 1 in s.dead && s.At(p) == JudgeGuard(0, 0, [], 0, 1)
    ensures Goes(s, p, s.(guards := map[(0, 1) := p]).Goto(p, UnlinkStale(0, 0, [1])))
  {
    var g := s.(guards := map[(0, 1) := p]);
    var link, check, unlink := LinkGuard(0, 0, [1], 0), CheckLock(0, 0, [1]), UnlinkStale(0, 0, [1]);
    assert [] + [1] == [1];
    One(s, p, s, link);
    Move(s, p, link, g, check);
    Move(g, p, check, g, unlink);
    Then(s, p, s.Goto(p, link), g.Goto(p, check));
    Then(s, p, g.Goto(p, check), g.Goto(p, unlink));
  }

  /** Breaker 2 read the guard of breaker 1, whose read or unlink then fails; 1 clears its guard and its process ends. */
  const GUARD_GONE := State(Held(0), map[],
    map[0 := Holding, 1 := Done(Failed), 2 := JudgeGuard(0, 0, [], 0, 1)], {0, 1}, false, true)

  lemma GuardIsGone(atRead: bool) returns (es: seq<Event>)
    ensures Run(NOBODY, es) == GUARD_GONE
  {
    es := BreakerAtWork(atRead);
    var s := Run(NOBODY, es);
    GuardIsRead(s, 2, 1);
    es := Extend(NOBODY, es, 2, s.Goto(2, JudgeGuard(0, 0, [], 0, 1)));
    var t := Run(NOBODY, es);
    var fails := [Step(1, Luck(true, false, true))];
    FailureClearsGuard(t);
    RunConcat(NOBODY, es, fails);
    assert Run(t, fails) == Next(t, 1, Luck(true, false, true));
    es := Extend(NOBODY, es + fails, 1, t.(faulted := true, guards := map[]).Goto(1, Done(Failed)));
    Kill(NOBODY, es, 1);
    es := es + [Crash(1)];
  }

  /** Nor without the second hypothesis: one failed read, or one failed unlink, under a guard is enough. Breaker 2
      passes slot 0, breaker 3 takes it, both unlink, and 4 and 5 hold the lock, with two deaths in all. */
  lemma FailureUnderGuardBreaksExclusion(atRead: bool) returns (es: seq<Event>)
    ensures var s := Run(NOBODY, es); s.faulted && !s.exhausted && |s.dead| == 2 && s.Holds(4) && s.Holds(5)
  {
    es := GuardIsGone(atRead);
    var s := Run(NOBODY, es);
    NextSlotBeside(s, 2);
    var t := s.(guards := map[(0, 1) := 2]).Goto(2, UnlinkStale(0, 0, [1]));
    es := Extend(NOBODY, es, 2, t);
    DeadHolderIsSeen(t, 3, 0);
    FirstGuardIsTaken(t, 3, 0, 0);
    var u := t.(guards := t.guards[(0, 0) := 3]).Goto(3, UnlinkStale(0, 0, []));
    Then(t, 3, t.Goto(3, LinkGuard(0, 0, [], 0)), u);
    es := Extend(NOBODY, es, 3, u);
    es := TwoBreakersTwoHolders(es, 2, 3, 4, 5);
  }
}
