/** One key rotation at a time beside any number of other commands that loaded the profile earlier and save
    a grant or the profile, each of them possibly killed between any two steps. Every file is represented by
    the agent identifier (did) it belongs to. The profile lock is taken when it is free or its owner is dead,
    which is what the lock file of module FileLock gives. */
module RotationRace {
  import opened Basics

  type Did = nat

  datatype Target = GrantFile | ProfileFile

  /** Inside the lock: before the check of the agent, after it, after the write or the refusal. */
  datatype Pc = Outside | Entered(target: Target) | Checked(target: Target) | Leaving

  /** A command's loaded profile: the did it had in the file at the last load or save, and the did it has
      in the caller's object. Only `init` changes the latter, to that of the key it loads. A grant is saved
      only after its holder was compared with the latter. */
  datatype Command = Command(base: Did, mine: Did, pc: Pc)

  /** The next effect of the process that rotates or recovers. */
  datatype RotationPc = WriteJournal | SaveKey | TakeLock | WriteProfile | DropLock | RemoveGrant | DeleteJournal

  datatype Rotator = Rotator(id: nat, next: Did, pc: RotationPc)

  /** `used` collects every did there ever was: new keys are fresh. */
  datatype State = State(
    key: Did,
    profile: Did,
    grant: Option<Did>,
    journal: Option<Did>,
    lock: Option<nat>,
    commands: map<nat, Command>,
    rotator: Option<Rotator>,
    dead: set<nat>,
    used: set<Did>)
  {
    predicate LockIsFree() {
      lock.None? || lock.value in dead
    }

    predicate Runs(p: nat) {
      p in commands && p !in dead
    }

    predicate Rotating() {
      rotator.Some? && rotator.value.id !in dead
    }

    predicate Fresh(p: nat) {
      p !in commands && p !in dead && lock != Some(p) && !(rotator.Some? && rotator.value.id == p)
    }

    function Set(p: nat, c: Command): State {
      this.(commands := commands[p := c])
    }
  }

  datatype Event =
    | Load(p: nat)
    | AdoptKey(p: nat)
    | RewriteKey(p: nat)
    | Enter(p: nat, target: Target)
    | Move(p: nat)
    | Crash(p: nat)
    | Rotate(p: nat, next: Did)
    | Recover(p: nat)
    | RotationStep

  /** The steps of a save under the lock: `saveGrantIfCurrent` and `saveProfile`. */
  function Moved(s: State, p: nat): State
    requires s.Runs(p)
  {
    var c := s.commands[p];
    match c.pc
    case Outside => s
    case Entered(t) => s.Set(p, c.(pc := if c.base == s.profile then Checked(t) else Leaving))
    case Checked(GrantFile) => s.(grant := Some(c.mine)).Set(p, c.(pc := Leaving))
    case Checked(ProfileFile) =>
      var result := if c.mine == c.base then s.profile else c.mine;
      s.(profile := result).Set(p, Command(result, result, Leaving))
    case Leaving => s.(lock := None).Set(p, c.(pc := Outside))
  }

  /** The effects of `rotateKey` and of a recovery, which starts again at the key. */
  function Rotated(s: State): State
    requires s.rotator.Some?
  {
    var r := s.rotator.value;
    match r.pc
    case WriteJournal => s.(journal := Some(r.next), rotator := Some(r.(pc := SaveKey)))
    case SaveKey => s.(key := r.next, rotator := Some(r.(pc := TakeLock)))
    case TakeLock => if s.LockIsFree() then s.(lock := Some(r.id), rotator := Some(r.(pc := WriteProfile))) else s
    case WriteProfile => s.(profile := r.next, rotator := Some(r.(pc := DropLock)))
    case DropLock => s.(lock := None, rotator := Some(r.(pc := RemoveGrant)))
    case RemoveGrant => s.(grant := None, rotator := Some(r.(pc := DeleteJournal)))
    case DeleteJournal => s.(journal := None, rotator := None)
  }

  function Apply(s: State, e: Event): State {
    match e
    case Load(p) => if s.Fresh(p) then s.Set(p, Command(s.profile, s.profile, Outside)) else s
    case AdoptKey(p) =>
      if s.Runs(p) && s.commands[p].pc.Outside? then s.Set(p, s.commands[p].(mine := s.key)) else s
    case RewriteKey(p) =>
      if s.Runs(p) && s.commands[p].pc.Outside? then s.(key := s.commands[p].mine) else s
    case Enter(p, t) =>
      if s.Runs(p) && s.commands[p].pc.Outside? && s.LockIsFree()
      then s.(lock := Some(p)).Set(p, s.commands[p].(pc := Entered(t)))
      else s
    case Move(p) => if s.Runs(p) then Moved(s, p) else s
    case Crash(p) => s.(dead := s.dead + {p})
    case Rotate(p, next) =>
      if s.Fresh(p) && !s.Rotating() && s.journal.None? && next !in s.used
      then s.(rotator := Some(Rotator(p, next, WriteJournal)), used := s.used + {next})
      else s
    case Recover(p) =>
      if s.Fresh(p) && !s.Rotating() && s.journal.Some?
      then s.(rotator := Some(Rotator(p, s.journal.value, SaveKey)))
      else s
    case RotationStep => if s.Rotating() then Rotated(s) else s
  }

  function Run(s: State, es: seq<Event>): State
    decreases |es|
  {
    if es == [] then s else Run(Apply(s, es[0]), es[1..])
  }

  predicate Initial(s: State) {
    && s.key == s.profile && s.grant in {None, Some(s.profile)} && s.journal == None && s.lock == None
    && s.commands == map[] && s.rotator == None && s.dead == {} && s.used == {s.profile}
  }

  /** A journal is on disk, its key is still to be saved, and neither the profile nor any command has the new agent. */
  predicate KeyIsStillToBeSaved(s: State) {
    && s.journal.Some? && s.profile != s.journal.value
    && (s.Rotating() ==> s.rotator.value.pc == SaveKey)
    && forall q :: q in s.commands ==> s.commands[q].base != s.journal.value && s.commands[q].mine != s.journal.value
  }

  /** A plain `init` writes back the key that is there, because no rotation replaced it since it was loaded, or it
      writes another one that the rotation at work replaces before anything depends on it. */
  predicate Timely(s: State, e: Event) {
    e.RewriteKey? && s.Runs(e.p) && s.commands[e.p].pc.Outside? ==> s.commands[e.p].mine == s.key || KeyIsStillToBeSaved(s)
  }

  predicate AllTimely(s: State, es: seq<Event>)
    decreases |es|
  {
    es == [] || (Timely(s, es[0]) && AllTimely(Apply(s, es[0]), es[1..]))
  }

  // ---------------------------------------------------------------- the invariant

  predicate CommandOk(s: State, p: nat)
    requires p in s.commands
  {
    var c := s.commands[p];
    && c.base in s.used && c.mine in s.used
    && (s.journal.None? && c.base == s.profile ==> c.mine == s.profile)
    && (s.journal.Some? && c.base == s.journal.value ==> c.mine == s.journal.value && s.key == s.journal.value)
    && (s.journal.Some? && c.mine == s.journal.value ==> s.key == s.journal.value)
    && (p !in s.dead && !c.pc.Outside? ==> s.lock == Some(p))
    && (p !in s.dead && c.pc.Checked? ==> c.base == s.profile)
    && !(s.rotator.Some? && s.rotator.value.id == p)
  }

  predicate FilesOk(s: State) {
    && s.profile in s.used && s.key in s.used
    && (s.journal.None? ==> s.key == s.profile && s.grant in {None, Some(s.profile)})
    && (s.journal.Some? ==> s.journal.value in s.used && (s.profile == s.journal.value ==> s.key == s.journal.value))
  }

  predicate RotatorOk(s: State) {
    s.Rotating() ==>
      var r := s.rotator.value;
      && r.next in s.used
      && (r.pc == WriteJournal ==>
            && s.journal.None? && r.next != s.profile
            && forall p :: p in s.commands ==> s.commands[p].base != r.next && s.commands[p].mine != r.next)
      && (r.pc != WriteJournal ==> s.journal == Some(r.next))
      && (r.pc !in {WriteJournal, SaveKey} ==> s.key == r.next)
      && (r.pc in {WriteProfile, DropLock} ==> s.lock == Some(r.id))
      && (r.pc in {WriteJournal, SaveKey, TakeLock} ==> s.lock != Some(r.id))
      && (r.pc in {DropLock, RemoveGrant, DeleteJournal} ==> s.profile == r.next)
      && (r.pc == DeleteJournal ==> s.grant in {None, Some(r.next)})
  }

  ghost predicate Inv(s: State) {
    && FilesOk(s) && RotatorOk(s)
    && forall p :: p in s.commands ==> CommandOk(s, p)
  }

  lemma MoveKeepsInv(s: State, p: nat)
    requires Inv(s) && s.Runs(p)
    ensures Inv(Moved(s, p))
  {
    var t := Moved(s, p);
    assert CommandOk(s, p);
    forall q | q in t.commands ensures CommandOk(t, q) {
      MoveKeepsCommand(s, p, q);
    }
  }

  lemma MoveKeepsCommand(s: State, p: nat, q: nat)
    requires FilesOk(s) && s.Runs(p) && CommandOk(s, p) && q in s.commands && CommandOk(s, q)
    ensures CommandOk(Moved(s, p), q)
  {
  }

  lemma RotationKeepsInv(s: State)
    requires Inv(s) && s.Rotating()
    ensures Inv(Rotated(s))
  {
    var t := Rotated(s);
    forall q | q in t.commands ensures CommandOk(t, q) {
      assert CommandOk(s, q);
    }
  }

  lemma StartKeepsInv(s: State, e: Event)
    requires Inv(s) && (e.Rotate? || e.Recover? || e.Crash?)
    ensures Inv(Apply(s, e))
  {
    var t := Apply(s, e);
    forall q | q in t.commands ensures CommandOk(t, q) {
      assert CommandOk(s, q);
    }
  }

  lemma CommandKeepsInv(s: State, e: Event)
    requires Inv(s) && Timely(s, e) && (e.Load? || e.AdoptKey? || e.RewriteKey? || e.Enter?)
    ensures Inv(Apply(s, e))
  {
    var t := Apply(s, e);
    forall q | q in t.commands ensures CommandOk(t, q) {
      if q in s.commands {
        assert CommandOk(s, q);
      }
    }
  }

  lemma EventKeepsInv(s: State, e: Event)
    requires Inv(s) && Timely(s, e)
    ensures Inv(Apply(s, e))
  {
    match e
    case Move(p) => if s.Runs(p) { MoveKeepsInv(s, p); }
    case RotationStep => if s.Rotating() { RotationKeepsInv(s); }
    case Rotate(_, _) => StartKeepsInv(s, e);
    case Recover(_) => StartKeepsInv(s, e);
    case Crash(_) => StartKeepsInv(s, e);
    case _ => CommandKeepsInv(s, e);
  }

  lemma {:induction false} RunKeepsInv(s: State, es: seq<Event>)
    requires Inv(s) && AllTimely(s, es)
    ensures Inv(Run(s, es))
    decreases |es|
  {
    if es != [] {
      EventKeepsInv(s, es[0]);
      RunKeepsInv(Apply(s, es[0]), es[1..]);
    }
  }

  // ---------------------------------------------------------------- the results

  /** No old grant beside a new profile: whenever no journal is on disk, key.json and a saved grant belong
      to the agent named in profile.json, whatever was interleaved and killed. */
  lemma NoOldGrantBesideNewProfile(s: State, es: seq<Event>)
    requires Initial(s) && AllTimely(s, es) && Run(s, es).journal.None?
    ensures var t := Run(s, es);
      t.key == t.profile && (t.grant.Some? ==> t.grant.value == t.profile)
  {
    RunKeepsInv(s, es);
  }

  /** A command that outlived a rotation writes nothing: after the rotation's profile write, every save of
      a copy loaded before it ends in a refusal. */
  lemma OutlivedCommandIsRefused(s: State, es: seq<Event>, p: nat)
    requires Initial(s) && AllTimely(s, es)
    requires var t := Run(s, es); t.Runs(p) && t.commands[p].base != t.profile
    ensures var t := Run(s, es);
      var u := Apply(t, Move(p));
      && u.grant == t.grant && u.profile == t.profile && u.key == t.key
      && (t.commands[p].pc.Entered? ==> u.commands[p].pc == Leaving)
  {
    RunKeepsInv(s, es);
    assert CommandOk(Run(s, es), p);
  }

  /** At most one running process is between taking the profile lock and dropping it. */
  lemma OneSaverAtATime(s: State, es: seq<Event>, p: nat, q: nat)
    requires Initial(s) && AllTimely(s, es)
    requires var t := Run(s, es);
      && t.Runs(p) && !t.commands[p].pc.Outside?
      && ((t.Runs(q) && !t.commands[q].pc.Outside?) ||
          (t.Rotating() && t.rotator.value.id == q && t.rotator.value.pc in {WriteProfile, DropLock}))
    ensures p == q && Run(s, es).Runs(q)
  {
    RunKeepsInv(s, es);
    var t := Run(s, es);
    assert CommandOk(t, p);
    if q in t.commands {
      assert CommandOk(t, q);
    }
  }

  // ---------------------------------------------------------------- where it fails

  ghost predicate Reaches(s: State, t: State) {
    exists es: seq<Event> :: Run(s, es) == t
  }

  lemma {:induction false} RunAppend(s: State, es: seq<Event>, e: Event)
    ensures Run(s, es + [e]) == Apply(Run(s, es), e)
    decreases |es|
  {
    if es == [] {
      assert es + [e] == [e];
      assert Run(Apply(s, e), [e][1..]) == Apply(s, e);
    } else {
      assert (es + [e])[1..] == es[1..] + [e];
      RunAppend(Apply(s, es[0]), es[1..], e);
    }
  }

  lemma ReachesOneMore(s: State, t: State, e: Event)
    requires Reaches(s, t)
    ensures Reaches(s, Apply(t, e))
  {
    var es: seq<Event> :| Run(s, es) == t;
    RunAppend(s, es, e);
  }

  /** No process is inside the lock or rotating. */
  predicate Quiet(t: State) {
    t.journal.None? && t.lock.None? && t.rotator.None? && t.dead == {}
  }

  lemma RotationStepReaches(s: State, t: State, u: State)
    requires Reaches(s, t) && t.Rotating() && u == Rotated(t)
    ensures Reaches(s, u)
  {
    ReachesOneMore(s, t, RotationStep);
  }

  function At(t: State, id: nat, next: Did, pc: RotationPc): State {
    t.(rotator := Some(Rotator(id, next, pc)))
  }

  lemma RotateHalfway(s: State, t: State, id: nat, next: Did)
    requires Reaches(s, t) && Quiet(t) && id !in t.commands && next !in t.used
    ensures Reaches(s, At(t.(key := next, journal := Some(next), used := t.used + {next}), id, next, TakeLock))
  {
    ReachesOneMore(s, t, Rotate(id, next));
    var w := t.(used := t.used + {next});
    var x := w.(journal := Some(next));
    RotationStepReaches(s, At(w, id, next, WriteJournal), At(x, id, next, SaveKey));
    RotationStepReaches(s, At(x, id, next, SaveKey), At(x.(key := next), id, next, TakeLock));
  }

  lemma RotateFully(s: State, t: State, id: nat, next: Did)
    requires Reaches(s, t) && Quiet(t) && id !in t.commands && next !in t.used
    ensures Reaches(s, t.(key := next, profile := next, grant := None, used := t.used + {next}))
  {
    RotateHalfway(s, t, id, next);
    var x := t.(key := next, journal := Some(next), used := t.used + {next});
    var y := x.(profile := next);
    var z := y.(grant := None);
    RotationStepReaches(s, At(x, id, next, TakeLock), At(x.(lock := Some(id)), id, next, WriteProfile));
    RotationStepReaches(s, At(x.(lock := Some(id)), id, next, WriteProfile), At(y.(lock := Some(id)), id, next, DropLock));
    RotationStepReaches(s, At(y.(lock := Some(id)), id, next, DropLock), At(y, id, next, RemoveGrant));
    RotationStepReaches(s, At(y, id, next, RemoveGrant), At(z, id, next, DeleteJournal));
    RotationStepReaches(s, At(z, id, next, DeleteJournal), z.(journal := None, rotator := None));
  }

  /** One accepted save by `p`. */
  lemma SaveAccepted(s: State, t: State, p: nat, target: Target)
    requires Reaches(s, t) && Quiet(t) && p in t.commands && t.commands[p].pc.Outside? && t.commands[p].base == t.profile
    ensures var c := t.commands[p];
      Reaches(s, if target.GrantFile? then t.(grant := Some(c.mine))
                 else t.(profile := c.mine).Set(p, Command(c.mine, c.mine, Outside)))
  {
    var c := t.commands[p];
    var t0 := Apply(t, Enter(p, target));
    ReachesOneMore(s, t, Enter(p, target));
    var t1 := Apply(t0, Move(p));
    ReachesOneMore(s, t0, Move(p));
    var t2 := Apply(t1, Move(p));
    ReachesOneMore(s, t1, Move(p));
    ReachesOneMore(s, t2, Move(p));
    var u := Apply(t2, Move(p));
    if target.GrantFile? {
      assert u.commands == t.commands;
      assert u == t.(grant := Some(c.mine));
    } else {
      assert u == t.(profile := c.mine).Set(p, Command(c.mine, c.mine, Outside));
    }
  }

  lemma LoadAndAdopt(s: State, t: State, p: nat, adopt: bool)
    requires Reaches(s, t) && Quiet(t) && p !in t.commands
    ensures Reaches(s, t.Set(p, Command(t.profile, if adopt then t.key else t.profile, Outside)))
  {
    var t0 := Apply(t, Load(p));
    ReachesOneMore(s, t, Load(p));
    if adopt {
      ReachesOneMore(s, t0, AdoptKey(p));
      assert Apply(t0, AdoptKey(p)) == t.Set(p, Command(t.profile, t.key, Outside));
    }
  }

  /** With no rotation on disk, writing the loaded key back keeps key.json and profile.json of one agent
      exactly when no rotation came between the load and the write. */
  lemma RewriteIsSafeIffTimely(s: State, p: nat)
    requires Inv(s) && s.journal.None? && s.Runs(p) && s.commands[p].pc.Outside?
    ensures Apply(s, RewriteKey(p)).key == Apply(s, RewriteKey(p)).profile <==> Timely(s, RewriteKey(p))
  {
  }

  /** A whole rotation falls between the load and the write of a plain `init`: the old key is back beside the new
      profile and a grant for the new key. */
  lemma OldKeyIsBack(s: State, next: Did)
    requires Initial(s) && next != s.profile
    ensures Reaches(s, s.(profile := next, grant := Some(next), used := s.used + {next},
      commands := map[0 := Command(s.profile, s.profile, Outside), 2 := Command(next, next, Outside)]))
  {
    var old_ := s.profile;
    assert Run(s, []) == s;
    LoadAndAdopt(s, s, 0, true);
    var a := s.Set(0, Command(old_, old_, Outside));
    RotateFully(s, a, 1, next);
    var b := a.(key := next, profile := next, grant := None, used := a.used + {next});
    LoadAndAdopt(s, b, 2, false);
    var c := b.Set(2, Command(next, next, Outside));
    SaveAccepted(s, c, 2, GrantFile);
    var d := c.(grant := Some(next));
    ReachesOneMore(s, d, RewriteKey(0));
    assert Apply(d, RewriteKey(0)) == d.(key := old_);
    assert c.commands == map[0 := Command(old_, old_, Outside), 2 := Command(next, next, Outside)];
  }

  lemma ReachesFirst(s: State, e: Event, t: State)
    requires Reaches(Apply(s, e), t)
    ensures Reaches(s, t)
  {
    var es: seq<Event> :| Run(Apply(s, e), es) == t;
    assert ([e] + es)[1..] == es;
    assert Run(s, [e] + es) == t;
  }

  function StepsLeft(pc: RotationPc): nat {
    match pc
    case WriteJournal => 7
    case SaveKey => 6
    case TakeLock => 5
    case WriteProfile => 4
    case DropLock => 3
    case RemoveGrant => 2
    case DeleteJournal => 1
  }

  predicate IsPastKey(pc: RotationPc) {
    pc != WriteJournal && pc != SaveKey
  }

  predicate IsPastProfile(pc: RotationPc) {
    pc == DropLock || pc == RemoveGrant || pc == DeleteJournal
  }

  /** A rotation past its key goes on to its end with whatever key is there. */
  lemma {:induction false} RotationEnds(s: State)
    requires s.Rotating() && IsPastKey(s.rotator.value.pc)
    requires s.rotator.value.pc == TakeLock ==> s.LockIsFree()
    requires IsPastProfile(s.rotator.value.pc) ==> s.profile == s.rotator.value.next
    ensures exists t: State :: Reaches(s, t) && t.journal.None? && t.key == s.key && t.profile == s.rotator.value.next
    decreases StepsLeft(s.rotator.value.pc)
  {
    var u := Rotated(s);
    assert Apply(s, RotationStep) == u;
    if u.rotator.None? {
      assert Run(u, []) == u;
      assert Reaches(u, u);
    } else {
      RotationEnds(u);
    }
    var t: State :| Reaches(u, t) && t.journal.None? && t.key == s.key && t.profile == s.rotator.value.next;
    ReachesFirst(s, RotationStep, t);
  }

  /** An untimely write while a rotation is past its key does harm: with no other write the rotation ends with the
      old key beside the new profile. */
  lemma {:induction false} LateRewriteDoesHarm(s: State, p: nat)
    requires Inv(s) && s.Runs(p) && s.commands[p].pc.Outside? && s.commands[p].mine != s.key
    requires s.Rotating() && IsPastKey(s.rotator.value.pc)
    ensures exists t: State :: Reaches(Apply(s, RewriteKey(p)), t) && t.journal.None? && t.key != t.profile
  {
    var u := Apply(s, RewriteKey(p));
    if u.LockIsFree() || u.rotator.value.pc != TakeLock {
      RotationEnds(u);
    } else {
      var e := Crash(u.lock.value);
      RotationEnds(Apply(u, e));
      var t: State :| Reaches(Apply(u, e), t) && t.journal.None? && t.key == u.key && t.profile == u.rotator.value.next;
      ReachesFirst(u, e, t);
    }
  }

  /** Timeliness is what the invariant needs, with a journal on disk or without: writing the loaded key back keeps
      it exactly when the write is timely. */
  lemma {:induction false} RewriteKeepsInvIffTimely(s: State, p: nat)
    requires Inv(s) && s.Runs(p) && s.commands[p].pc.Outside?
    ensures Inv(Apply(s, RewriteKey(p))) <==> Timely(s, RewriteKey(p))
  {
    var t := Apply(s, RewriteKey(p));
    assert CommandOk(s, p);
    if Timely(s, RewriteKey(p)) {
      CommandKeepsInv(s, RewriteKey(p));
    } else if s.journal.Some? {
      forall q | q in s.commands && Inv(t) ensures s.commands[q].base != s.journal.value && s.commands[q].mine != s.journal.value {
        assert CommandOk(t, q) && CommandOk(s, q);
      }
    }
  }

  /** Without timeliness the guarantee fails: plain `init` writes back the key it loaded, outside any lock. A later
      plain `init` then makes the profile follow the old key, and the grant of the new key stays beside it. */
  lemma InitRacingARotation(s: State, next: Did)
    requires Initial(s) && next != s.profile
    ensures exists t: State :: Reaches(s, t) && t.journal.None? && t.grant == Some(next) && t.profile == s.profile
  {
    var old_ := s.profile;
    OldKeyIsBack(s, next);
    var e := s.(profile := next, grant := Some(next), used := s.used + {next},
      commands := map[0 := Command(old_, old_, Outside), 2 := Command(next, next, Outside)]);
    LoadAndAdopt(s, e, 3, true);
    var f := e.Set(3, Command(next, old_, Outside));
    SaveAccepted(s, f, 3, ProfileFile);
    var g := f.(profile := old_).Set(3, Command(old_, old_, Outside));
    assert Reaches(s, g);
  }
}
