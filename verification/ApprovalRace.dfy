/** Several commands on one saved approval request: each `init --request` and `init --wait` loads the file once,
    goes on with its own copy, and saves that copy without looking at the file again. Every durable effect is a
    step of its own and is logged; commands interleave and may be killed between any two of them. */
module ApprovalRace {
  import opened Basics
  import opened Approval

  /** What the world answers to a step. Only the answers a program point waits for matter there.
      `Settled` holds the reading that judges the retention window, the last reading, and OpenKey's answer. */
  datatype Answer =
    | Loads(want: Wanted, wait: bool, now: int)
    | Forgets
    | Settled(now: int, last: int, answer: Discovery)
    | Made(created: Option<Request>)
    | Discovered(found: Found)
    | Fetched(relay: Relay)
    | Gone(code: Code)
    | OutOfTime
    | Refuses(refusal: Refusal)
    | Breaks
    | Again
    | Works

  /** Where a command stands, with its copy of the request. `RefKnown`, `EnvelopeKnown` and `Marked` are about to
      save it; `wait` tells `init --wait` from `init --request`. */
  datatype Pc =
    | Idle
    | Settling(p: Request, want: Wanted, wait: bool)
    | RefKnown(p: Request, wait: bool)
    | Creating(want: Wanted, wait: bool)
    | Resumed(p: Request)
    | EnvelopeKnown(p: Request)
    | HasResult(p: Request)
    | GrantSaved(p: Request, cid: string)
    | ProfileSaved(p: Request, cid: string)
    | Marked(p: Request)
    | Acking(p: Request)
    | Dropping(next: Pc)
    | Ended

  datatype Effect =
    | Read(i: nat, file: Option<Request>)
    | SavedRequest(i: nat, q: Request)
    | SavedGrant(i: nat, cid: string)
    | SavedProfile(i: nat, cid: string)
    | Sent(i: nat, ack: Ack)
    | Removed(i: nat)

  /** `seen[i]` is what command `i` last read from the file or wrote to it; `ids` are the requests ever made. */
  datatype State = State(
    file: Option<Request>, grant: Option<string>, profile: Option<string>,
    ids: set<nat>, log: seq<Effect>, seen: map<nat, Option<Request>>, pcs: map<nat, Pc>)
  {
    function At(i: nat): Pc {
      if i in pcs then pcs[i] else Idle
    }

    function Save(i: nat, q: Request): State {
      this.(file := Some(q), ids := ids + {q.id}, log := log + [SavedRequest(i, q)], seen := seen[i := Some(q)])
    }

    function Remove(i: nat): State {
      this.(file := None, log := log + [Removed(i)], seen := seen[i := None])
    }
  }

  datatype Event = Step(i: nat, x: Answer) | Kill(i: nat)

  /** What a command decides from the file it read. */
  function AfterRead(file: Option<Request>, want: Wanted, wait: bool, now: int): Pc {
    if !Mine(file, want) then Creating(want, wait)
    else
      var p := file.value;
      if HoldsApproval(p) then (if wait then Resumed(p) else Ended)
      else if !Matches(p, want) then Creating(want, wait)
      else if RequestLapsed(p, now) then Settling(p, want, wait)
      else if wait then Resumed(p)
      else Ended
  }

  /** The answer about a lapsed request that holds nothing. */
  function AfterSettle(p: Request, want: Wanted, wait: bool, x: Answer): Pc
    requires x.Settled?
  {
    var expired := Dropping(if !wait && RequestLapsed(p, x.last) then Creating(want, wait) else Ended);
    if PastWindow(p, x.now) then expired
    else match x.answer
      case StillOpen => if wait then Resumed(p) else Ended
      case Ready(found) => RefKnown(p.(found := Some(found)), wait)
      case Undiscovered(code) =>
        if code in {RequestExpired, NotFound} then expired
        else if code in {ResultExpired, Acknowledged} then Dropping(Ended)
        else Ended
  }

  /** Collecting the result of a copy that has none yet. */
  function AfterCollect(p: Request, x: Answer): Pc {
    match x
    case Discovered(found) => if p.found.None? then RefKnown(p.(found := Some(found)), true) else Resumed(p)
    case Fetched(relay) => if p.found.Some? then EnvelopeKnown(p.(relay := Some(relay))) else Resumed(p)
    case Gone(code) => if code in {RequestExpired, NotFound, ResultExpired, Acknowledged} then Dropping(Ended) else Ended
    case OutOfTime => Ended
    case _ => Resumed(p)
  }

  /** A new request of the links API: what was wanted, under an id never used before. */
  predicate Fresh(s: State, created: Option<Request>, want: Wanted) {
    created.Some? ==>
      && created.value.id !in s.ids && created.value.issuer == want.issuer && created.value.spec == want.spec
      && created.value.lifetime == want.lifetime && StageOf(created.value) == NoneHeld
  }

  /** Verifying and saving the grant of a collected result. */
  function SaveGrantStep(s: State, i: nat, p: Request, x: Answer): (State, Pc)
    requires p.relay.Some?
  {
    match p.relay.value.opens
    case Failure(_) => (s, Dropping(Ended))
    case Success(cid) =>
      if x.Refuses? then (s, if DropsApproval(x.refusal) then Dropping(Ended) else Ended)
      else if x.Breaks? then (s, Ended)
      else (s.(grant := Some(cid), log := s.log + [SavedGrant(i, cid)]), GrantSaved(p, cid))
  }

  function SaveProfileStep(s: State, i: nat, p: Request, cid: string): (State, Pc) {
    (s.(profile := Some(cid), log := s.log + [SavedProfile(i, cid)]), ProfileSaved(p, cid))
  }

  /** The acknowledgement; `Breaks` is one that was not confirmed, after which the request is kept. */
  function AckStep(s: State, i: nat, p: Request, x: Answer): (State, Pc) {
    if p.found.None? then (s, Dropping(Ended))
    else (s.(log := s.log + [Sent(i, Ack(p.id, p.found.value.ref, p.ackId))]), if x.Breaks? then Ended else Dropping(Ended))
  }

  /** The next step of command `i` at `pc`. */
  function Move(s: State, i: nat, pc: Pc, x: Answer): (State, Pc) {
    match pc
    case Idle =>
      if x.Loads? then (s.(seen := s.seen[i := s.file], log := s.log + [Read(i, s.file)]), AfterRead(s.file, x.want, x.wait, x.now))
      else if x.Forgets? then (s.Remove(i), Ended)
      else (s, pc)
    case Settling(p, want, wait) => (s, if x.Settled? then AfterSettle(p, want, wait, x) else pc)
    case RefKnown(p, wait) => (s.Save(i, p), if wait then Resumed(p) else Ended)
    case Creating(want, wait) =>
      if !x.Made? || !Fresh(s, x.created, want) then (s, pc)
      else if x.created.None? then (s, Ended)
      else (s.Save(i, x.created.value), if wait then Resumed(x.created.value) else Ended)
    case Resumed(p) =>
      (s, if StageOf(p) == Committed then Acking(p) else if StageOf(p) == Collected then HasResult(p) else AfterCollect(p, x))
    case EnvelopeKnown(p) => (s.Save(i, p), HasResult(p))
    case HasResult(p) => if p.relay.Some? then SaveGrantStep(s, i, p, x) else (s, pc)
    case GrantSaved(p, cid) => if x.Breaks? then (s, Ended) else SaveProfileStep(s, i, p, cid)
    case ProfileSaved(p, cid) =>
      if x.Breaks? then (s, Ended)
      else if x.Again? then SaveProfileStep(s, i, p, cid)
      else (s, Marked(p.(committed := true)))
    case Marked(p) => (s.Save(i, p), Acking(p))
    case Acking(p) => AckStep(s, i, p, x)
    case Dropping(next) => (s.Remove(i), next)
    case Ended => (s, pc)
  }

  function Apply(s: State, e: Event): State {
    if e.Kill? then s.(pcs := s.pcs[e.i := Ended])
    else
      var (t, pc) := Move(s, e.i, s.At(e.i), e.x);
      t.(pcs := s.pcs[e.i := pc])
  }

  function Run(s: State, es: seq<Event>): State
    decreases |es|
  {
    if es == [] then s else Run(Apply(s, es[0]), es[1..])
  }

  predicate Initial(s: State) {
    && s.pcs == map[] && s.log == [] && s.seen == map[]
    && (s.file.Some? ==> s.file.value.id in s.ids && !s.file.value.committed)
  }

  lemma {:induction false} RunSnoc(s: State, es: seq<Event>, k: nat)
    requires k < |es|
    ensures Run(s, es[..k + 1]) == Apply(Run(s, es[..k]), es[k])
    decreases k
  {
    if k == 0 {
      assert es[..1] == [es[0]] && es[..1][1..] == [];
    } else {
      assert es[..k][1..] == es[1..][..k - 1] && es[..k + 1][1..] == es[1..][..k];
      RunSnoc(Apply(s, es[0]), es[1..], k - 1);
    }
  }

  // ---------------------------------------------------------------- copies

  function CopyOf(pc: Pc): Option<Request> {
    if pc.Settling? || pc.RefKnown? || pc.Resumed? || pc.EnvelopeKnown? || pc.HasResult? || pc.GrantSaved?
       || pc.ProfileSaved? || pc.Marked? || pc.Acking?
    then Some(pc.p) else None
  }

  predicate Saving(pc: Pc) {
    pc.RefKnown? || pc.EnvelopeKnown? || pc.Marked?
  }

  /** The copy `i` is about to save over the file, whatever that holds now. */
  function Saves(s: State, e: Event): Option<Request> {
    var pc := s.At(e.i);
    if e.Step? && Saving(pc) then Some(pc.p) else None
  }

  /** A command's copy is what it last read or wrote, or it was taken further and is about to be saved. */
  predicate CopyOk(s: State, i: nat, pc: Pc) {
    CopyOf(pc).Some? ==>
      var p := CopyOf(pc).value;
      && p.id in s.ids && i in s.seen && s.seen[i].Some?
      && SameRequest(s.seen[i].value, p) && Rank(s.seen[i].value) <= Rank(p)
      && (pc.Settling? ==> StageOf(p) == NoneHeld)
      && (pc.EnvelopeKnown? || pc.HasResult? || pc.GrantSaved? || pc.ProfileSaved? ==> StageOf(p) == Collected)
      && (pc.Marked? ==> p.committed)
      && (pc.RefKnown? ==> StageOf(p) == Ref)
      && (pc.Acking? ==> p.committed)
      && (Saving(pc) || s.seen[i] == Some(p))
  }

  ghost predicate Inv(s: State) {
    && (s.file.Some? ==> s.file.value.id in s.ids)
    && forall i: nat :: CopyOk(s, i, s.At(i))
  }

  /** A removal goes on to a new request or to the end. */
  predicate DropsOn(pc: Pc) {
    pc.Dropping? ==> CopyOf(pc.next).None? && !pc.next.Dropping?
  }

  ghost predicate AllDropOn(s: State) {
    forall i: nat :: DropsOn(s.At(i))
  }

  lemma MoveKeepsOthers(s: State, i: nat, pc: Pc, x: Answer)
    requires s.file.Some? ==> s.file.value.id in s.ids
    requires CopyOk(s, i, pc)
    ensures var t := Move(s, i, pc, x).0;
      && s.ids <= t.ids && t.pcs == s.pcs && (t.file.Some? ==> t.file.value.id in t.ids)
      && forall j :: j in s.seen && j != i ==> j in t.seen && t.seen[j] == s.seen[j]
  {
  }

  lemma ReadingKeepsCopy(s: State, i: nat, pc: Pc, x: Answer)
    requires CopyOk(s, i, pc) && (s.file.Some? ==> s.file.value.id in s.ids)
    requires pc.Idle? || pc.Settling? || pc.RefKnown? || pc.Creating?
    ensures CopyOk(Move(s, i, pc, x).0, i, Move(s, i, pc, x).1) && DropsOn(Move(s, i, pc, x).1)
  {
  }

  lemma CollectingKeepsCopy(s: State, i: nat, pc: Pc, x: Answer)
    requires CopyOk(s, i, pc) && (pc.Resumed? || pc.EnvelopeKnown?)
    ensures CopyOk(Move(s, i, pc, x).0, i, Move(s, i, pc, x).1) && DropsOn(Move(s, i, pc, x).1)
  {
  }

  lemma MoveKeepsCopy(s: State, i: nat, pc: Pc, x: Answer)
    requires CopyOk(s, i, pc) && DropsOn(pc) && (s.file.Some? ==> s.file.value.id in s.ids)
    ensures CopyOk(Move(s, i, pc, x).0, i, Move(s, i, pc, x).1) && DropsOn(Move(s, i, pc, x).1)
  {
    if pc.Idle? || pc.Settling? || pc.RefKnown? || pc.Creating? {
      ReadingKeepsCopy(s, i, pc, x);
    } else if pc.Resumed? || pc.EnvelopeKnown? {
      CollectingKeepsCopy(s, i, pc, x);
    }
  }

  lemma EventKeepsInv(s: State, e: Event)
    requires Inv(s) && AllDropOn(s)
    ensures Inv(Apply(s, e)) && AllDropOn(Apply(s, e))
  {
    var t := Apply(s, e);
    assert CopyOk(s, e.i, s.At(e.i)) && DropsOn(s.At(e.i));
    if e.Step? {
      MoveKeepsOthers(s, e.i, s.At(e.i), e.x);
      MoveKeepsCopy(s, e.i, s.At(e.i), e.x);
    }
    forall j: nat ensures CopyOk(t, j, t.At(j)) && DropsOn(t.At(j)) {
      assert CopyOk(s, j, s.At(j)) && DropsOn(s.At(j));
    }
  }

  lemma {:induction false} RunKeepsInv(s: State, es: seq<Event>, k: nat)
    requires Inv(s) && AllDropOn(s) && k <= |es|
    ensures Inv(Run(s, es[..k])) && AllDropOn(Run(s, es[..k]))
    decreases k
  {
    if k > 0 {
      RunKeepsInv(s, es, k - 1);
      RunSnoc(s, es, k - 1);
      EventKeepsInv(Run(s, es[..k - 1]), es[k - 1]);
    }
  }

  // ---------------------------------------------------------------- when no stage goes back

  /** How far the request is on disk: nowhere before it was made, then its stage, and past every stage once it
      was removed or replaced. */
  function Level(s: State, id: nat): nat {
    if s.file.Some? && s.file.value.id == id then Rank(s.file.value)
    else if id in s.ids then 4
    else 0
  }

  /** The file still holds the request, and no further than the copy that is saved over it. */
  predicate Guarded(s: State, e: Event) {
    Saves(s, e).Some? ==>
      s.file.Some? && s.file.value.id == Saves(s, e).value.id && Rank(s.file.value) <= Rank(Saves(s, e).value)
  }

  ghost predicate NoneGoesBack(s: State, t: State) {
    forall id :: Level(s, id) <= Level(t, id)
  }

  lemma QuietStep(s: State, e: Event)
    requires Inv(s) && Saves(s, e).None?
    ensures NoneGoesBack(s, Apply(s, e))
  {
  }

  /** One step takes some request back, or brings a removed one back, exactly when it saves a copy over a file that
      is further on or that no longer holds the request. */
  lemma StepGoesBackUnlessGuarded(s: State, e: Event)
    requires Inv(s)
    ensures NoneGoesBack(s, Apply(s, e)) <==> Guarded(s, e)
  {
    if Saves(s, e).None? {
      QuietStep(s, e);
    } else {
      var (t, q) := (Apply(s, e), Saves(s, e).value);
      assert CopyOk(s, e.i, s.At(e.i));
      assert t.file == Some(q) && t.ids == s.ids + {q.id};
      if !Guarded(s, e) {
        assert Level(s, q.id) > Level(t, q.id);
      }
    }
  }

  ghost predicate NeverGoesBack(s: State, es: seq<Event>) {
    forall j, k :: 0 <= j <= k <= |es| ==> NoneGoesBack(Run(s, es[..j]), Run(s, es[..k]))
  }

  ghost predicate AllGuarded(s: State, es: seq<Event>) {
    forall k :: 0 <= k < |es| ==> Guarded(Run(s, es[..k]), es[k])
  }

  lemma {:induction false} GuardedGoesOn(s: State, es: seq<Event>, j: nat, k: nat)
    requires Inv(s) && AllDropOn(s) && AllGuarded(s, es) && j <= k <= |es|
    ensures NoneGoesBack(Run(s, es[..j]), Run(s, es[..k]))
    decreases k
  {
    if j < k {
      GuardedGoesOn(s, es, j, k - 1);
      RunKeepsInv(s, es, k - 1);
      RunSnoc(s, es, k - 1);
      StepGoesBackUnlessGuarded(Run(s, es[..k - 1]), es[k - 1]);
    }
  }

  /** Over a whole run of any number of commands, with kills, no stage goes back and no removed request returns if
      and only if every save of a copy finds the file holding that request, no further than the copy. The code
      does not check this. */
  lemma {:induction false} StagesKeepIffGuarded(s: State, es: seq<Event>)
    requires Initial(s)
    ensures NeverGoesBack(s, es) <==> AllGuarded(s, es)
  {
    if AllGuarded(s, es) {
      forall j, k | 0 <= j <= k <= |es| ensures NoneGoesBack(Run(s, es[..j]), Run(s, es[..k])) {
        GuardedGoesOn(s, es, j, k);
      }
    }
    if NeverGoesBack(s, es) {
      forall k | 0 <= k < |es| ensures Guarded(Run(s, es[..k]), es[k]) {
        RunKeepsInv(s, es, k);
        RunSnoc(s, es, k);
        assert NoneGoesBack(Run(s, es[..k]), Run(s, es[..k + 1]));
        StepGoesBackUnlessGuarded(Run(s, es[..k]), es[k]);
      }
    }
  }

  /** A save over what the command itself last read or wrote keeps the stage. */
  lemma OwnFileIsGuarded(s: State, e: Event)
    requires Inv(s) && (Saves(s, e).Some? ==> e.i in s.seen && s.seen[e.i] == s.file)
    ensures Guarded(s, e)
  {
    assert CopyOk(s, e.i, s.At(e.i));
  }

  // ---------------------------------------------------------------- one command at a time

  predicate AtRest(pc: Pc) {
    pc.Idle? || pc.Ended?
  }

  ghost predicate OnlyOne(s: State, i: nat) {
    forall j: nat :: j != i ==> AtRest(s.At(j))
  }

  /** Each command ends, or is killed, before the next one starts. */
  ghost predicate OneByOne(s: State, es: seq<Event>) {
    forall k :: 0 <= k < |es| ==> OnlyOne(Run(s, es[..k]), es[k].i)
  }

  /** What a command knows of the disk when nobody else is at work. */
  predicate AloneOk(s: State, i: nat, pc: Pc) {
    && (AtRest(pc) || (i in s.seen && s.seen[i] == s.file))
    && (pc.Creating? && Mine(s.file, pc.want) ==> !HoldsApproval(s.file.value))
    && (pc.GrantSaved? ==> OpensTo(pc.p, pc.cid) && s.grant == Some(pc.cid))
    && (pc.ProfileSaved? ==> OpensTo(pc.p, pc.cid) && s.grant == s.profile == Some(pc.cid))
    && (pc.Marked? ==> s.grant.Some? && OpensTo(pc.p, s.grant.value) && s.profile == s.grant)
  }

  predicate OpensTo(q: Request, cid: string) {
    q.relay.Some? && q.relay.value.opens == Success(cid)
  }

  ghost predicate AloneInv(s: State) {
    forall i: nat :: AloneOk(s, i, s.At(i))
  }

  lemma MoveKeepsAlone(s: State, i: nat, pc: Pc, x: Answer)
    requires AloneOk(s, i, pc) && DropsOn(pc)
    ensures AloneOk(Move(s, i, pc, x).0, i, Move(s, i, pc, x).1)
  {
  }

  lemma StepKeepsAlone(s: State, e: Event)
    requires AloneInv(s) && AllDropOn(s) && OnlyOne(s, e.i)
    ensures AloneInv(Apply(s, e))
  {
    assert AloneOk(s, e.i, s.At(e.i)) && DropsOn(s.At(e.i));
    if e.Step? {
      MoveKeepsAlone(s, e.i, s.At(e.i), e.x);
    }
    forall j: nat | j != e.i ensures AloneOk(Apply(s, e), j, Apply(s, e).At(j)) {
      assert AtRest(s.At(j));
    }
  }

  lemma {:induction false} AloneStays(s: State, es: seq<Event>, k: nat)
    requires Initial(s) && OneByOne(s, es) && k <= |es|
    ensures AloneInv(Run(s, es[..k]))
    decreases k
  {
    if k > 0 {
      AloneStays(s, es, k - 1);
      RunKeepsInv(s, es, k - 1);
      RunSnoc(s, es, k - 1);
      StepKeepsAlone(Run(s, es[..k - 1]), es[k - 1]);
    }
  }

  /** Commands that run one after the other, each killed anywhere or not, never take a request back. */
  lemma {:induction false} OneByOneNeverGoesBack(s: State, es: seq<Event>)
    requires Initial(s) && OneByOne(s, es)
    ensures NeverGoesBack(s, es)
  {
    forall k | 0 <= k < |es| ensures Guarded(Run(s, es[..k]), es[k]) {
      AloneStays(s, es, k);
      RunKeepsInv(s, es, k);
      var u := Run(s, es[..k]);
      assert AloneOk(u, es[k].i, u.At(es[k].i));
      OwnFileIsGuarded(u, es[k]);
    }
    StagesKeepIffGuarded(s, es);
  }

  /** The acknowledgements that were sent. */
  function Acks(log: seq<Effect>): seq<Ack> {
    if log == [] then []
    else Acks(log[..|log| - 1]) + (if log[|log| - 1].Sent? then [log[|log| - 1].ack] else [])
  }

  function WorldOf(s: State): World {
    World(s.file, s.grant, s.profile, Acks(s.log), s.ids)
  }

  lemma AcksSnoc(log: seq<Effect>, x: Effect)
    ensures Acks(log + [x]) == Acks(log) + if x.Sent? then [x.ack] else []
  {
    assert (log + [x])[..|log|] == log;
  }

  /** The log after a step: as it was, or one entry longer. */
  lemma LogGrows(s: State, i: nat, pc: Pc, x: Answer)
    ensures var t := Move(s, i, pc, x).0; t.log == s.log || (|t.log| == |s.log| + 1 && t.log == s.log + [t.log[|s.log|]])
    ensures var t := Move(s, i, pc, x).0; |t.log| == |s.log| + 1 ==> t.log[|s.log|].i == i && (t.log[|s.log|].Sent? ==> pc.Acking?)
  {
  }

  lemma AckMoves(s: State, i: nat, pc: Pc, x: Answer)
    requires pc.Acking? && CopyOk(s, i, pc) && AloneOk(s, i, pc)
    ensures Approval.Step(WorldOf(s), WorldOf(Move(s, i, pc, x).0))
  {
    if pc.p.found.Some? {
      AcksSnoc(s.log, Sent(i, Ack(pc.p.id, pc.p.found.value.ref, pc.p.ackId)));
    }
  }

  lemma SameAcks(s: State, i: nat, pc: Pc, x: Answer)
    requires !pc.Acking?
    ensures Acks(Move(s, i, pc, x).0.log) == Acks(s.log)
  {
    var t := Move(s, i, pc, x).0;
    LogGrows(s, i, pc, x);
    if t.log != s.log {
      AcksSnoc(s.log, t.log[|s.log|]);
    }
  }

  lemma QuietMoves(s: State, i: nat, pc: Pc, x: Answer, acks: seq<Ack>)
    requires !pc.Acking? && CopyOk(s, i, pc) && AloneOk(s, i, pc)
    ensures var t := Move(s, i, pc, x).0;
      Approval.Step(World(s.file, s.grant, s.profile, acks, s.ids), World(t.file, t.grant, t.profile, acks, t.ids))
  {
    if Saving(pc) {
      assert Move(s, i, pc, x).0.ids == s.ids && Advances(World(s.file, s.grant, s.profile, acks, s.ids), pc.p);
    }
  }

  /** Run one after the other, the commands make a run of worlds as module Approval describes them, so all that is
      proved there of stages, installs and acknowledgements holds. */
  lemma {:induction false} OneByOneIsRun(s: State, es: seq<Event>)
    requires Initial(s) && OneByOne(s, es)
    ensures IsRun(seq(|es| + 1, k requires 0 <= k <= |es| => WorldOf(Run(s, es[..k]))))
  {
    forall k | 0 <= k < |es| ensures Approval.Step(WorldOf(Run(s, es[..k])), WorldOf(Run(s, es[..k + 1]))) {
      AloneStays(s, es, k);
      RunKeepsInv(s, es, k);
      RunSnoc(s, es, k);
      var (u, e) := (Run(s, es[..k]), es[k]);
      assert CopyOk(u, e.i, u.At(e.i)) && AloneOk(u, e.i, u.At(e.i));
      if e.Step? && u.At(e.i).Acking? {
        AckMoves(u, e.i, u.At(e.i), e.x);
      } else if e.Step? {
        SameAcks(u, e.i, u.At(e.i), e.x);
        QuietMoves(u, e.i, u.At(e.i), e.x, Acks(u.log));
      }
    }
  }

  // ---------------------------------------------------------------- two commands at once

  /** One step, given by what it does. */
  lemma Goes(s: State, es: seq<Event>, i: nat, x: Answer, t: State)
    requires Apply(Run(s, es), Step(i, x)) == t
    ensures Run(s, es + [Step(i, x)]) == t
  {
    var all := es + [Step(i, x)];
    assert all[..|es|] == es && all[..|es| + 1] == all;
    RunSnoc(s, all, |es|);
  }

  /** Commands 1 and 2 load a request with a reference and fetch its result. */
  lemma BothFetch(s: State, p: Request, want: Wanted, relay: Relay) returns (es: seq<Event>)
    requires Initial(s) && s.file == Some(p) && StageOf(p) == Ref && p.issuer == want.issuer
    ensures |es| == 4
    ensures var q := p.(relay := Some(relay));
      var t := Run(s, es);
      && t.pcs == map[1 := EnvelopeKnown(q), 2 := EnvelopeKnown(q)] && t.file == Some(p) && t.ids == s.ids
      && |t.log| == 2
  {
    var x := Loads(want, true, 0);
    var a, b := Apply(s, Step(1, x)), Apply(Apply(s, Step(1, x)), Step(2, x));
    Goes(s, [], 1, x, a);
    Goes(s, [Step(1, x)], 2, x, b);
    var c := Apply(b, Step(1, Fetched(relay)));
    Goes(s, [Step(1, x)] + [Step(2, x)], 1, Fetched(relay), c);
    es := [Step(1, x)] + [Step(2, x)] + [Step(1, Fetched(relay))];
    var d := Apply(c, Step(2, Fetched(relay)));
    Goes(s, es, 2, Fetched(relay), d);
    es := es + [Step(2, Fetched(relay))];
  }

  /** Command 1 goes on alone: it saves the result, the grant and the profile, and marks the request. */
  lemma OneInstalls(s: State, es: seq<Event>, q: Request, cid: string) returns (longer: seq<Event>)
    requires Run(s, es).At(1) == EnvelopeKnown(q) && q.relay.Some? && q.relay.value.opens == Success(cid)
    ensures es <= longer && |longer| == |es| + 4
    ensures var (u, t) := (Run(s, es), Run(s, longer));
      t.At(1) == Marked(q.(committed := true)) && t.file == Some(q) && t.At(2) == u.At(2) && t.grant == t.profile == Some(cid)
  {
    var u := Run(s, es);
    var a := Apply(u, Step(1, Works));
    Goes(s, es, 1, Works, a);
    var b := Apply(a, Step(1, Works));
    Goes(s, es + [Step(1, Works)], 1, Works, b);
    longer := es + [Step(1, Works)] + [Step(1, Works)];
    var c := Apply(b, Step(1, Works));
    Goes(s, longer, 1, Works, c);
    longer := longer + [Step(1, Works)];
    Goes(s, longer, 1, Works, Apply(c, Step(1, Works)));
    longer := longer + [Step(1, Works)];
  }

  /** Two `init --wait` at once, from any saved request with a reference: the faster one installs and marks the
      request committed, and then the slower one saves its own copy, which is only collected. The stage on disk
      goes back, and the mark is lost. */
  lemma {:induction false} StageCanGoBack(s: State, p: Request, want: Wanted, relay: Relay) returns (es: seq<Event>, j: nat)
    requires Initial(s) && s.file == Some(p) && StageOf(p) == Ref && p.issuer == want.issuer && relay.opens.Success?
    ensures j < |es|
    ensures Run(s, es[..j]).file == Some(p.(relay := Some(relay), committed := true))
    ensures Run(s, es).file == Some(p.(relay := Some(relay)))
    ensures !NeverGoesBack(s, es)
  {
    var q := p.(relay := Some(relay));
    es := BothFetch(s, p, want, relay);
    es := OneInstalls(s, es, q, relay.opens.value);
    var u := Run(s, es);
    var v := Apply(u, Step(1, Works));
    Goes(s, es, 1, Works, v);
    es := es + [Step(1, Works)];
    j := |es|;
    Goes(s, es, 2, Works, Apply(v, Step(2, Works)));
    es := es + [Step(2, Works)];
    assert es[..j] == es[..|es| - 1] && es[..|es|] == es;
    assert Level(v, p.id) > Level(Run(s, es), p.id);
    assert !NoneGoesBack(Run(s, es[..j]), Run(s, es[..|es|]));
  }

  // ---------------------------------------------------------------- what holds in every interleaving

  /** Command `i` saved the grant, then the profile, then the committed record of this result. */
  predicate SavedAt(log: seq<Effect>, i: nat, q: Request, g: int, p: int, c: int) {
    && 0 <= g < p < c < |log| && q.committed && q.relay.Some? && q.relay.value.opens.Success?
    && log[g] == SavedGrant(i, q.relay.value.opens.value)
    && log[p] == SavedProfile(i, q.relay.value.opens.value)
    && log[c] == SavedRequest(i, q)
  }

  ghost predicate SavedBy(log: seq<Effect>, i: nat, q: Request) {
    exists g, p, c :: SavedAt(log, i, q, g, p, c)
  }

  ghost predicate SavedBySome(log: seq<Effect>, q: Request) {
    exists j: nat :: SavedBy(log, j, q)
  }

  /** Command `i` read the record when some command had done all that. */
  ghost predicate ReadSaved(log: seq<Effect>, i: nat, q: Request) {
    exists l :: 0 <= l < |log| && log[l] == Read(i, Some(q)) && SavedBySome(log[..l], q)
  }

  ghost predicate Grounded(log: seq<Effect>, i: nat, q: Request) {
    SavedBy(log, i, q) || ReadSaved(log, i, q)
  }

  /** An acknowledgement is for a committed record that its own command saved after grant and profile, or that it
      read as saved so. */
  ghost predicate AckOk(log: seq<Effect>, k: nat)
    requires k < |log| && log[k].Sent?
  {
    exists q: Request :: q.found.Some? && log[k].ack == Ack(q.id, q.found.value.ref, q.ackId) && Grounded(log[..k], log[k].i, q)
  }

  ghost predicate AcksOk(log: seq<Effect>) {
    forall k: nat :: k < |log| && log[k].Sent? ==> AckOk(log, k)
  }

  ghost predicate GrantIsSaved(log: seq<Effect>, i: nat, cid: string) {
    exists g :: 0 <= g < |log| && log[g] == SavedGrant(i, cid)
  }

  predicate BothAt(log: seq<Effect>, i: nat, cid: string, g: int, p: int) {
    0 <= g < p < |log| && log[g] == SavedGrant(i, cid) && log[p] == SavedProfile(i, cid)
  }

  ghost predicate BothAreSaved(log: seq<Effect>, i: nat, cid: string) {
    exists g, p :: BothAt(log, i, cid, g, p)
  }

  ghost predicate PcOk(log: seq<Effect>, i: nat, pc: Pc) {
    && (pc.GrantSaved? ==> OpensTo(pc.p, pc.cid) && GrantIsSaved(log, i, pc.cid))
    && (pc.ProfileSaved? ==> OpensTo(pc.p, pc.cid) && BothAreSaved(log, i, pc.cid))
    && (pc.Marked? ==> pc.p.committed && pc.p.relay.Some? && pc.p.relay.value.opens.Success? && BothAreSaved(log, i, pc.p.relay.value.opens.value))
    && (pc.Acking? || (pc.Resumed? && pc.p.committed) ==> Grounded(log, i, pc.p))
    && (pc.Settling? || pc.RefKnown? || pc.EnvelopeKnown? || pc.HasResult? ==> !pc.p.committed)
    && DropsOn(pc)
  }

  ghost predicate FileOk(s: State) {
    s.file.Some? && s.file.value.committed ==> SavedBySome(s.log, s.file.value)
  }

  ghost predicate LogInv(s: State) {
    AcksOk(s.log) && FileOk(s) && forall i: nat :: PcOk(s.log, i, s.At(i))
  }

  lemma SavedByGrows(log: seq<Effect>, x: Effect, i: nat, q: Request)
    requires SavedBy(log, i, q)
    ensures SavedBy(log + [x], i, q)
  {
    var g, p, c :| SavedAt(log, i, q, g, p, c);
    assert SavedAt(log + [x], i, q, g, p, c);
  }

  lemma SavedBySomeGrows(log: seq<Effect>, x: Effect, q: Request)
    requires SavedBySome(log, q)
    ensures SavedBySome(log + [x], q)
  {
    var j: nat :| SavedBy(log, j, q);
    SavedByGrows(log, x, j, q);
  }

  lemma GroundedGrows(log: seq<Effect>, x: Effect, i: nat, q: Request)
    requires Grounded(log, i, q)
    ensures Grounded(log + [x], i, q)
  {
    if SavedBy(log, i, q) {
      SavedByGrows(log, x, i, q);
    } else {
      var l :| 0 <= l < |log| && log[l] == Read(i, Some(q)) && SavedBySome(log[..l], q);
      assert (log + [x])[..l] == log[..l] && (log + [x])[l] == log[l];
    }
  }

  lemma PcOkGrows(log: seq<Effect>, x: Effect, i: nat, pc: Pc)
    requires PcOk(log, i, pc)
    ensures PcOk(log + [x], i, pc)
  {
    if pc.Acking? || (pc.Resumed? && pc.p.committed) {
      GroundedGrows(log, x, i, pc.p);
    } else if pc.GrantSaved? {
      var g :| 0 <= g < |log| && log[g] == SavedGrant(i, pc.cid);
      assert (log + [x])[g] == log[g];
    } else if pc.ProfileSaved? {
      var g, p :| BothAt(log, i, pc.cid, g, p);
      assert BothAt(log + [x], i, pc.cid, g, p);
    } else if pc.Marked? {
      var g, p :| BothAt(log, i, pc.p.relay.value.opens.value, g, p);
      assert BothAt(log + [x], i, pc.p.relay.value.opens.value, g, p);
    }
  }

  lemma AcksOkGrows(log: seq<Effect>, x: Effect)
    requires AcksOk(log)
    requires x.Sent? ==> exists q: Request :: q.found.Some? && x.ack == Ack(q.id, q.found.value.ref, q.ackId) && Grounded(log, x.i, q)
    ensures AcksOk(log + [x])
  {
    var all := log + [x];
    forall k: nat | k < |all| && all[k].Sent? ensures AckOk(all, k) {
      if k < |log| {
        assert AckOk(log, k) && all[..k] == log[..k] && all[k] == log[k];
      } else {
        assert all[..k] == log;
      }
    }
  }

  /** Saving the mark after grant and profile grounds the copy. */
  lemma MarkIsGrounded(log: seq<Effect>, i: nat, q: Request)
    requires q.committed && q.relay.Some? && q.relay.value.opens.Success? && BothAreSaved(log, i, q.relay.value.opens.value)
    ensures SavedBy(log + [SavedRequest(i, q)], i, q)
  {
    var g, p :| BothAt(log, i, q.relay.value.opens.value, g, p);
    assert SavedAt(log + [SavedRequest(i, q)], i, q, g, p, |log|);
  }

  lemma ReadIsGrounded(log: seq<Effect>, i: nat, q: Request)
    requires SavedBySome(log, q)
    ensures Grounded(log + [Read(i, Some(q))], i, q)
  {
    var all := log + [Read(i, Some(q))];
    assert all[..|log|] == log && all[|log|] == Read(i, Some(q));
  }

  lemma ProfileIsSaved(log: seq<Effect>, i: nat, cid: string)
    requires GrantIsSaved(log, i, cid)
    ensures BothAreSaved(log + [SavedProfile(i, cid)], i, cid)
  {
    var g :| 0 <= g < |log| && log[g] == SavedGrant(i, cid);
    assert BothAt(log + [SavedProfile(i, cid)], i, cid, g, |log|);
  }

  lemma BothGiveGrant(log: seq<Effect>, i: nat, cid: string)
    requires BothAreSaved(log, i, cid)
    ensures GrantIsSaved(log, i, cid)
  {
    var g, p :| BothAt(log, i, cid, g, p);
    assert log[g] == SavedGrant(i, cid);
  }

  /** Where the command that moved now stands: reading, collecting, and then installing. */
  lemma ReadKeepsPc(s: State, i: nat, pc: Pc, x: Answer)
    requires PcOk(s.log, i, pc) && FileOk(s)
    requires pc.Idle? || pc.Settling? || pc.RefKnown? || pc.Creating? || pc.Dropping? || pc.Ended?
    ensures PcOk(Move(s, i, pc, x).0.log, i, Move(s, i, pc, x).1)
  {
    if pc.Idle? && x.Loads? && s.file.Some? && s.file.value.committed {
      ReadIsGrounded(s.log, i, s.file.value);
    }
  }

  lemma CollectKeepsPc(s: State, i: nat, pc: Pc, x: Answer)
    requires PcOk(s.log, i, pc) && (pc.Resumed? || pc.EnvelopeKnown? || pc.HasResult? || pc.Acking?)
    ensures PcOk(Move(s, i, pc, x).0.log, i, Move(s, i, pc, x).1)
  {
    var (t, next) := Move(s, i, pc, x);
    assert next.GrantSaved? ==> t.log[|s.log|] == SavedGrant(i, next.cid);
  }

  lemma InstallKeepsPc(s: State, i: nat, pc: Pc, x: Answer)
    requires PcOk(s.log, i, pc) && (pc.GrantSaved? || pc.ProfileSaved? || pc.Marked?)
    ensures PcOk(Move(s, i, pc, x).0.log, i, Move(s, i, pc, x).1)
  {
    if pc.Marked? {
      MarkIsGrounded(s.log, i, pc.p);
    } else if pc.GrantSaved? {
      ProfileIsSaved(s.log, i, pc.cid);
    } else {
      BothGiveGrant(s.log, i, pc.cid);
      ProfileIsSaved(s.log, i, pc.cid);
    }
  }

  lemma MoveKeepsPc(s: State, i: nat, pc: Pc, x: Answer)
    requires PcOk(s.log, i, pc) && FileOk(s)
    ensures PcOk(Move(s, i, pc, x).0.log, i, Move(s, i, pc, x).1)
  {
    if pc.Resumed? || pc.EnvelopeKnown? || pc.HasResult? || pc.Acking? {
      CollectKeepsPc(s, i, pc, x);
    } else if pc.GrantSaved? || pc.ProfileSaved? || pc.Marked? {
      InstallKeepsPc(s, i, pc, x);
    } else {
      ReadKeepsPc(s, i, pc, x);
    }
  }

  /** The file holds a committed record only if it was saved so. */
  lemma MoveKeepsFile(s: State, i: nat, pc: Pc, x: Answer)
    requires PcOk(s.log, i, pc) && FileOk(s)
    ensures FileOk(Move(s, i, pc, x).0)
  {
    var t := Move(s, i, pc, x).0;
    LogGrows(s, i, pc, x);
    if pc.Marked? {
      MarkIsGrounded(s.log, i, pc.p);
    } else if s.file.Some? && s.file.value.committed && t.file == s.file && t.log != s.log {
      SavedBySomeGrows(s.log, t.log[|s.log|], s.file.value);
    }
  }

  lemma MoveKeepsAcks(s: State, i: nat, pc: Pc, x: Answer)
    requires PcOk(s.log, i, pc) && AcksOk(s.log)
    ensures AcksOk(Move(s, i, pc, x).0.log)
  {
    var t := Move(s, i, pc, x).0;
    LogGrows(s, i, pc, x);
    if t.log != s.log {
      AcksOkGrows(s.log, t.log[|s.log|]);
    }
  }

  lemma EventKeepsLogInv(s: State, e: Event)
    requires LogInv(s)
    ensures LogInv(Apply(s, e))
  {
    var t := Apply(s, e);
    assert PcOk(s.log, e.i, s.At(e.i));
    if e.Step? {
      MoveKeepsPc(s, e.i, s.At(e.i), e.x);
      MoveKeepsFile(s, e.i, s.At(e.i), e.x);
      MoveKeepsAcks(s, e.i, s.At(e.i), e.x);
      LogGrows(s, e.i, s.At(e.i), e.x);
    }
    forall j: nat | j != e.i ensures PcOk(t.log, j, t.At(j)) {
      assert PcOk(s.log, j, s.At(j));
      if t.log != s.log {
        PcOkGrows(s.log, t.log[|s.log|], j, s.At(j));
      }
    }
  }

  lemma {:induction false} RunKeepsLogInv(s: State, es: seq<Event>)
    requires LogInv(s)
    ensures LogInv(Run(s, es))
    decreases |es|
  {
    if es != [] {
      EventKeepsLogInv(s, es[0]);
      RunKeepsLogInv(Apply(s, es[0]), es[1..]);
    }
  }

  /** In every interleaving, with kills anywhere: an acknowledgement is for a committed record of which one command
      saved, in this order and before it, the grant, the profile and the record. That command is the sender itself,
      or the sender read the record after it. */
  lemma {:induction false} AckFollowsSaves(s: State, es: seq<Event>, k: nat) returns (q: Request, j: nat, g: int, p: int, c: int)
    requires Initial(s) && k < |Run(s, es).log| && Run(s, es).log[k].Sent?
    ensures var log := Run(s, es).log;
      && q.found.Some? && log[k].ack == Ack(q.id, q.found.value.ref, q.ackId)
      && SavedAt(log, j, q, g, p, c) && c < k
      && (j == log[k].i || exists l :: c < l < k && log[l] == Read(log[k].i, Some(q)))
  {
    RunKeepsLogInv(s, es);
    q, j, g, p, c := AckPoints(Run(s, es).log, k);
  }

  lemma {:induction false} AckPoints(log: seq<Effect>, k: nat) returns (q: Request, j: nat, g: int, p: int, c: int)
    requires k < |log| && log[k].Sent? && AckOk(log, k)
    ensures q.found.Some? && log[k].ack == Ack(q.id, q.found.value.ref, q.ackId) && SavedAt(log, j, q, g, p, c) && c < k
    ensures j == log[k].i || exists l :: c < l < k && log[l] == Read(log[k].i, Some(q))
  {
    q :| q.found.Some? && log[k].ack == Ack(q.id, q.found.value.ref, q.ackId) && Grounded(log[..k], log[k].i, q);
    if SavedBy(log[..k], log[k].i, q) {
      j := log[k].i;
      g, p, c :| SavedAt(log[..k], j, q, g, p, c);
      Within(log, k, j, q, g, p, c);
    } else {
      var l :| 0 <= l < k && log[..k][l] == Read(log[k].i, Some(q)) && SavedBySome(log[..k][..l], q);
      assert log[..k][..l] == log[..l] && log[l] == Read(log[k].i, Some(q));
      j :| SavedBy(log[..l], j, q);
      g, p, c :| SavedAt(log[..l], j, q, g, p, c);
      Within(log, l, j, q, g, p, c);
    }
  }

  lemma Within(log: seq<Effect>, n: nat, i: nat, q: Request, g: int, p: int, c: int)
    requires n <= |log| && SavedAt(log[..n], i, q, g, p, c)
    ensures SavedAt(log, i, q, g, p, c) && c < n
  {
  }
}
