/** One invitation: the claim, winner and answer protocol between any number of serving processes of the
    issuer and any number of joining processes, over the issuer's own space (winner and answer are
    create-only keys that only servers write) and the pairing relay, which everybody who has the invitation
    can read and overwrite. A process may stop for ever at any step. */
module Invitation {
  import opened Basics

  type Did = nat

  datatype Mode = SameOwner | Anyone | Named(recipient: Did)

  datatype Body = Body(id: nat, issuer: Did, owner: nat, space: nat, session: nat, mode: Mode)

  datatype Step = StepA | StepB | StepC

  datatype Artifact = Artifact(step: Step, courier: Did, owner: nat, space: nat, delegation: nat)

  /** A signed claim. A hash stands for what was hashed, so different bodies and claims have different hashes;
      `signer` is the key whose signature verifies. */
  datatype Claim = Claim(signer: Did, id: nat, invitationHash: Body, session: nat, artifact: Artifact)

  datatype Answer = Answer(signer: Did, id: nat, invitationHash: Body, session: nat, claimHash: Claim, artifact: Artifact)

  /** What a finished process has stored: the peer it paired with and the delegation it gave it. */
  datatype Paired = Paired(courier: Did, owner: nat, space: nat, session: nat, inbound: nat, outbound: nat)

  datatype ServerPc =
    | Looking
    | ReadingClaim
    | Reserving(claim: Claim)
    | Rereading
    | Serving(claim: Claim)
    | Delegating(claim: Claim)
    | Answering(claim: Claim, answer: Answer)
    | RereadingAnswer(claim: Claim)
    | Installing(claim: Claim, answer: Answer)
    | Publishing(claim: Claim, answer: Answer, peer: Paired)
    | Served(peer: Paired)
    | ServerRefused

  datatype JoinPc =
    | Signing(did: Did)
    | Claiming(did: Did, claim: Claim)
    | Comparing(did: Did, claim: Claim)
    | Waiting(did: Did, claim: Claim)
    | Joining(did: Did, claim: Claim, answer: Answer)
    | Active(did: Did, claim: Claim, peer: Paired)
    | JoinRefused

  /** The joiner's local file: its claim, and whether it joined. */
  datatype JoinFile = JoinFile(claim: Claim, joined: bool)

  datatype State = State(
    winner: Option<Claim>,
    answer: Option<Answer>,
    relayClaim: Option<Claim>,
    relayAnswer: Option<Answer>,
    published: set<Answer>,
    servers: map<nat, ServerPc>,
    joiners: map<nat, JoinPc>,
    files: map<Did, JoinFile>)
  {
    function Server(p: nat, pc: ServerPc): State {
      this.(servers := servers[p := pc])
    }

    function Joiner(j: nat, pc: JoinPc): State {
      this.(joiners := joiners[j := pc])
    }
  }

  /** `ok`: the invitation has not expired, the incoming delegation activates, and the store answers.
      `delegation` is the one a process makes, if the step makes one. */
  datatype Event =
    | Serve(p: nat)
    | ServerStep(p: nat, ok: bool, delegation: nat)
    | Join(j: nat, did: Did)
    | JoinStep(j: nat, ok: bool, choice: Choice)
    | TamperClaim(claim: Option<Claim>)
    | TamperAnswer(answer: Option<Answer>)

  /** The checks of a claim, when it is first read and again when it is the reserved winner. */
  predicate ClaimFits(b: Body, c: Claim) {
    && c.signer == c.artifact.courier && c.id == b.id && c.invitationHash == b && c.session == b.session
    && c.artifact.step == StepB && c.artifact.courier != b.issuer
    && (match b.mode
        case Named(r) => c.artifact.courier == r
        case SameOwner => c.artifact.owner == b.owner
        case Anyone => true)
  }

  predicate AnswerFits(b: Body, c: Claim, a: Answer) {
    a.signer == b.issuer && a.id == b.id && a.invitationHash == b && a.session == b.session && a.claimHash == c
  }

  /** The joiner also compares the issuer's artifact with the invitation. */
  predicate AnswerIsForJoiner(b: Body, c: Claim, a: Answer) {
    && AnswerFits(b, c, a)
    && a.artifact.step == StepC && a.artifact.courier == b.issuer && a.artifact.owner == b.owner && a.artifact.space == b.space
  }

  /** One step of a server that stands at `pc`: the stores after it, and where it stands. */
  function ServerMove(b: Body, s: State, pc: ServerPc, ok: bool, delegation: nat): (State, ServerPc) {
    if pc.Served? || pc.ServerRefused? then (s, pc)
    else if !ok then (s, ServerRefused)
    else match pc
      case Looking => (s, if s.winner.Some? then Serving(s.winner.value) else ReadingClaim)
      case ReadingClaim =>
        if s.relayClaim.None? then (s, Looking)
        else (s, if ClaimFits(b, s.relayClaim.value) then Reserving(s.relayClaim.value) else ServerRefused)
      case Reserving(c) => (if s.winner.None? then s.(winner := Some(c)) else s, Rereading)
      case Rereading => (s, if s.winner.Some? then Serving(s.winner.value) else ServerRefused)
      case Serving(c) =>
        if !ClaimFits(b, c) then (s, ServerRefused)
        else (s, if s.answer.Some? then Settle(b, c, s.answer.value) else Delegating(c))
      case Delegating(c) =>
        (s, Answering(c, Answer(b.issuer, b.id, b, b.session, c, Artifact(StepC, b.issuer, b.owner, b.space, delegation))))
      case Answering(c, a) => (if s.answer.None? then s.(answer := Some(a)) else s, RereadingAnswer(c))
      case RereadingAnswer(c) => (s, if s.answer.Some? then Settle(b, c, s.answer.value) else ServerRefused)
      case Installing(c, a) => (s, Publishing(c, a, IssuerSide(b, c, a)))
      case Publishing(_, a, peer) => (s.(relayAnswer := Some(a), published := s.published + {a}), Served(peer))
      case _ => (s, pc)
  }

  function IssuerSide(b: Body, c: Claim, a: Answer): Paired {
    Paired(c.artifact.courier, c.artifact.owner, c.artifact.space, b.session, c.artifact.delegation, a.artifact.delegation)
  }

  function JoinerSide(b: Body, c: Claim, a: Answer): Paired {
    Paired(a.artifact.courier, a.artifact.owner, a.artifact.space, b.session, a.artifact.delegation, c.artifact.delegation)
  }

  /** The stored answer is installed only when it answers the reserved winner. */
  function Settle(b: Body, c: Claim, a: Answer): ServerPc {
    if AnswerFits(b, c, a) then Installing(c, a) else ServerRefused
  }

  /** What a joiner's step chooses: its owner, its space and the delegation it makes. */
  datatype Choice = Choice(owner: nat, space: nat, delegation: nat)

  function JoinerMove(b: Body, s: State, pc: JoinPc, ok: bool, ch: Choice): (State, JoinPc) {
    if pc.Active? || pc.JoinRefused? then (s, pc)
    else if !ok then (s, JoinRefused)
    else match pc
      case Signing(d) =>
        var c := Claim(d, b.id, b, b.session, Artifact(StepB, d, ch.owner, ch.space, ch.delegation));
        (s.(files := s.files[d := JoinFile(c, false)]), Claiming(d, c))
      case Claiming(d, c) =>
        if s.relayClaim.None? then (s.(relayClaim := Some(c)), Waiting(d, c)) else (s, Comparing(d, c))
      case Comparing(d, c) => (s, if s.relayClaim == Some(c) then Waiting(d, c) else JoinRefused)
      case Waiting(d, c) =>
        if s.relayAnswer.None? then (s, pc)
        else (s, if AnswerIsForJoiner(b, c, s.relayAnswer.value) then Joining(d, c, s.relayAnswer.value) else JoinRefused)
      case Joining(d, c, a) => (s.(files := s.files[d := JoinFile(c, true)]), Active(d, c, JoinerSide(b, c, a)))
      case _ => (s, pc)
  }

  function Apply(b: Body, s: State, e: Event): State {
    match e
    case Serve(p) => if p in s.servers then s else s.Server(p, Looking)
    case ServerStep(p, ok, d) =>
      if p !in s.servers then s
      else
        var (t, pc) := ServerMove(b, s, s.servers[p], ok, d);
        t.Server(p, pc)
    case Join(j, did) =>
      if j in s.joiners || did == b.issuer || (b.mode.Named? && b.mode.recipient != did) then s
      else if did !in s.files then s.Joiner(j, Signing(did))
      else if s.files[did].joined then s.Joiner(j, JoinRefused)
      else s.Joiner(j, Claiming(did, s.files[did].claim))
    case JoinStep(j, ok, ch) =>
      if j !in s.joiners then s
      else
        var (t, pc) := JoinerMove(b, s, s.joiners[j], ok, ch);
        t.Joiner(j, pc)
    case TamperClaim(c) => s.(relayClaim := c)
    case TamperAnswer(a) =>
      // the issuer's signature cannot be made by others: an answer that verifies was published by a server
      if a.Some? && a.value.signer == b.issuer && a.value !in s.published then s else s.(relayAnswer := a)
  }

  function Run(b: Body, s: State, es: seq<Event>): State
    decreases |es|
  {
    if es == [] then s else Run(b, Apply(b, s, es[0]), es[1..])
  }

  function Initial(): State {
    State(None, None, None, None, {}, map[], map[], map[])
  }

  // ---------------------------------------------------------------- the invariant

  predicate ServerOk(b: Body, s: State, pc: ServerPc) {
    match pc
    case Reserving(c) => ClaimFits(b, c)
    case Serving(c) => s.winner == Some(c)
    case Delegating(c) => s.winner == Some(c)
    case Answering(c, a) => s.winner == Some(c) && AnswerFits(b, c, a)
    case RereadingAnswer(c) => s.winner == Some(c)
    case Installing(c, a) => s.winner == Some(c) && s.answer == Some(a)
    case Publishing(c, a, peer) => s.winner == Some(c) && s.answer == Some(a) && peer == IssuerSide(b, c, a)
    case Served(peer) => s.winner.Some? && s.answer.Some? && peer == IssuerSide(b, s.winner.value, s.answer.value)
    case _ => true
  }

  predicate JoinerOk(b: Body, s: State, pc: JoinPc) {
    match pc
    case Claiming(d, c) => c.signer == d == c.artifact.courier
    case Comparing(d, c) => c.signer == d == c.artifact.courier
    case Waiting(d, c) => c.signer == d == c.artifact.courier
    case Joining(d, c, a) => c.signer == d == c.artifact.courier && s.winner == Some(c) && s.answer == Some(a) && AnswerIsForJoiner(b, c, a)
    case Active(d, c, peer) =>
      && c.signer == d == c.artifact.courier && s.winner == Some(c)
      && s.answer.Some? && AnswerIsForJoiner(b, c, s.answer.value)
      && peer == JoinerSide(b, c, s.answer.value)
    case _ => true
  }

  predicate StoresOk(b: Body, s: State) {
    && (s.winner.Some? ==> ClaimFits(b, s.winner.value))
    && (s.answer.Some? ==> s.winner.Some? && AnswerFits(b, s.winner.value, s.answer.value))
    && (forall a :: a in s.published ==> s.answer == Some(a))
    && (s.relayAnswer.Some? && s.relayAnswer.value.signer == b.issuer ==> s.answer == s.relayAnswer)
    && (forall d :: d in s.files ==>
          && s.files[d].claim.signer == d == s.files[d].claim.artifact.courier
          && (s.files[d].joined ==> s.winner == Some(s.files[d].claim)))
  }

  predicate Inv(b: Body, s: State) {
    && StoresOk(b, s)
    && (forall p :: p in s.servers ==> ServerOk(b, s, s.servers[p]))
    && (forall j :: j in s.joiners ==> JoinerOk(b, s, s.joiners[j]))
  }

  /** What is reserved or answered stays: nothing known about any process is undone. */
  predicate Stays(s: State, t: State) {
    && (s.winner.Some? ==> t.winner == s.winner)
    && (s.answer.Some? ==> t.answer == s.answer)
  }

  lemma ServerMoveIsOk(b: Body, s: State, pc: ServerPc, ok: bool, d: nat)
    requires StoresOk(b, s) && ServerOk(b, s, pc)
    ensures var (t, next) := ServerMove(b, s, pc, ok, d);
      StoresOk(b, t) && ServerOk(b, t, next) && Stays(s, t) && t.servers == s.servers && t.joiners == s.joiners
  {
  }

  lemma JoinerMoveIsOk(b: Body, s: State, pc: JoinPc, ok: bool, ch: Choice)
    requires StoresOk(b, s) && JoinerOk(b, s, pc)
    ensures var (t, next) := JoinerMove(b, s, pc, ok, ch);
      StoresOk(b, t) && JoinerOk(b, t, next) && Stays(s, t) && t.servers == s.servers && t.joiners == s.joiners
  {
  }

  lemma ServerStaysOk(b: Body, s: State, t: State, pc: ServerPc)
    requires ServerOk(b, s, pc) && Stays(s, t)
    ensures ServerOk(b, t, pc)
  {
  }

  lemma JoinerStaysOk(b: Body, s: State, t: State, pc: JoinPc)
    requires JoinerOk(b, s, pc) && Stays(s, t)
    ensures JoinerOk(b, t, pc)
  {
  }

  lemma OthersStayOk(b: Body, s: State, t: State)
    requires Inv(b, s) && Stays(s, t)
    ensures forall p :: p in s.servers ==> ServerOk(b, t, s.servers[p])
    ensures forall j :: j in s.joiners ==> JoinerOk(b, t, s.joiners[j])
  {
    forall p | p in s.servers ensures ServerOk(b, t, s.servers[p]) {
      ServerStaysOk(b, s, t, s.servers[p]);
    }
    forall j | j in s.joiners ensures JoinerOk(b, t, s.joiners[j]) {
      JoinerStaysOk(b, s, t, s.joiners[j]);
    }
  }

  lemma ServerStepKeepsInv(b: Body, s: State, p: nat, ok: bool, d: nat)
    requires Inv(b, s) && p in s.servers
    ensures var (t, pc) := ServerMove(b, s, s.servers[p], ok, d); Inv(b, t.Server(p, pc)) && Stays(s, t.Server(p, pc))
  {
    var (t, pc) := ServerMove(b, s, s.servers[p], ok, d);
    var u := t.Server(p, pc);
    ServerMoveIsOk(b, s, s.servers[p], ok, d);
    ServerStaysOk(b, t, u, pc);
    OthersStayOk(b, s, u);
    assert StoresOk(b, u);
  }

  lemma JoinStepKeepsInv(b: Body, s: State, j: nat, ok: bool, ch: Choice)
    requires Inv(b, s) && j in s.joiners
    ensures var (t, pc) := JoinerMove(b, s, s.joiners[j], ok, ch); Inv(b, t.Joiner(j, pc)) && Stays(s, t.Joiner(j, pc))
  {
    var (t, pc) := JoinerMove(b, s, s.joiners[j], ok, ch);
    var u := t.Joiner(j, pc);
    JoinerMoveIsOk(b, s, s.joiners[j], ok, ch);
    JoinerStaysOk(b, t, u, pc);
    OthersStayOk(b, s, u);
    assert StoresOk(b, u);
  }

  lemma OtherEventKeepsInv(b: Body, s: State, e: Event)
    requires Inv(b, s) && !e.ServerStep? && !e.JoinStep?
    ensures Inv(b, Apply(b, s, e)) && Stays(s, Apply(b, s, e))
  {
    OthersStayOk(b, s, Apply(b, s, e));
    assert StoresOk(b, Apply(b, s, e));
  }

  lemma EventKeepsInv(b: Body, s: State, e: Event)
    requires Inv(b, s)
    ensures Inv(b, Apply(b, s, e)) && Stays(s, Apply(b, s, e))
  {
    if e.ServerStep? {
      if e.p in s.servers {
        ServerStepKeepsInv(b, s, e.p, e.ok, e.delegation);
      }
    } else if e.JoinStep? {
      if e.j in s.joiners {
        JoinStepKeepsInv(b, s, e.j, e.ok, e.choice);
      }
    } else {
      OtherEventKeepsInv(b, s, e);
    }
  }

  lemma {:induction false} RunKeepsInv(b: Body, s: State, es: seq<Event>)
    requires Inv(b, s)
    ensures Inv(b, Run(b, s, es)) && Stays(s, Run(b, s, es))
    decreases |es|
  {
    if es != [] {
      EventKeepsInv(b, s, es[0]);
      RunKeepsInv(b, Apply(b, s, es[0]), es[1..]);
    }
  }

  // ---------------------------------------------------------------- the results

  /** All servers that finish, in whatever run, installed the same peer with the same stored delegation, and
      that peer may use the invitation. */
  lemma ServersAgree(b: Body, es: seq<Event>, p: nat, q: nat)
    requires var t := Run(b, Initial(), es); p in t.servers && q in t.servers && t.servers[p].Served? && t.servers[q].Served?
    ensures var t := Run(b, Initial(), es);
      && t.servers[p].peer == t.servers[q].peer
      && (b.mode.Named? ==> t.servers[p].peer.courier == b.mode.recipient)
      && (b.mode.SameOwner? ==> t.servers[p].peer.owner == b.owner)
      && t.servers[p].peer.courier != b.issuer
  {
    RunKeepsInv(b, Initial(), es);
    var t := Run(b, Initial(), es);
    assert ServerOk(b, t, t.servers[p]) && ServerOk(b, t, t.servers[q]);
  }

  /** A joiner becomes active only if its claim is the reserved winner, so at most one agent ever joins. */
  lemma OneAgentJoins(b: Body, es: seq<Event>, i: nat, j: nat)
    requires var t := Run(b, Initial(), es); i in t.joiners && j in t.joiners && t.joiners[i].Active? && t.joiners[j].Active?
    ensures var t := Run(b, Initial(), es);
      t.winner == Some(t.joiners[i].claim) && t.joiners[i].did == t.joiners[j].did && t.joiners[i].peer == t.joiners[j].peer
  {
    RunKeepsInv(b, Initial(), es);
    var t := Run(b, Initial(), es);
    assert JoinerOk(b, t, t.joiners[i]) && JoinerOk(b, t, t.joiners[j]);
  }

  /** The same over restarts: two agents whose files say they joined are one agent. */
  lemma OneAgentHasJoined(b: Body, es: seq<Event>, d: Did, d2: Did)
    requires var t := Run(b, Initial(), es); d in t.files && d2 in t.files && t.files[d].joined && t.files[d2].joined
    ensures d == d2
  {
    RunKeepsInv(b, Initial(), es);
  }

  /** Both sides hold the same pairing: each one's inbound delegation is the one the other gave it, whatever
      was written on the relay. */
  lemma BothSidesAgree(b: Body, es: seq<Event>, p: nat, j: nat)
    requires var t := Run(b, Initial(), es); p in t.servers && j in t.joiners && t.servers[p].Served? && t.joiners[j].Active?
    ensures var t := Run(b, Initial(), es);
      && t.servers[p].peer.courier == t.joiners[j].did && t.joiners[j].peer.courier == b.issuer
      && t.servers[p].peer.inbound == t.joiners[j].peer.outbound && t.servers[p].peer.outbound == t.joiners[j].peer.inbound
      && t.servers[p].peer.session == t.joiners[j].peer.session
  {
    RunKeepsInv(b, Initial(), es);
    var t := Run(b, Initial(), es);
    assert ServerOk(b, t, t.servers[p]) && JoinerOk(b, t, t.joiners[j]);
  }

  /** A reservation is final: every later run keeps the winner and the stored answer. */
  lemma WinnerIsFinal(b: Body, es: seq<Event>, more: seq<Event>)
    requires Run(b, Initial(), es).winner.Some?
    ensures Run(b, Run(b, Initial(), es), more).winner == Run(b, Initial(), es).winner
    ensures Run(b, Initial(), es).answer.Some? ==> Run(b, Run(b, Initial(), es), more).answer == Run(b, Initial(), es).answer
  {
    RunKeepsInv(b, Initial(), es);
    RunKeepsInv(b, Run(b, Initial(), es), more);
  }

  // ---------------------------------------------------------------- it can be done

  ghost predicate Reaches(b: Body, t: State) {
    exists es: seq<Event> :: Run(b, Initial(), es) == t
  }

  lemma {:induction false} RunAppend(b: Body, s: State, es: seq<Event>, e: Event)
    ensures Run(b, s, es + [e]) == Apply(b, Run(b, s, es), e)
    decreases |es|
  {
    if es == [] {
      assert es + [e] == [e];
      assert Run(b, Apply(b, s, e), [e][1..]) == Apply(b, s, e);
    } else {
      assert (es + [e])[1..] == es[1..] + [e];
      RunAppend(b, Apply(b, s, es[0]), es[1..], e);
    }
  }

  lemma OneMore(b: Body, t: State, e: Event)
    requires Reaches(b, t)
    ensures Reaches(b, Apply(b, t, e))
  {
    var es: seq<Event> :| Run(b, Initial(), es) == t;
    RunAppend(b, Initial(), es, e);
  }

  lemma ServerGoes(b: Body, t: State, d: nat, after: State, pc: ServerPc)
    requires Reaches(b, t) && 0 in t.servers && ServerMove(b, t, t.servers[0], true, d) == (after, pc)
    ensures Reaches(b, after.Server(0, pc))
  {
    OneMore(b, t, ServerStep(0, true, d));
  }

  lemma JoinerGoes(b: Body, t: State, ch: Choice, after: State, pc: JoinPc)
    requires Reaches(b, t) && 0 in t.joiners && JoinerMove(b, t, t.joiners[0], true, ch) == (after, pc)
    ensures Reaches(b, after.Joiner(0, pc))
  {
    OneMore(b, t, JoinStep(0, true, ch));
  }

  lemma ClaimIsMade(b: Body, did: Did, ch: Choice)
    requires did != b.issuer && (b.mode.Named? ==> b.mode.recipient == did)
    ensures var c := Claim(did, b.id, b, b.session, Artifact(StepB, did, ch.owner, ch.space, ch.delegation));
      Reaches(b, Initial().(relayClaim := Some(c), files := map[did := JoinFile(c, false)], joiners := map[0 := Waiting(did, c)]))
  {
    var c := Claim(did, b.id, b, b.session, Artifact(StepB, did, ch.owner, ch.space, ch.delegation));
    assert Run(b, Initial(), []) == Initial();
    OneMore(b, Initial(), Join(0, did));
    var t := Initial().Joiner(0, Signing(did));
    var u := t.(files := map[did := JoinFile(c, false)]);
    JoinerGoes(b, t, ch, u, Claiming(did, c));
    var v := u.Joiner(0, Claiming(did, c));
    JoinerGoes(b, v, ch, v.(relayClaim := Some(c)), Waiting(did, c));
    assert v.(relayClaim := Some(c)).Joiner(0, Waiting(did, c)) ==
      Initial().(relayClaim := Some(c), files := map[did := JoinFile(c, false)], joiners := map[0 := Waiting(did, c)]);
  }

  /** `t` with server 0 alone, standing at `pc`. */
  function With(t: State, pc: ServerPc): State {
    t.(servers := map[0 := pc])
  }

  lemma ServerGoesOn(b: Body, t: State, pc: ServerPc, d: nat, after: State, next: ServerPc)
    requires Reaches(b, With(t, pc)) && ServerMove(b, With(t, pc), pc, true, d) == (With(after, pc), next)
    ensures Reaches(b, With(after, next))
  {
    ServerGoes(b, With(t, pc), d, With(after, pc), next);
    assert With(after, pc).Server(0, next) == With(after, next);
  }

  lemma ClaimIsRead(b: Body, t: State, c: Claim)
    requires Reaches(b, t) && t.servers == map[] && t.winner.None? && t.relayClaim == Some(c) && ClaimFits(b, c)
    ensures Reaches(b, With(t, Reserving(c)))
  {
    OneMore(b, t, Serve(0));
    assert t.Server(0, Looking) == With(t, Looking);
    ServerGoesOn(b, t, Looking, 0, t, ReadingClaim);
    ServerGoesOn(b, t, ReadingClaim, 0, t, Reserving(c));
  }

  lemma WinnerIsReserved(b: Body, t: State, c: Claim)
    requires Reaches(b, t) && t.servers == map[] && t.winner.None? && t.relayClaim == Some(c) && ClaimFits(b, c)
    ensures Reaches(b, With(t.(winner := Some(c)), Serving(c)))
  {
    ClaimIsRead(b, t, c);
    var u := t.(winner := Some(c));
    ServerGoesOn(b, t, Reserving(c), 0, u, Rereading);
    ServerGoesOn(b, u, Rereading, 0, u, Serving(c));
  }

  lemma AnswerIsStored(b: Body, t: State, c: Claim, a: Answer)
    requires Reaches(b, With(t, Serving(c))) && t.answer.None? && ClaimFits(b, c)
    requires a == Answer(b.issuer, b.id, b, b.session, c, Artifact(StepC, b.issuer, b.owner, b.space, a.artifact.delegation))
    ensures Reaches(b, With(t.(answer := Some(a)), RereadingAnswer(c)))
  {
    var d := a.artifact.delegation;
    ServerGoesOn(b, t, Serving(c), d, t, Delegating(c));
    ServerGoesOn(b, t, Delegating(c), d, t, Answering(c, a));
    ServerGoesOn(b, t, Answering(c, a), d, t.(answer := Some(a)), RereadingAnswer(c));
  }

  lemma AnswerIsPublished(b: Body, t: State, c: Claim, a: Answer)
    requires Reaches(b, With(t, RereadingAnswer(c))) && t.answer == Some(a) && AnswerFits(b, c, a)
    ensures Reaches(b, With(t.(relayAnswer := Some(a), published := t.published + {a}), Served(IssuerSide(b, c, a))))
  {
    var peer := IssuerSide(b, c, a);
    ServerGoesOn(b, t, RereadingAnswer(c), 0, t, Installing(c, a));
    ServerGoesOn(b, t, Installing(c, a), 0, t, Publishing(c, a, peer));
    ServerGoesOn(b, t, Publishing(c, a, peer), 0, t.(relayAnswer := Some(a), published := t.published + {a}), Served(peer));
  }

  /** An eligible agent and the issuer can finish: some run ends with the server done and the joiner active. */
  lemma PairingCanFinish(b: Body, did: Did, ch: Choice, d: nat)
    requires did != b.issuer && (b.mode.Named? ==> b.mode.recipient == did) && (b.mode.SameOwner? ==> ch.owner == b.owner)
    ensures exists t: State :: Reaches(b, t) && 0 in t.servers && 0 in t.joiners && t.servers[0].Served? && t.joiners[0].Active?
  {
    var c := Claim(did, b.id, b, b.session, Artifact(StepB, did, ch.owner, ch.space, ch.delegation));
    var a := Answer(b.issuer, b.id, b, b.session, c, Artifact(StepC, b.issuer, b.owner, b.space, d));
    ClaimIsMade(b, did, ch);
    var t0 := Initial().(relayClaim := Some(c), files := map[did := JoinFile(c, false)], joiners := map[0 := Waiting(did, c)]);
    WinnerIsReserved(b, t0, c);
    var t1 := t0.(winner := Some(c));
    AnswerIsStored(b, t1, c, a);
    var t2 := t1.(answer := Some(a));
    AnswerIsPublished(b, t2, c, a);
    var t3 := With(t2.(relayAnswer := Some(a), published := t2.published + {a}), Served(IssuerSide(b, c, a)));
    AnsweredJoins(b, t3, did, c, a, ch);
  }

  lemma AnsweredJoins(b: Body, t: State, did: Did, c: Claim, a: Answer, ch: Choice)
    requires Reaches(b, t) && 0 in t.joiners && t.joiners[0] == Waiting(did, c) && t.relayAnswer == Some(a) && AnswerIsForJoiner(b, c, a)
    requires 0 in t.servers && t.servers[0].Served?
    ensures exists u: State :: Reaches(b, u) && 0 in u.servers && 0 in u.joiners && u.servers[0].Served? && u.joiners[0].Active?
  {
    JoinerGoes(b, t, ch, t, Joining(did, c, a));
    var t1 := t.Joiner(0, Joining(did, c, a));
    var t2 := t1.(files := t1.files[did := JoinFile(c, true)]);
    JoinerGoes(b, t1, ch, t2, Active(did, c, JoinerSide(b, c, a)));
    assert t2.Joiner(0, Active(did, c, JoinerSide(b, c, a))).servers[0].Served?;
  }
}
