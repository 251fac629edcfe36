/** One approval, one action: the check of an owner's decision, the used-marker, and the broker that merges one
    pull request for it. Any number of callers interleave and may stop for ever at any step; requests can be
    overwritten by the agent, approvals only by the owner, and used-markers can be created or overwritten but
    never removed. */
module Broker {
  import opened Basics
  import opened BrokerCommand

  type Id = nat

  const DAY_MS := 86_400_000
  const FUTURE_SKEW_MS := 300_000

  /** A stored request. Its canonical target is read as module BrokerCommand reads it; a timestamp that does not
      parse is absent. `readable`: it can be hashed and hides no
      text; `wellFormed`: its fields have the one accepted shape, its texts are plain and its target canonical. */
  datatype Request = Request(
    id: Id, verb: Verb, target: Target, headSha: Option<string>, base: Option<string>,
    createdAt: Option<int>, expiresAt: Option<int>, readable: bool, wellFormed: bool)

  /** The lowercase digest of a request, or other text. Different requests have different digests. */
  datatype Hash = Sha256(of: Request) | OtherText(text: string)

  datatype Decision = Approved | Denied | OtherDecision

  datatype Approval = Approval(requestId: Id, requestHash: Hash, decision: Decision, noteOk: bool, decidedAt: Option<int>)

  datatype Code = ApprovalMismatch | ApprovalMissing | ApprovalExpired

  /** What a caller says it is about to do; absent parts are not compared. */
  datatype Intent = Intent(verb: Option<Verb>, target: Option<Target>, headSha: Option<string>, base: Option<string>)

  predicate Only<T(==)>(given: Option<T>, actual: Option<T>) {
    given.Some? ==> given == actual
  }

  /** The decision on `request` stands at `now`; a denial is verified too, and reported as such. */
  function VerifyApproval(id: Id, request: Option<Request>, approval: Option<Approval>, now: int, intent: Intent): Result<Decision, Code> {
    if request.None? || request.value.id != id then Failure(ApprovalMismatch)
    else if approval.None? then Failure(ApprovalMissing)
    else
      var (r, a) := (request.value, approval.value);
      if a.requestId != id || a.decision.OtherDecision? then Failure(ApprovalMismatch)
      else if !r.readable then Failure(ApprovalMismatch)
      else if a.requestHash != Sha256(r) then Failure(ApprovalMismatch)
      else if !a.noteOk || a.decidedAt.None? || r.createdAt.None? || r.expiresAt.None? then Failure(ApprovalMismatch)
      else if a.decidedAt.value < r.createdAt.value then Failure(ApprovalMismatch)
      else if a.decidedAt.value > now + FUTURE_SKEW_MS then Failure(ApprovalMismatch)
      else if a.decidedAt.value >= r.expiresAt.value then Failure(ApprovalExpired)
      else if now - a.decidedAt.value >= DAY_MS then Failure(ApprovalExpired)
      else if !r.wellFormed then Failure(ApprovalMismatch)
      else if !Only(intent.verb, Some(r.verb)) || !Only(intent.target, Some(r.target)) then Failure(ApprovalMismatch)
      else if !Only(intent.headSha, if r.verb == Merging then r.headSha else None) then Failure(ApprovalMismatch)
      else if !Only(intent.base, if r.verb == Merging then r.base else None) then Failure(ApprovalMismatch)
      else Success(a.decision)
  }

  /** The owner decided on exactly this request. */
  predicate DecidesOn(a: Approval, r: Request, d: Decision) {
    a.requestId == r.id && a.requestHash == Sha256(r) && a.decision == d && !d.OtherDecision?
  }

  /** A verified decision is the owner's on this very request, for what the caller named, made while the
      request was open and at most a day ago; with any later clock it is verified for less than a day and five
      minutes more, and then never again. */
  lemma VerifiedMeansDecided(id: Id, r: Option<Request>, a: Option<Approval>, now: int, later: int, intent: Intent)
    requires VerifyApproval(id, r, a, now, intent).Success?
    ensures r.Some? && a.Some? && r.value.id == id
    ensures DecidesOn(a.value, r.value, VerifyApproval(id, r, a, now, intent).value)
    ensures r.value.createdAt.Some? && r.value.expiresAt.Some? && a.value.decidedAt.Some?
    ensures r.value.createdAt.value <= a.value.decidedAt.value < r.value.expiresAt.value
    ensures now - DAY_MS < a.value.decidedAt.value <= now + FUTURE_SKEW_MS
    ensures Only(intent.verb, Some(r.value.verb)) && Only(intent.target, Some(r.value.target))
    ensures later >= now ==> (VerifyApproval(id, r, a, later, intent).Success? <==> later < a.value.decidedAt.value + DAY_MS)
    ensures later >= now + DAY_MS + FUTURE_SKEW_MS ==> VerifyApproval(id, r, a, later, intent) == Failure(ApprovalExpired)
  {
  }

  /** A request changed in any way after the decision is refused. */
  lemma ChangedRequestIsRefused(id: Id, r: Request, changed: Request, a: Approval, now: int, later: int, intent: Intent)
    requires VerifyApproval(id, Some(r), Some(a), now, intent).Success? && changed != r
    ensures VerifyApproval(id, Some(changed), Some(a), later, intent) == Failure(ApprovalMismatch)
  {
  }

  /** The broker has a template for merges of pull requests and for nothing else. */
  function TemplateFor(verb: Verb, target: Target): Option<PullRequest> {
    if verb == Merging && target.PullRequestTarget? then Some(target.pr) else None
  }

  // ---------------------------------------------------------------- callers

  datatype Pr = Pr(open: bool, draft: bool, head: string, base: string)

  /** What a caller is doing with request `id`: `Run` is the broker, `Consume` the command an agent runs before
      it acts itself. */
  datatype Task = Run(id: Id) | Consume(id: Id, intent: Intent)

  datatype Job = ToMerge(pr: PullRequest) | Command(pr: PullRequest, sha: string) | AgentActs

  /** A verified approval on its way to be used. */
  datatype Ticket = Ticket(id: Id, r: Request, a: Approval, job: Job)

  datatype Pc =
    | Start(task: Task)
    | HasRequest(task: Task, found: Option<Request>)
    | Verified(tk: Ticket)
    | Unused(tk: Ticket)
    | Pinned(tk: Ticket)
    | Passed(tk: Ticket)
    | Finished
    | Refused

  /** A merge command that was run: for which approved request, on which pull request, naming which head, and
      the pull request as it was when it was merged, if it was. */
  datatype Action = Action(id: Id, r: Request, a: Approval, pr: PullRequest, sha: string, merged: Option<Pr>)

  /** `decided` holds every approval the owner ever wrote, `passes` every consume step that was passed, `ran`
      the ids a merge command was run for. */
  datatype State = State(
    requests: map<Id, Request>,
    approvals: map<Id, Approval>,
    decided: set<Approval>,
    used: set<Id>,
    passes: multiset<Id>,
    prs: map<PullRequest, Pr>,
    actions: seq<Action>,
    ran: set<Id>,
    pcs: map<nat, Pc>)
  {
    function Goto(p: nat, pc: Pc): State {
      this.(pcs := pcs[p := pc])
    }
  }

  /** The answer to a read of the used-marker: the marker, an error with its status, or an odd body. A missing
      space also answers not-found. */
  datatype Reply = Marker | Error(notFound: bool, namesSpace: bool) | OddBody

  /** Replies a store may give that holds the marker, or does not. */
  predicate MayAnswer(reply: Reply, marked: bool) {
    match reply
    case Marker => marked
    case Error(notFound, namesSpace) => notFound && !namesSpace ==> !marked
    case OddBody => true
  }

  /** Whether the approval was used; none when that cannot be told. */
  function IsConsumed(reply: Reply): Option<bool> {
    match reply
    case Marker => Some(true)
    case Error(true, false) => Some(false)
    case _ => None
  }

  /** The read fails closed: "unused" is concluded only of an approval that has no marker. */
  lemma UnusedIsCertain(reply: Reply, marked: bool)
    requires MayAnswer(reply, marked)
    ensures IsConsumed(reply).Some? ==> IsConsumed(reply).value == marked
  {
  }

  /** `ok`: the store answers. The mark may be made although its answer is lost. */
  datatype Event =
    | Begin(p: nat, task: Task)
    | FetchRequest(p: nat, ok: bool)
    | Verify(p: nat, ok: bool, now: int)
    | CheckUsed(p: nat, reply: Reply)
    | View(p: nat, ok: bool)
    | Mark(p: nat, reaches: bool, answered: bool)
    | Merge(p: nat)
    | PutRequest(id: Id, request: Request)
    | Decide(approval: Approval)
    | ChangePr(pr: PullRequest, state: Pr)

  function IntentOf(task: Task): Intent {
    match task
    case Run(_) => Intent(None, None, None, None)
    case Consume(_, intent) => intent
  }

  /** Request, decision, window and fields are verified before anything else; a denial ends here. */
  function VerifyStep(t: Task, r: Option<Request>, a: Option<Approval>, now: int): Pc {
    if VerifyApproval(t.id, r, a, now, IntentOf(t)) != Success(Approved) then Refused
    else
      VerifiedMeansDecided(t.id, r, a, now, now, IntentOf(t));
      match t
      case Consume(id, _) => Verified(Ticket(id, r.value, a.value, AgentActs))
      case Run(id) =>
        var pr := TemplateFor(r.value.verb, r.value.target);
        if pr.None? then Refused else Verified(Ticket(id, r.value, a.value, ToMerge(pr.value)))
  }

  /** The read-only look at the pull request: open, not a draft, the approved head and base. */
  function ViewStep(tk: Ticket, ok: bool, prs: map<PullRequest, Pr>): Pc {
    match tk.job
    case ToMerge(pr) =>
      if ok && pr in prs && prs[pr].open && !prs[pr].draft && tk.r.headSha == Some(prs[pr].head) && tk.r.base == Some(prs[pr].base)
      then Pinned(tk.(job := Command(pr, prs[pr].head)))
      else Refused
    case _ => Pinned(tk)
  }

  /** The create-only mark: of racing callers exactly one passes. */
  function MarkStep(s: State, tk: Ticket, reaches: bool, answered: bool): (State, Pc) {
    if !reaches || tk.id in s.used then (s, Refused)
    else if !answered then (s.(used := s.used + {tk.id}), Refused)
    else (s.(used := s.used + {tk.id}, passes := s.passes + multiset{tk.id}), Passed(tk))
  }

  /** The fixed command; it merges only the head it names. */
  function MergeStep(s: State, tk: Ticket): State {
    match tk.job
    case Command(pr, sha) =>
      var merges := pr in s.prs && s.prs[pr].open && s.prs[pr].head == sha;
      var act := Action(tk.id, tk.r, tk.a, pr, sha, if merges then Some(s.prs[pr]) else None);
      s.(actions := s.actions + [act], ran := s.ran + {tk.id},
         prs := if merges then s.prs[pr := s.prs[pr].(open := false)] else s.prs)
    case _ => s
  }

  /** One step of a caller that stands at `pc`: the rest of the state after it, and where it stands. */
  function Move(s: State, pc: Pc, e: Event): (State, Pc) {
    match (pc, e)
    case (Start(t), FetchRequest(_, ok)) => (s, if ok then HasRequest(t, Get(s.requests, t.id)) else Refused)
    case (HasRequest(t, r), Verify(_, ok, now)) => (s, if ok then VerifyStep(t, r, Get(s.approvals, t.id), now) else Refused)
    case (Verified(tk), CheckUsed(_, reply)) =>
      (s, if !MayAnswer(reply, tk.id in s.used) then pc else if IsConsumed(reply) == Some(false) then Unused(tk) else Refused)
    case (Unused(tk), View(_, ok)) => (s, ViewStep(tk, ok, s.prs))
    case (Pinned(tk), Mark(_, reaches, answered)) => MarkStep(s, tk, reaches, answered)
    case (Passed(tk), Merge(_)) => (MergeStep(s, tk), Finished)
    case _ => (s, pc)
  }

  function Next(s: State, p: nat, e: Event): State
    requires p in s.pcs
  {
    var (t, pc) := Move(s, s.pcs[p], e);
    t.Goto(p, pc)
  }

  function Apply(s: State, e: Event): State {
    if e.PutRequest? then s.(requests := s.requests[e.id := e.request])
    else if e.Decide? then s.(approvals := s.approvals[e.approval.requestId := e.approval], decided := s.decided + {e.approval})
    else if e.ChangePr? then s.(prs := s.prs[e.pr := e.state])
    else if e.Begin? then (if e.p in s.pcs then s else s.Goto(e.p, Start(e.task)))
    else if e.p in s.pcs then Next(s, e.p, e)
    else s
  }

  function RunAll(s: State, es: seq<Event>): State
    decreases |es|
  {
    if es == [] then s else RunAll(Apply(s, es[0]), es[1..])
  }

  predicate Initial(s: State) {
    s.approvals == map[] && s.decided == {} && s.passes == multiset{} && s.actions == [] && s.ran == {} && s.pcs == map[]
  }

  // ---------------------------------------------------------------- the invariant

  /** The owner approved this request, and it asks for this merge. */
  predicate ApprovedByOwner(s: State, id: Id, r: Request, a: Approval) {
    a in s.decided && r.id == id && DecidesOn(a, r, Approved)
  }

  predicate JobFits(tk: Ticket) {
    match tk.job
    case ToMerge(pr) => TemplateFor(tk.r.verb, tk.r.target) == Some(pr)
    case Command(pr, sha) => TemplateFor(tk.r.verb, tk.r.target) == Some(pr) && tk.r.headSha == Some(sha)
    case AgentActs => true
  }

  predicate TicketOk(s: State, tk: Ticket) {
    ApprovedByOwner(s, tk.id, tk.r, tk.a) && JobFits(tk)
  }

  predicate CallerOk(s: State, pc: Pc) {
    && (pc.Verified? || pc.Unused? || pc.Pinned? || pc.Passed? ==> TicketOk(s, pc.tk))
    && (pc.Passed? ==> pc.tk.id in s.passes && pc.tk.id !in s.ran)
  }

  predicate ActionOk(s: State, x: Action) {
    && ApprovedByOwner(s, x.id, x.r, x.a) && x.id in s.ran
    && TemplateFor(x.r.verb, x.r.target) == Some(x.pr) && x.r.headSha == Some(x.sha)
    && (x.merged.Some? ==> x.merged.value.head == x.sha)
  }

  ghost predicate CallersOk(s: State) {
    && (forall id :: id in s.approvals ==> s.approvals[id] in s.decided)
    && (forall p :: p in s.pcs ==> CallerOk(s, s.pcs[p]))
    && (forall p, q :: p in s.pcs && q in s.pcs && s.pcs[p].Passed? && s.pcs[q].Passed? && s.pcs[p].tk.id == s.pcs[q].tk.id ==> p == q)
  }

  ghost predicate ActionsOk(s: State) {
    && (forall i :: 0 <= i < |s.actions| ==> ActionOk(s, s.actions[i]))
    && (forall i, j :: 0 <= i < j < |s.actions| ==> s.actions[i].id != s.actions[j].id)
  }

  ghost predicate MarksOk(s: State) {
    && (forall id :: s.passes[id] <= 1 && (id in s.passes ==> id in s.used))
    && (forall id :: id in s.ran ==> id in s.passes)
  }

  ghost predicate Inv(s: State) {
    CallersOk(s) && ActionsOk(s) && MarksOk(s)
  }

  /** Steps that neither mark nor merge change nothing that was used or run. */
  lemma QuietStepKeepsInv(s: State, t: State, p: nat, pc: Pc)
    requires Inv(s)
    requires t == s.(requests := t.requests, approvals := t.approvals, decided := t.decided, prs := t.prs, pcs := t.pcs)
    requires t.pcs == s.pcs || t.pcs == s.pcs[p := pc]
    requires s.decided <= t.decided && forall id :: id in t.approvals ==> t.approvals[id] in t.decided
    requires !pc.Passed? && CallerOk(t, pc)
    ensures Inv(t)
  {
    forall q | q in t.pcs ensures CallerOk(t, t.pcs[q]) {
      if q in s.pcs {
        assert CallerOk(s, s.pcs[q]);
      }
    }
    forall i | 0 <= i < |t.actions| ensures ActionOk(t, t.actions[i]) {
      assert ActionOk(s, s.actions[i]);
    }
  }

  lemma VerifyStepIsOk(s: State, t: Task, r: Option<Request>, now: int)
    requires Inv(s)
    ensures CallerOk(s, VerifyStep(t, r, Get(s.approvals, t.id), now)) && !VerifyStep(t, r, Get(s.approvals, t.id), now).Passed?
  {
    var a := Get(s.approvals, t.id);
    if VerifyApproval(t.id, r, a, now, IntentOf(t)) == Success(Approved) {
      VerifiedMeansDecided(t.id, r, a, now, now, IntentOf(t));
    }
  }

  lemma MarkKeepsCallers(s: State, p: nat, tk: Ticket, reaches: bool, answered: bool)
    requires Inv(s) && p in s.pcs && s.pcs[p] == Pinned(tk)
    ensures var (t, pc) := MarkStep(s, tk, reaches, answered); CallersOk(t.Goto(p, pc))
  {
    var (m, pc) := MarkStep(s, tk, reaches, answered);
    var t := m.Goto(p, pc);
    assert CallerOk(s, s.pcs[p]);
    forall q | q in t.pcs ensures CallerOk(t, t.pcs[q]) {
      assert CallerOk(s, s.pcs[q]);
    }
    forall a, b | a in t.pcs && b in t.pcs && t.pcs[a].Passed? && t.pcs[b].Passed? && t.pcs[a].tk.id == t.pcs[b].tk.id
      ensures a == b
    {
      assert CallerOk(s, s.pcs[a]) && CallerOk(s, s.pcs[b]);
    }
  }

  lemma MarkKeepsInv(s: State, p: nat, tk: Ticket, reaches: bool, answered: bool)
    requires Inv(s) && p in s.pcs && s.pcs[p] == Pinned(tk)
    ensures var (t, pc) := MarkStep(s, tk, reaches, answered); Inv(t.Goto(p, pc))
  {
    var (m, pc) := MarkStep(s, tk, reaches, answered);
    MarkKeepsCallers(s, p, tk, reaches, answered);
    SameActions(s, m.Goto(p, pc));
  }

  lemma FinishedKeepsCallers(s: State, t: State, p: nat, tk: Ticket)
    requires Inv(s) && p in s.pcs && s.pcs[p] == Passed(tk)
    requires t == s.(prs := t.prs, actions := t.actions, ran := t.ran, pcs := s.pcs[p := Finished])
    requires s.ran <= t.ran <= s.ran + {tk.id}
    ensures CallersOk(t)
  {
    forall q | q in t.pcs ensures CallerOk(t, t.pcs[q]) {
      assert CallerOk(s, s.pcs[q]);
    }
  }

  lemma OneMoreAction(s: State, t: State, x: Action)
    requires ActionsOk(s) && x.id !in s.ran && s.decided == t.decided && t.ran == s.ran + {x.id}
    requires t.actions == s.actions + [x] && ActionOk(t, x)
    ensures ActionsOk(t)
  {
    forall i | 0 <= i < |s.actions| ensures ActionOk(t, t.actions[i]) && t.actions[i].id != x.id {
      assert t.actions[i] == s.actions[i] && ActionOk(s, s.actions[i]);
    }
    assert forall i, j :: 0 <= i < j < |s.actions| ==> t.actions[i] == s.actions[i] && t.actions[j] == s.actions[j];
  }

  lemma SameActions(s: State, t: State)
    requires ActionsOk(s) && s.decided == t.decided && t.ran == s.ran && t.actions == s.actions
    ensures ActionsOk(t)
  {
    forall i | 0 <= i < |t.actions| ensures ActionOk(t, t.actions[i]) {
      assert ActionOk(s, s.actions[i]);
    }
  }

  lemma MergeKeepsInv(s: State, p: nat, tk: Ticket)
    requires Inv(s) && p in s.pcs && s.pcs[p] == Passed(tk)
    ensures Inv(MergeStep(s, tk).Goto(p, Finished))
  {
    assert CallerOk(s, s.pcs[p]);
    var t := MergeStep(s, tk).Goto(p, Finished);
    FinishedKeepsCallers(s, t, p, tk);
    if tk.job.Command? {
      OneMoreAction(s, t, t.actions[|s.actions|]);
    } else {
      SameActions(s, t);
    }
  }

  lemma QuietMove(s: State, pc: Pc, e: Event)
    requires Inv(s) && CallerOk(s, pc) && !(pc.Pinned? && e.Mark?) && !(pc.Passed? && e.Merge?)
    ensures var (t, next) := Move(s, pc, e); t == s && (next == pc || (!next.Passed? && CallerOk(s, next)))
  {
    if pc.HasRequest? && e.Verify? {
      VerifyStepIsOk(s, pc.task, pc.found, e.now);
    }
  }

  lemma NextKeepsInv(s: State, p: nat, e: Event)
    requires Inv(s) && p in s.pcs
    ensures Inv(Next(s, p, e))
  {
    var pc := s.pcs[p];
    assert CallerOk(s, pc);
    if pc.Pinned? && e.Mark? {
      MarkKeepsInv(s, p, pc.tk, e.reaches, e.answered);
    } else if pc.Passed? && e.Merge? {
      MergeKeepsInv(s, p, pc.tk);
    } else {
      QuietMove(s, pc, e);
      GotoKeepsInv(s, p, Move(s, pc, e).1);
    }
  }

  lemma GotoKeepsInv(s: State, p: nat, next: Pc)
    requires Inv(s) && p in s.pcs && (next == s.pcs[p] || (!next.Passed? && CallerOk(s, next)))
    ensures Inv(s.Goto(p, next))
  {
    if next == s.pcs[p] {
      assert s.Goto(p, next).pcs == s.pcs;
    } else {
      QuietStepKeepsInv(s, s.Goto(p, next), p, next);
    }
  }

  lemma EventKeepsInv(s: State, e: Event)
    requires Inv(s)
    ensures Inv(Apply(s, e))
  {
    if e.PutRequest? || e.Decide? || e.ChangePr? {
      QuietStepKeepsInv(s, Apply(s, e), 0, Refused);
    } else if e.Begin? {
      if e.p !in s.pcs {
        QuietStepKeepsInv(s, Apply(s, e), e.p, Start(e.task));
      }
    } else if e.p in s.pcs {
      NextKeepsInv(s, e.p, e);
    }
  }

  lemma {:induction false} RunKeepsInv(s: State, es: seq<Event>)
    requires Inv(s)
    ensures Inv(RunAll(s, es))
    decreases |es|
  {
    if es != [] {
      EventKeepsInv(s, es[0]);
      RunKeepsInv(Apply(s, es[0]), es[1..]);
    }
  }

  // ---------------------------------------------------------------- the results

  /** One approval, one action: over any interleaving at most one caller passes the consume step for a
      request id, the broker runs at most one merge command for it, and only after passing. */
  lemma OneApprovalOneAction(s: State, es: seq<Event>)
    requires Initial(s)
    ensures var t := RunAll(s, es);
      && (forall id :: t.passes[id] <= 1)
      && (forall i, j :: 0 <= i < j < |t.actions| ==> t.actions[i].id != t.actions[j].id)
      && (forall i :: 0 <= i < |t.actions| ==> t.actions[i].id in t.passes)
  {
    RunKeepsInv(s, es);
    var t := RunAll(s, es);
    forall i | 0 <= i < |t.actions| ensures t.actions[i].id in t.passes {
      assert ActionOk(t, t.actions[i]);
    }
  }

  /** Only what was approved: every merge command is for the repository, number and head commit of a request
      whose hash the owner approved, and if it merges, it merges that head. */
  lemma OnlyTheApprovedMerge(s: State, es: seq<Event>, i: nat)
    requires Initial(s) && i < |RunAll(s, es).actions|
    ensures var t := RunAll(s, es);
      var x := t.actions[i];
      && x.a in t.decided && DecidesOn(x.a, x.r, Approved) && x.r.id == x.id && x.r.verb == Merging
      && x.r.target == PullRequestTarget(x.pr) && x.r.headSha == Some(x.sha)
      && (x.merged.Some? ==> x.merged.value.head == x.sha)
  {
    RunKeepsInv(s, es);
    assert ActionOk(RunAll(s, es), RunAll(s, es).actions[i]);
  }

  // ---------------------------------------------------------------- the base branch

  /** This caller may still merge: it passed, or it holds its command and the approval is not used yet. */
  predicate CanMerge(s: State, pc: Pc) {
    (pc.Passed? || (pc.Pinned? && pc.tk.id !in s.used)) && pc.tk.job.Command?
  }

  /** Some caller compared the base of this pull request and may still merge it. */
  predicate Awaited(s: State, pr: PullRequest) {
    exists p :: p in s.pcs && CanMerge(s, s.pcs[p]) && s.pcs[p].tk.job.pr == pr
  }

  /** The step gives no pull request another base while a caller is between its view and its merge of it. */
  predicate KeepsAwaited(s: State, e: Event) {
    e.ChangePr? && e.pr in s.prs && Awaited(s, e.pr) ==> e.state.base == s.prs[e.pr].base
  }

  predicate AwaitedStay(s: State, es: seq<Event>)
    decreases |es|
  {
    es == [] || (KeepsAwaited(s, es[0]) && AwaitedStay(Apply(s, es[0]), es[1..]))
  }

  predicate BaseOk(s: State, pc: Pc) {
    CanMerge(s, pc) ==> pc.tk.job.pr in s.prs && pc.tk.r.base == Some(s.prs[pc.tk.job.pr].base)
  }

  /** Before the view there is no command yet. */
  predicate Unpinned(pc: Pc) {
    pc.Verified? || pc.Unused? ==> !pc.tk.job.Command?
  }

  predicate MergedOnBase(x: Action) {
    x.merged.Some? ==> x.r.base == Some(x.merged.value.base)
  }

  ghost predicate AllUnpinned(s: State) {
    forall p :: p in s.pcs ==> Unpinned(s.pcs[p])
  }

  ghost predicate AllOnBase(s: State) {
    forall i :: 0 <= i < |s.actions| ==> MergedOnBase(s.actions[i])
  }

  ghost predicate BaseInv(s: State) {
    AllOnBase(s) && forall p :: p in s.pcs ==> BaseOk(s, s.pcs[p])
  }

  lemma MoveKeepsUnpinned(s: State, pc: Pc, e: Event)
    requires Unpinned(pc)
    ensures Unpinned(Move(s, pc, e).1) && Move(s, pc, e).0.pcs == s.pcs
  {
  }

  lemma EventKeepsUnpinned(s: State, e: Event)
    requires AllUnpinned(s)
    ensures AllUnpinned(Apply(s, e))
  {
    if !e.PutRequest? && !e.Decide? && !e.ChangePr? && !e.Begin? && e.p in s.pcs {
      MoveKeepsUnpinned(s, s.pcs[e.p], e);
    }
  }

  lemma MoveKeepsBases(s: State, pc: Pc, e: Event)
    ensures var t := Move(s, pc, e).0; t.pcs == s.pcs && s.used <= t.used
    ensures forall pr :: pr in s.prs ==> pr in Move(s, pc, e).0.prs && Move(s, pc, e).0.prs[pr].base == s.prs[pr].base
  {
  }

  /** Where the caller that moved now stands. */
  lemma MoveIsPinnedOnBase(s: State, pc: Pc, e: Event)
    requires BaseOk(s, pc) && Unpinned(pc)
    ensures BaseOk(Move(s, pc, e).0, Move(s, pc, e).1)
  {
  }

  lemma MoveMergesOnBase(s: State, pc: Pc, e: Event)
    requires AllOnBase(s) && BaseOk(s, pc)
    ensures AllOnBase(Move(s, pc, e).0)
  {
    var t := Move(s, pc, e).0;
    forall i | 0 <= i < |t.actions| ensures MergedOnBase(t.actions[i]) {
      if i < |s.actions| {
        assert t.actions[i] == s.actions[i] && MergedOnBase(s.actions[i]);
      }
    }
  }

  lemma ChangeKeepsBaseInv(s: State, e: Event)
    requires BaseInv(s) && e.ChangePr? && KeepsAwaited(s, e)
    ensures BaseInv(Apply(s, e))
  {
    var t := Apply(s, e);
    forall q | q in t.pcs ensures BaseOk(t, t.pcs[q]) {
      assert BaseOk(s, s.pcs[q]);
      assert CanMerge(s, s.pcs[q]) && s.pcs[q].tk.job.pr == e.pr ==> Awaited(s, e.pr);
    }
  }

  lemma EventKeepsBaseInv(s: State, e: Event)
    requires BaseInv(s) && AllUnpinned(s) && KeepsAwaited(s, e)
    ensures BaseInv(Apply(s, e))
  {
    var t := Apply(s, e);
    if e.ChangePr? {
      ChangeKeepsBaseInv(s, e);
    } else if e.PutRequest? || e.Decide? || e.Begin? {
      forall q | q in t.pcs ensures BaseOk(t, t.pcs[q]) {
        assert q in s.pcs ==> BaseOk(s, s.pcs[q]);
      }
    } else if e.p in s.pcs {
      assert BaseOk(s, s.pcs[e.p]) && Unpinned(s.pcs[e.p]);
      MoveKeepsBases(s, s.pcs[e.p], e);
      MoveIsPinnedOnBase(s, s.pcs[e.p], e);
      MoveMergesOnBase(s, s.pcs[e.p], e);
      forall q | q in t.pcs && q != e.p ensures BaseOk(t, t.pcs[q]) {
        assert BaseOk(s, s.pcs[q]);
      }
    }
  }

  lemma {:induction false} RunKeepsBaseInv(s: State, es: seq<Event>)
    requires BaseInv(s) && AllUnpinned(s) && AwaitedStay(s, es)
    ensures BaseInv(RunAll(s, es))
    decreases |es|
  {
    if es != [] {
      EventKeepsUnpinned(s, es[0]);
      EventKeepsBaseInv(s, es[0]);
      RunKeepsBaseInv(Apply(s, es[0]), es[1..]);
    }
  }

  /** The base is compared by the view only, and the merge command does not name it: what is merged has the
      approved base provided no pull request gets another base between a caller's view and its merge. Any
      other change of a base, before the view or of another pull request, is harmless. */
  lemma ApprovedBaseIsMerged(s: State, es: seq<Event>, i: nat)
    requires Initial(s) && AwaitedStay(s, es) && i < |RunAll(s, es).actions| && RunAll(s, es).actions[i].merged.Some?
    ensures var x := RunAll(s, es).actions[i]; x.r.base == Some(x.merged.value.base)
  {
    RunKeepsBaseInv(s, es);
    assert MergedOnBase(RunAll(s, es).actions[i]);
  }

  // ---------------------------------------------------------------- and the condition is exact

  /** From `s` on, every pull request keeps the base it has. */
  predicate BasesRest(s: State, es: seq<Event>)
    decreases |es|
  {
    es == [] || ((es[0].ChangePr? && es[0].pr in s.prs ==> es[0].state.base == s.prs[es[0].pr].base) && BasesRest(Apply(s, es[0]), es[1..]))
  }

  /** Nothing was merged into a base that was not approved, and nothing can be unless a base changes again. */
  ghost predicate SafeFrom(s: State) {
    forall es: seq<Event> :: BasesRest(s, es) ==> AllOnBase(RunAll(s, es))
  }

  lemma {:induction false} RestIsStay(s: State, es: seq<Event>)
    requires BasesRest(s, es)
    ensures AwaitedStay(s, es)
    decreases |es|
  {
    if es != [] {
      RestIsStay(Apply(s, es[0]), es[1..]);
    }
  }

  /** Some base this caller did not compare, under which the pull request can stand without a retarget. */
  function WrongBase(s: State, tk: Ticket): (b: string)
    requires tk.job.Command? && !(tk.job.pr in s.prs && tk.r.base == Some(s.prs[tk.job.pr].base))
    ensures tk.r.base != Some(b) && (tk.job.pr in s.prs ==> b == s.prs[tk.job.pr].base)
  {
    if tk.job.pr in s.prs then s.prs[tk.job.pr].base
    else if tk.r.base.Some? then
      assert |tk.r.base.value + "x"| > |tk.r.base.value|;
      tk.r.base.value + "x"
    else ""
  }

  lemma PassedMergesAside(s: State, p: nat)
    requires p in s.pcs && s.pcs[p].Passed? && s.pcs[p].tk.job.Command?
    requires var tk := s.pcs[p].tk;
      tk.job.pr in s.prs && s.prs[tk.job.pr].open && s.prs[tk.job.pr].head == tk.job.sha && tk.r.base != Some(s.prs[tk.job.pr].base)
    ensures BasesRest(s, [Merge(p)]) && !AllOnBase(RunAll(s, [Merge(p)]))
  {
    var t := Apply(s, Merge(p));
    assert RunAll(t, [Merge(p)][1..]) == t;
    assert !MergedOnBase(t.actions[|s.actions|]);
  }

  /** A caller that may merge a pull request with a base it did not compare has a run that does so. */
  lemma MergesAside(s: State, p: nat)
    requires p in s.pcs && !BaseOk(s, s.pcs[p])
    ensures !SafeFrom(s)
  {
    var tk := s.pcs[p].tk;
    var open := ChangePr(tk.job.pr, Pr(true, false, tk.job.sha, WrongBase(s, tk)));
    var t := Apply(s, open);
    if s.pcs[p].Passed? {
      PassedMergesAside(t, p);
      RunsOn(s, open, [Merge(p)]);
    } else {
      var u := Apply(t, Mark(p, true, true));
      assert u.pcs[p] == Passed(tk) && u.prs == t.prs;
      PassedMergesAside(u, p);
      RunsOn(t, Mark(p, true, true), [Merge(p)]);
      RunsOn(s, open, [Mark(p, true, true)] + [Merge(p)]);
    }
  }

  lemma RunsOn(s: State, e: Event, es: seq<Event>)
    requires e.ChangePr? && e.pr in s.prs ==> e.state.base == s.prs[e.pr].base
    requires BasesRest(Apply(s, e), es) && !AllOnBase(RunAll(Apply(s, e), es))
    ensures BasesRest(s, [e] + es) && !AllOnBase(RunAll(s, [e] + es))
  {
    assert ([e] + es)[1..] == es;
  }

  /** A state is safe exactly when each caller that may still merge compared the base its pull request has. */
  lemma SafeWhenOnBase(s: State)
    requires AllUnpinned(s)
    ensures SafeFrom(s) <==> BaseInv(s)
  {
    if BaseInv(s) {
      forall es: seq<Event> | BasesRest(s, es) ensures AllOnBase(RunAll(s, es)) {
        RestIsStay(s, es);
        RunKeepsBaseInv(s, es);
      }
    } else if AllOnBase(s) {
      var p :| p in s.pcs && !BaseOk(s, s.pcs[p]);
      MergesAside(s, p);
    } else {
      assert BasesRest(s, []) && RunAll(s, []) == s;
    }
  }

  /** One step keeps a safe state safe exactly when it gives no awaited pull request another base. */
  lemma StepIsSafeIff(s: State, e: Event)
    requires AllUnpinned(s) && SafeFrom(s)
    ensures SafeFrom(Apply(s, e)) <==> KeepsAwaited(s, e)
  {
    SafeWhenOnBase(s);
    EventKeepsUnpinned(s, e);
    SafeWhenOnBase(Apply(s, e));
    if KeepsAwaited(s, e) {
      EventKeepsBaseInv(s, e);
    } else {
      var p :| p in s.pcs && CanMerge(s, s.pcs[p]) && s.pcs[p].tk.job.pr == e.pr;
      assert BaseOk(s, s.pcs[p]) && !BaseOk(Apply(s, e), s.pcs[p]);
    }
  }

  ghost predicate SafeAlong(s: State, es: seq<Event>)
    decreases |es|
  {
    SafeFrom(s) && (es == [] || SafeAlong(Apply(s, es[0]), es[1..]))
  }

  lemma {:induction false} AlongIffStay(s: State, es: seq<Event>)
    requires AllUnpinned(s) && SafeFrom(s)
    ensures SafeAlong(s, es) <==> AwaitedStay(s, es)
    decreases |es|
  {
    if es != [] {
      StepIsSafeIff(s, es[0]);
      EventKeepsUnpinned(s, es[0]);
      if KeepsAwaited(s, es[0]) {
        AlongIffStay(Apply(s, es[0]), es[1..]);
      } else {
        assert !SafeFrom(Apply(s, es[0])) && !SafeAlong(Apply(s, es[0]), es[1..]);
      }
    }
  }

  /** The condition on a run is exact: all its states are safe if and only if no pull request gets another
      base between a caller's view and its merge. */
  lemma SafeIffAwaitedStay(s: State, es: seq<Event>)
    requires Initial(s)
    ensures SafeAlong(s, es) <==> AwaitedStay(s, es)
  {
    SafeWhenOnBase(s);
    AlongIffStay(s, es);
  }

  /** The next merge of a caller that passed is on the approved base exactly when the last change left that
      base, or the pull request cannot be merged by its command at all. */
  lemma MergeAfterChange(s: State, p: nat, st: Pr)
    requires AllOnBase(s) && p in s.pcs && s.pcs[p].Passed? && s.pcs[p].tk.job.Command?
    ensures var tk := s.pcs[p].tk;
      AllOnBase(Apply(Apply(s, ChangePr(tk.job.pr, st)), Merge(p)))
      <==> (st.open && st.head == tk.job.sha ==> tk.r.base == Some(st.base))
  {
    var tk := s.pcs[p].tk;
    var t := Apply(Apply(s, ChangePr(tk.job.pr, st)), Merge(p));
    forall i | 0 <= i < |s.actions| ensures MergedOnBase(t.actions[i]) {
      assert t.actions[i] == s.actions[i];
    }
    assert t.actions[|s.actions|].r == tk.r;
  }

  // ---------------------------------------------------------------- it can be done

  ghost predicate Reaches(s: State, t: State) {
    exists es: seq<Event> :: RunAll(s, es) == t
  }

  lemma {:induction false} RunAppend(s: State, es: seq<Event>, e: Event)
    ensures RunAll(s, es + [e]) == Apply(RunAll(s, es), e)
    decreases |es|
  {
    if es == [] {
      assert es + [e] == [e];
      assert RunAll(Apply(s, e), [e][1..]) == Apply(s, e);
    } else {
      assert (es + [e])[1..] == es[1..] + [e];
      RunAppend(Apply(s, es[0]), es[1..], e);
    }
  }

  /** One step of caller 0. */
  lemma Steps(s: State, t: State, e: Event, next: Pc, after: State)
    requires Reaches(s, t) && 0 in t.pcs && !e.PutRequest? && !e.Decide? && !e.ChangePr? && !e.Begin? && e.p == 0
    requires Move(t, t.pcs[0], e) == (after, next)
    ensures Reaches(s, after.Goto(0, next))
  {
    var es: seq<Event> :| RunAll(s, es) == t;
    RunAppend(s, es, e);
  }

  lemma Begins(s: State, a: Approval)
    requires s.pcs == map[] && a.requestId in s.requests
    ensures var t := s.(approvals := s.approvals[a.requestId := a], decided := s.decided + {a});
      Reaches(s, t.Goto(0, HasRequest(Run(a.requestId), Some(s.requests[a.requestId]))))
  {
    var t := s.(approvals := s.approvals[a.requestId := a], decided := s.decided + {a});
    assert RunAll(s, []) == s;
    RunAppend(s, [], Decide(a));
    var u := t.Goto(0, Start(Run(a.requestId)));
    RunAppend(s, [] + [Decide(a)], Begin(0, Run(a.requestId)));
    assert Reaches(s, u);
    var next := HasRequest(Run(a.requestId), Some(s.requests[a.requestId]));
    Steps(s, u, FetchRequest(0, true), next, u);
    assert u.Goto(0, next) == t.Goto(0, next);
  }

  /** The owner decided, and `pr` is open with the approved pins. */
  predicate Standing(s: State, a: Approval, now: int, pr: PullRequest) {
    && s.pcs == map[] && a.requestId in s.requests && a.requestId !in s.used
    && var r := s.requests[a.requestId];
      && VerifyApproval(a.requestId, Some(r), Some(a), now, IntentOf(Run(a.requestId))) == Success(Approved)
      && TemplateFor(r.verb, r.target) == Some(pr) && pr in s.prs && s.prs[pr].open && !s.prs[pr].draft
      && r.headSha == Some(s.prs[pr].head) && r.base == Some(s.prs[pr].base)
  }

  function CommandTicket(s: State, a: Approval, pr: PullRequest): Ticket
    requires a.requestId in s.requests && pr in s.prs
  {
    Ticket(a.requestId, s.requests[a.requestId], a, Command(pr, s.prs[pr].head))
  }

  /** A standing approval is brought to its command: `s` with the approval decided and caller 0 after the view. */
  function PinnedState(s: State, a: Approval, pr: PullRequest): State
    requires a.requestId in s.requests && pr in s.prs
  {
    s.(approvals := s.approvals[a.requestId := a], decided := s.decided + {a}, pcs := map[0 := Pinned(CommandTicket(s, a, pr))])
  }

  lemma StandingIsPinned(s: State, a: Approval, now: int, pr: PullRequest)
    requires Standing(s, a, now, pr)
    ensures Reaches(s, PinnedState(s, a, pr))
  {
    var (id, r) := (a.requestId, s.requests[a.requestId]);
    var t := s.(approvals := s.approvals[id := a], decided := s.decided + {a});
    Begins(s, a);
    var tk := Ticket(id, r, a, ToMerge(pr));
    var t0 := t.Goto(0, HasRequest(Run(id), Some(r)));
    Steps(s, t0, Verify(0, true, now), Verified(tk), t0);
    var t1 := t0.Goto(0, Verified(tk));
    Steps(s, t1, CheckUsed(0, Error(true, false)), Unused(tk), t1);
    var t2 := t1.Goto(0, Unused(tk));
    Steps(s, t2, View(0, true), Pinned(CommandTicket(s, a, pr)), t2);
    assert t2.Goto(0, Pinned(CommandTicket(s, a, pr))) == PinnedState(s, a, pr);
  }

  /** An approval that stands, for an open pull request with the approved pins, can be used: some run merges
      it, once the owner decided. */
  lemma ApprovedMergeCanRun(s: State, a: Approval, now: int, pr: PullRequest)
    requires Standing(s, a, now, pr)
    ensures var x := Action(a.requestId, s.requests[a.requestId], a, pr, s.prs[pr].head, Some(s.prs[pr]));
      exists t: State :: Reaches(s, t) && t.actions == s.actions + [x]
  {
    StandingIsPinned(s, a, now, pr);
    PinnedCanMerge(s, PinnedState(s, a, pr), CommandTicket(s, a, pr), pr);
  }

  lemma PinnedCanMerge(s: State, t: State, tk: Ticket, pr: PullRequest)
    requires Reaches(s, t) && 0 in t.pcs && t.pcs[0] == Pinned(tk) && tk.id !in t.used
    requires pr in t.prs && t.prs[pr].open && tk.job == Command(pr, t.prs[pr].head)
    ensures var x := Action(tk.id, tk.r, tk.a, pr, t.prs[pr].head, Some(t.prs[pr]));
      exists u: State :: Reaches(s, u) && u.actions == t.actions + [x]
  {
    var marked := t.(used := t.used + {tk.id}, passes := t.passes + multiset{tk.id});
    Steps(s, t, Mark(0, true, true), Passed(tk), marked);
    var passed := marked.Goto(0, Passed(tk));
    Steps(s, passed, Merge(0), Finished, MergeStep(passed, tk));
    assert MergeStep(passed, tk).Goto(0, Finished).actions == t.actions + [Action(tk.id, tk.r, tk.a, pr, t.prs[pr].head, Some(t.prs[pr]))];
  }

  /** Every approval that can be used can be used for another base: retargeted after the view, the pull request
      is merged into any base whatever, approved or not. */
  lemma RetargetedIsMerged(s: State, a: Approval, now: int, pr: PullRequest, other: string)
    requires Standing(s, a, now, pr)
    ensures var x := Action(a.requestId, s.requests[a.requestId], a, pr, s.prs[pr].head, Some(s.prs[pr].(base := other)));
      && (exists t: State :: Reaches(s, t) && t.actions == s.actions + [x])
      && (MergedOnBase(x) <==> other == s.prs[pr].base)
  {
    StandingIsPinned(s, a, now, pr);
    var t := PinnedState(s, a, pr);
    var e := ChangePr(pr, s.prs[pr].(base := other));
    var es: seq<Event> :| RunAll(s, es) == t;
    RunAppend(s, es, e);
    PinnedCanMerge(s, Apply(t, e), CommandTicket(s, a, pr), pr);
  }

  /** Such a run from the start: the owner approves a merge into "main", and it goes into "release". */
  lemma UnapprovedBaseRun()
    ensures exists s: State, es: seq<Event> :: Initial(s) && |RunAll(s, es).actions| == 1 && !MergedOnBase(RunAll(s, es).actions[0])
  {
    var pr := PullRequest("o/r", "1");
    var r := Request(0, Merging, PullRequestTarget(pr), Some("head"), Some("main"), Some(0), Some(10), true, true);
    var a := Approval(0, Sha256(r), Approved, true, Some(1));
    var s := State(map[0 := r], map[], {}, {}, multiset{}, map[pr := Pr(true, false, "head", "main")], [], {}, map[]);
    RetargetedIsMerged(s, a, 2, pr, "release");
    assert "release" != "main" by { assert |"release"| != |"main"|; }
    var x := Action(0, r, a, pr, "head", Some(Pr(true, false, "head", "release")));
    var t: State :| Reaches(s, t) && t.actions == [] + [x];
    var es: seq<Event> :| RunAll(s, es) == t;
    assert Initial(s) && |RunAll(s, es).actions| == 1 && !MergedOnBase(RunAll(s, es).actions[0]);
  }
}
