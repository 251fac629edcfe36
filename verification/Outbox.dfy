/** The outbox sender: approved items, single-use markers, recorded results and sends. Any number of sender
    processes may run on the same directories, interleave, and be killed between any two steps. */
module Outbox {
  import opened Basics

  type Id = nat

  /** An item without its `approvedSha256`. */
  datatype Content = Content(id: Id, to: string, thread: Option<string>, subject: Option<string>, text: string)

  /** The text of a SHA-256 digest, or text that is none. Different contents have different digests. */
  datatype Digest = Sha256(of: Content) | Garbage(text: string)

  datatype Item = Item(content: Content, approvedSha256: Digest)

  datatype Marker = Marker(peer: string, at: int) | Malformed

  datatype Outcome = SentOk | SendFailed | Uncertain

  datatype Sent = Sent(id: Id, content: Content)

  datatype Refusal =
    | BadRequest | NotFound | AmbiguousItem | UnsafeItem | BadItem | NotApproved | HashMismatch | UnpairedPeer
    | InvalidText | RateLimited | AlreadyUsed | SendFailedReply | DryRun | RootUnsafe | Busy | Internal | WasUncertain

  /** The approval ledger, the single-use markers, the recorded results, and the calls of `send` so far. */
  datatype World = World(ledger: map<Id, Digest>, markers: map<Id, Marker>, results: map<Id, Outcome>, sends: seq<Sent>)

  /** What a request finds: its frame, the outbox root, the file lookup, the parsed file, an unsafe ledger
      file, the peer's pairing and the text checks. */
  datatype Facts = Facts(
    frame: Option<Id>, rootSafe: bool, lookup: Result<(), Refusal>, item: Result<Item, Refusal>,
    ledgerSafe: bool, paired: bool, textOk: bool)

  /** The checks up to the text, in the order they are made. An item that was parsed is for the id asked for. */
  function Screen(f: Facts, ledger: map<Id, Digest>): Result<Item, Refusal> {
    if !f.rootSafe then Failure(RootUnsafe)
    else if f.lookup.Failure? then Failure(f.lookup.error)
    else if f.item.Failure? then f.item
    else
      var i := f.item.value;
      if f.frame != Some(i.content.id) then Failure(BadItem)
      else if Sha256(i.content) != i.approvedSha256 then Failure(HashMismatch)
      else if !f.ledgerSafe then Failure(UnsafeItem)
      else if i.content.id !in ledger then Failure(NotApproved)
      else if ledger[i.content.id] != Sha256(i.content) then Failure(HashMismatch)
      else if !f.paired then Failure(UnpairedPeer)
      else if !f.textOk then Failure(InvalidText)
      else Success(i)
  }

  function Reserved(w: World, id: Id, peer: string, at: int): World {
    w.(markers := w.markers[id := Marker(peer, at)])
  }

  function SentOut(w: World, c: Content): World {
    w.(sends := w.sends + [Sent(c.id, c)])
  }

  function Recorded(w: World, id: Id, outcome: Outcome, written: bool): World {
    if written then w.(results := w.results[id := outcome]) else w
  }

  // ---------------------------------------------------------------- many senders

  datatype Pc = Idle | Screened(c: Content) | Cleared(c: Content) | Holding(c: Content) | Attempted(c: Content, ok: bool)

  datatype State = State(w: World, pcs: map<nat, Pc>, dead: set<nat>)
  {
    function At(p: nat): Pc {
      if p in pcs then pcs[p] else Idle
    }

    function Goto(p: nat, pc: Pc): State {
      this.(pcs := pcs[p := pc])
    }
  }

  /** `Approve` is the ledger entry of `outbox add`, created once. `Reconcile` is one step of a start. The rest
      are the steps of a request in process `p`; `Clear` is the check of the recorded state and the rate,
      whatever the rate says. */
  datatype Event =
    | Approve(id: Id, digest: Digest)
    | Take(p: nat, facts: Facts)
    | Clear(p: nat, pass: bool)
    | Reserve(p: nat, at: int)
    | Send(p: nat, ok: bool)
    | Record(p: nat, written: bool)
    | Reconcile(p: nat, id: Id, written: bool)
    | Crash(p: nat)

  function Next(s: State, p: nat, e: Event): State {
    match (s.At(p), e)
    case (Idle, Take(_, f)) =>
      var r := Screen(f, s.w.ledger);
      if r.Success? then s.Goto(p, Screened(r.value.content)) else s
    case (Screened(c), Clear(_, pass)) =>
      if !pass || Get(s.w.results, c.id) == Some(Uncertain) then s.Goto(p, Idle) else s.Goto(p, Cleared(c))
    case (Cleared(c), Reserve(_, at)) =>
      if c.id in s.w.markers then s.Goto(p, Idle)
      else s.(w := Reserved(s.w, c.id, c.to, at)).Goto(p, Holding(c))
    case (Holding(c), Send(_, ok)) => s.(w := SentOut(s.w, c)).Goto(p, Attempted(c, ok))
    case (Attempted(c, ok), Record(_, written)) =>
      s.(w := Recorded(s.w, c.id, if ok then SentOk else SendFailed, written)).Goto(p, Idle)
    case (Idle, Reconcile(_, id, written)) =>
      if id in s.w.markers && id !in s.w.results then s.(w := Recorded(s.w, id, Uncertain, written)) else s
    case _ => s
  }

  function Apply(s: State, e: Event): State {
    if e.Approve? then
      if e.id in s.w.ledger then s else s.(w := s.w.(ledger := s.w.ledger[e.id := e.digest]))
    else if e.Crash? then s.(dead := s.dead + {e.p})
    else if e.p in s.dead then s
    else Next(s, e.p, e)
  }

  function Run(s: State, es: seq<Event>): State
    decreases |es|
  {
    if es == [] then s else Run(Apply(s, es[0]), es[1..])
  }

  predicate Initial(s: State) {
    s.w.markers == map[] && s.w.results == map[] && s.w.sends == [] && s.pcs == map[] && s.dead == {}
  }

  predicate Approved(w: World, c: Content) {
    c.id in w.ledger && w.ledger[c.id] == Sha256(c)
  }

  predicate WasSent(w: World, id: Id) {
    exists i :: 0 <= i < |w.sends| && w.sends[i].id == id
  }

  ghost predicate ProcessOk(s: State, p: nat) {
    var pc := s.At(p);
    && (!pc.Idle? ==> Approved(s.w, pc.c))
    && (pc.Holding? ==> pc.c.id in s.w.markers && !WasSent(s.w, pc.c.id))
  }

  ghost predicate OneHolder(s: State) {
    forall p, q :: s.At(p).Holding? && s.At(q).Holding? && s.At(p).c.id == s.At(q).c.id ==> p == q
  }

  /** Every send is of approved content under a marker, and no two are for one item. */
  ghost predicate SendsOk(w: World) {
    && (forall i :: 0 <= i < |w.sends| ==>
          w.sends[i].id == w.sends[i].content.id && w.sends[i].id in w.markers && Approved(w, w.sends[i].content))
    && (forall i, j :: 0 <= i < j < |w.sends| ==> w.sends[i].id != w.sends[j].id)
  }

  ghost predicate Inv(s: State) {
    SendsOk(s.w) && OneHolder(s) && forall p: nat :: ProcessOk(s, p)
  }

  lemma SendKeepsOthers(s: State, p: nat, ok: bool, q: nat)
    requires Inv(s) && s.At(p).Holding? && q != p
    ensures ProcessOk(Next(s, p, Send(p, ok)), q)
  {
    var t := Next(s, p, Send(p, ok));
    assert ProcessOk(s, q) && t.At(q) == s.At(q);
    assert forall i :: 0 <= i < |s.w.sends| ==> t.w.sends[i] == s.w.sends[i];
    assert s.At(q).Holding? ==> s.At(q).c.id != s.At(p).c.id;
  }

  lemma SendKeepsInv(s: State, p: nat, ok: bool)
    requires Inv(s) && s.At(p).Holding?
    ensures Inv(Next(s, p, Send(p, ok)))
  {
    var t := Next(s, p, Send(p, ok));
    assert ProcessOk(s, p);
    assert forall i :: 0 <= i < |s.w.sends| ==> t.w.sends[i] == s.w.sends[i];
    forall q: nat ensures ProcessOk(t, q) {
      if q != p {
        SendKeepsOthers(s, p, ok, q);
      }
    }
    assert forall q :: t.At(q).Holding? ==> s.At(q).Holding? && t.At(q) == s.At(q);
  }

  lemma OtherStepsKeepInv(s: State, p: nat, e: Event)
    requires Inv(s) && !(e.Send? && s.At(p).Holding?)
    ensures Inv(Next(s, p, e))
  {
    var t := Next(s, p, e);
    assert t.w.sends == s.w.sends && t.w.ledger == s.w.ledger && s.w.markers.Keys <= t.w.markers.Keys;
    assert ProcessOk(s, p);
    forall q: nat ensures ProcessOk(t, q) {
      assert ProcessOk(s, q);
    }
    forall a, b | t.At(a).Holding? && t.At(b).Holding? && t.At(a).c.id == t.At(b).c.id
      ensures a == b
    {
      assert ProcessOk(s, a) && ProcessOk(s, b);
    }
  }

  lemma EventKeepsInv(s: State, e: Event)
    requires Inv(s)
    ensures Inv(Apply(s, e))
  {
    var t := Apply(s, e);
    if e.Approve? || e.Crash? {
      assert forall q :: t.At(q) == s.At(q);
      forall q: nat ensures ProcessOk(t, q) {
        assert ProcessOk(s, q);
      }
    } else if e.p !in s.dead {
      if e.Send? && s.At(e.p).Holding? {
        SendKeepsInv(s, e.p, e.ok);
      } else {
        OtherStepsKeepInv(s, e.p, e);
      }
    }
  }

  lemma {:induction false} RunKeepsInv(s: State, es: seq<Event>)
    requires Inv(s)
    ensures Inv(Run(s, es))
    decreases |es|
  {
    if es != [] {
      EventKeepsInv(s, es[0]);
      RunKeepsInv(Apply(s, es[0]), es[1..]);
    }
  }

  lemma InitialIsInv(s: State)
    requires Initial(s)
    ensures Inv(s)
  {
    assert forall p: nat :: s.At(p).Idle?;
  }

  /** At most once: over all runs no two sends are for the same item, and each is of the one content whose
      digest stands in the item's ledger entry. */
  lemma AtMostOnce(s: State, es: seq<Event>)
    requires Initial(s)
    ensures var w := Run(s, es).w;
      && (forall i, j :: 0 <= i < j < |w.sends| ==> w.sends[i].id != w.sends[j].id)
      && (forall i :: 0 <= i < |w.sends| ==> Get(w.ledger, w.sends[i].id) == Some(Sha256(w.sends[i].content)))
  {
    InitialIsInv(s);
    RunKeepsInv(s, es);
  }

  /** The item is reserved and no running process is about to send it. */
  predicate Spent(s: State, id: Id) {
    id in s.w.markers && forall p :: p in s.pcs && p !in s.dead && s.pcs[p].Holding? ==> s.pcs[p].c.id != id
  }

  /** A reserved item whose sender was killed, or has sent it, is never sent again, whoever restarts. */
  lemma {:induction false} SpentIsNeverSent(s: State, es: seq<Event>, id: Id)
    requires Spent(s, id)
    ensures Spent(Run(s, es), id) && (WasSent(Run(s, es).w, id) <==> WasSent(s.w, id))
    ensures s.w.sends <= Run(s, es).w.sends
    decreases |es|
  {
    if es != [] {
      var t := Apply(s, es[0]);
      assert Spent(t, id) && s.w.sends <= t.w.sends;
      assert WasSent(t.w, id) <==> WasSent(s.w, id) by {
        if WasSent(s.w, id) {
          var i :| 0 <= i < |s.w.sends| && s.w.sends[i].id == id;
          assert t.w.sends[i].id == id;
        }
        if WasSent(t.w, id) {
          var i :| 0 <= i < |t.w.sends| && t.w.sends[i].id == id;
          assert i < |s.w.sends| ==> s.w.sends[i].id == id;
        }
      }
      SpentIsNeverSent(t, es[1..], id);
    }
  }

  /** A killed holder leaves its item spent. */
  lemma CrashSpends(s: State, p: nat)
    requires Inv(s) && s.At(p).Holding?
    ensures Spent(Apply(s, Crash(p)), s.At(p).c.id)
  {
    assert ProcessOk(s, p);
    forall q | q in s.pcs && q != p && s.pcs[q].Holding? ensures s.pcs[q].c.id != s.At(p).c.id {
      assert s.At(q) == s.pcs[q];
    }
  }

  // ---------------------------------------------------------------- one sender

  const RATE_WINDOW_MS := 3_600_000
  const UNLOADED_OUT_PER_HOUR := 1

  /** The markers for `peer` that count at `now`: those dated after it count too. */
  function Recent(markers: map<Id, Marker>, peer: string, now: int): set<Id> {
    set i | i in markers && markers[i].Marker? && markers[i].peer == peer && now - markers[i].at < RATE_WINDOW_MS
  }

  predicate Readable(markers: map<Id, Marker>) {
    forall i :: i in markers ==> markers[i].Marker?
  }

  method CheckRate(markers: map<Id, Marker>, peer: string, cap: int, now: int) returns (refused: Option<Refusal>)
    ensures refused == if !Readable(markers) then Some(Internal)
                       else if |Recent(markers, peer, now)| >= cap then Some(RateLimited) else None
  {
    var recent := 0;
    var left := markers.Keys;
    ghost var counted: set<Id> := {};
    while left != {}
      invariant left <= markers.Keys
      invariant forall i :: i in markers && i !in left ==> markers[i].Marker?
      invariant counted == set i | i in Recent(markers, peer, now) && i !in left
      invariant recent == |counted|
      decreases left
    {
      var name :| name in left;
      left := left - {name};
      match markers[name]
      case Malformed => return Some(Internal);
      case Marker(p, at) =>
        if p == peer && now - at < RATE_WINDOW_MS {
          recent := recent + 1;
          counted := counted + {name};
        }
    }
    assert counted == Recent(markers, peer, now);
    if recent >= cap {
      return Some(RateLimited);
    }
    refused := None;
  }

  /** The recorded results after a start: reservations without one become uncertain, unless the write fails. */
  function Reconciled(w: World, unwritable: set<Id>): World {
    w.(results := w.results + map i | i in w.markers && i !in w.results && i !in unwritable :: Uncertain)
  }

  lemma ReconciledIs(w: World, unwritable: set<Id>, r: map<Id, Outcome>)
    requires forall i :: i in r <==> i in w.results || (i in w.markers && i !in unwritable)
    requires forall i :: i in r ==> r[i] == if i in w.results then w.results[i] else Uncertain
    ensures r == Reconciled(w, unwritable).results
  {
    var after := Reconciled(w, unwritable).results;
    assert forall i :: i in after <==> i in r;
  }

  /** After a start whose writes succeed, every reserved item has a recorded result. */
  lemma EveryReservationHasAResult(w: World)
    ensures w.markers.Keys <= Reconciled(w, {}).results.Keys
    ensures forall i :: i in w.results ==> Reconciled(w, {}).results[i] == w.results[i]
    ensures forall i :: i in w.markers && i !in w.results ==> Reconciled(w, {}).results[i] == Uncertain
  {
    var added := map i | i in w.markers && i !in w.results && i !in {} :: Uncertain;
    assert Reconciled(w, {}).results == w.results + added;
  }

  class Sender {
    var ledger: map<Id, Digest>
    var markers: map<Id, Marker>
    var results: map<Id, Outcome>
    var sends: seq<Sent>
    /** The policy in force: the hourly cap by peer, and for any other peer. */
    var policy: Option<(map<string, int>, int)>
    const dryRun: bool

    function OnDisk(): World
      reads this
    {
      World(ledger, markers, results, sends)
    }

    constructor (w: World, dryRun: bool)
      ensures OnDisk() == w && policy == None && this.dryRun == dryRun
    {
      ledger, markers, results, sends := w.ledger, w.markers, w.results, w.sends;
      policy := None;
      this.dryRun := dryRun;
    }

    method RecordResult(id: Id, outcome: Outcome, written: bool)
      modifies this`results
      ensures results == if written then old(results)[id := outcome] else old(results)
    {
      if written {
        results := results[id := outcome];
      }
    }

    method ReconcileUncertain(unwritable: set<Id>) returns (count: nat)
      modifies this`results
      ensures results == Reconciled(old(OnDisk()), unwritable).results
      ensures count == |old(markers).Keys - old(results).Keys|
    {
      var pending := markers.Keys - results.Keys;
      count := |pending|;
      var left := pending;
      while left != {}
        invariant left <= pending
        invariant forall i :: i in results <==> i in old(results) || (i in pending && i !in left && i !in unwritable)
        invariant forall i :: i in results ==> results[i] == if i in old(results) then old(results)[i] else Uncertain
        decreases left
      {
        var id :| id in left;
        left := left - {id};
        RecordResult(id, Uncertain, id !in unwritable);
      }
      ReconciledIs(old(OnDisk()), unwritable, results);
    }

    /** The policy in force is the last one that could be read; while there has been none, one message an hour. */
    method OutPerHour(loaded: Option<(map<string, int>, int)>, to: string) returns (cap: int)
      modifies this`policy
      ensures policy == if loaded.Some? then loaded else old(policy)
      ensures cap == CapOf(policy, to)
    {
      if loaded.Some? {
        policy := loaded;
      }
      cap := CapOf(policy, to);
    }

    /** One request, from the checks to the recorded result. `admitted` is the answer of the request budget;
        the clock is read for the rate check and again for the marker. */
    method ProcessRequest(f: Facts, admitted: bool, loaded: Option<(map<string, int>, int)>, rateNow: int, markNow: int,
        sendOk: bool, written: bool) returns (reply: Option<Refusal>)
      modifies this`markers, this`results, this`sends, this`policy
      ensures policy == old(policy) || (loaded.Some? && policy == loaded)
      ensures OnDisk() == if Verdict(f, admitted, policy, rateNow, dryRun, old(OnDisk())).None?
        then Recorded(SentOut(Reserved(old(OnDisk()), f.item.value.content.id, f.item.value.content.to, markNow), f.item.value.content),
                      f.item.value.content.id, if sendOk then SentOk else SendFailed, written)
        else old(OnDisk())
      ensures var v := Verdict(f, admitted, policy, rateNow, dryRun, old(OnDisk()));
        reply == if v.Some? then v else if sendOk then None else Some(SendFailedReply)
    {
      if f.frame.None? {
        return Some(BadRequest);
      }
      if !admitted {
        return Some(Busy);
      }
      var screened := Screen(f, ledger);
      if screened.Failure? {
        if loaded.Some? && screened.error in {UnpairedPeer, InvalidText} {
          policy := loaded;
        }
        return Some(screened.error);
      }
      var c := screened.value.content;
      var cap := OutPerHour(loaded, c.to);
      if Get(results, c.id) == Some(Uncertain) {
        return Some(WasUncertain);
      }
      var limited := CheckRate(markers, c.to, cap, rateNow);
      if limited.Some? {
        return limited;
      }
      if dryRun {
        return Some(DryRun);
      }
      if c.id in markers {
        return Some(AlreadyUsed);
      }
      markers := markers[c.id := Marker(c.to, markNow)];
      sends := sends + [Sent(c.id, c)];
      if !sendOk {
        RecordResult(c.id, SendFailed, written);
        return Some(SendFailedReply);
      }
      RecordResult(c.id, SentOk, written);
      reply := None;
    }
  }

  function CapOf(policy: Option<(map<string, int>, int)>, to: string): int {
    if policy.None? then UNLOADED_OUT_PER_HOUR
    else if to in policy.value.0 then policy.value.0[to] else policy.value.1
  }

  /** What a request must be for its item to be sent. */
  predicate Passes(f: Facts, admitted: bool, policy: Option<(map<string, int>, int)>, rateNow: int, dryRun: bool, w: World) {
    && f.frame.Some? && admitted && Screen(f, w.ledger).Success? && !dryRun
    && var c := f.item.value.content;
       && Get(w.results, c.id) != Some(Uncertain) && c.id !in w.markers
       && Readable(w.markers) && |Recent(w.markers, c.to, rateNow)| < CapOf(policy, c.to)
  }

  /** The refusal of a request, in the order of the checks; none when its item is sent. */
  function Verdict(f: Facts, admitted: bool, policy: Option<(map<string, int>, int)>, rateNow: int, dryRun: bool, w: World): Option<Refusal> {
    if f.frame.None? then Some(BadRequest)
    else if !admitted then Some(Busy)
    else if Screen(f, w.ledger).Failure? then Some(Screen(f, w.ledger).error)
    else
      var c := f.item.value.content;
      if Get(w.results, c.id) == Some(Uncertain) then Some(WasUncertain)
      else if !Readable(w.markers) then Some(Internal)
      else if |Recent(w.markers, c.to, rateNow)| >= CapOf(policy, c.to) then Some(RateLimited)
      else if dryRun then Some(DryRun)
      else if c.id in w.markers then Some(AlreadyUsed)
      else None
  }

  /** An item is sent exactly when its request is well-formed and admitted, its content is the approved one,
      its peer is paired and under its hourly cap, and it was never reserved. */
  lemma SentExactlyWhen(f: Facts, admitted: bool, policy: Option<(map<string, int>, int)>, rateNow: int, dryRun: bool, w: World)
    ensures Verdict(f, admitted, policy, rateNow, dryRun, w).None? <==> Passes(f, admitted, policy, rateNow, dryRun, w)
    ensures Passes(f, admitted, policy, rateNow, dryRun, w) ==>
      Approved(w, f.item.value.content) && f.frame == Some(f.item.value.content.id) && f.paired && f.textOk && f.rootSafe && f.ledgerSafe
  {
  }

  lemma RunFirst(s: State, e: Event, es: seq<Event>)
    ensures Run(s, [e] + es) == Run(Apply(s, e), es)
  {
    assert ([e] + es)[1..] == es;
  }

  lemma SendingIsSteps(s: State, p: nat, c: Content, markNow: int, sendOk: bool, written: bool)
    requires s.At(p) == Cleared(c) && p !in s.dead && c.id !in s.w.markers
    ensures Run(s, [Reserve(p, markNow)] + ([Send(p, sendOk)] + ([Record(p, written)] + []))).w
      == Recorded(SentOut(Reserved(s.w, c.id, c.to, markNow), c), c.id, if sendOk then SentOk else SendFailed, written)
  {
    var e2 := [Record(p, written)] + [];
    var e1 := [Send(p, sendOk)] + e2;
    var s1 := s.(w := Reserved(s.w, c.id, c.to, markNow)).Goto(p, Holding(c));
    RunFirst(s, Reserve(p, markNow), e1);
    var s2 := s1.(w := SentOut(s1.w, c)).Goto(p, Attempted(c, sendOk));
    RunFirst(s1, Send(p, sendOk), e2);
    RunFirst(s2, Record(p, written), []);
  }

  /** A request that passes every check is five steps. */
  lemma PassingRequestIsSteps(s: State, p: nat, f: Facts, admitted: bool, policy: Option<(map<string, int>, int)>,
      rateNow: int, markNow: int, sendOk: bool, written: bool)
    requires s.At(p).Idle? && p !in s.dead && Passes(f, admitted, policy, rateNow, false, s.w)
    ensures var c := f.item.value.content;
      var sending := [Reserve(p, markNow)] + ([Send(p, sendOk)] + ([Record(p, written)] + []));
      Run(s, [Take(p, f)] + ([Clear(p, true)] + sending)).w
        == Recorded(SentOut(Reserved(s.w, c.id, c.to, markNow), c), c.id, if sendOk then SentOk else SendFailed, written)
  {
    var c := f.item.value.content;
    var sending := [Reserve(p, markNow)] + ([Send(p, sendOk)] + ([Record(p, written)] + []));
    var s1 := s.Goto(p, Screened(c));
    RunFirst(s, Take(p, f), [Clear(p, true)] + sending);
    var s2 := s1.Goto(p, Cleared(c));
    RunFirst(s1, Clear(p, true), sending);
    SendingIsSteps(s2, p, c, markNow, sendOk, written);
  }

  /** The steps of process `p` for a request whose verdict is `v`. */
  function RequestSteps(p: nat, f: Facts, admitted: bool, v: Option<Refusal>, ledger: map<Id, Digest>,
      markNow: int, sendOk: bool, written: bool): seq<Event>
  {
    if v.None? then [Take(p, f)] + ([Clear(p, true)] + ([Reserve(p, markNow)] + ([Send(p, sendOk)] + ([Record(p, written)] + []))))
    else if f.frame.None? || !admitted then []
    else if Screen(f, ledger).Failure? then [Take(p, f)] + []
    else if v == Some(AlreadyUsed) then [Take(p, f)] + ([Clear(p, true)] + ([Reserve(p, markNow)] + []))
    else [Take(p, f)] + ([Clear(p, false)] + [])
  }

  lemma RefusedRequestIsSteps(s: State, p: nat, f: Facts, admitted: bool, policy: Option<(map<string, int>, int)>,
      rateNow: int, markNow: int, dryRun: bool, sendOk: bool, written: bool)
    requires s.At(p).Idle? && p !in s.dead && Verdict(f, admitted, policy, rateNow, dryRun, s.w).Some?
    ensures var v := Verdict(f, admitted, policy, rateNow, dryRun, s.w);
      var t := Run(s, RequestSteps(p, f, admitted, v, s.w.ledger, markNow, sendOk, written));
      t.w == s.w && t.At(p).Idle?
  {
    var v := Verdict(f, admitted, policy, rateNow, dryRun, s.w);
    if f.frame.Some? && admitted {
      if Screen(f, s.w.ledger).Failure? {
        RunFirst(s, Take(p, f), []);
      } else {
        var c := f.item.value.content;
        var s1 := s.Goto(p, Screened(c));
        if v == Some(AlreadyUsed) {
          RunFirst(s, Take(p, f), [Clear(p, true)] + ([Reserve(p, markNow)] + []));
          RunFirst(s1, Clear(p, true), [Reserve(p, markNow)] + []);
          RunFirst(s1.Goto(p, Cleared(c)), Reserve(p, markNow), []);
        } else {
          RunFirst(s, Take(p, f), [Clear(p, false)] + []);
          RunFirst(s1, Clear(p, false), []);
        }
      }
    }
  }

  /** Any request of one sender, passed, refused or in a dry run, is at most five steps of the machine, so a kill
      inside it leaves what a prefix of them leaves. */
  lemma RequestIsSteps(s: State, p: nat, f: Facts, admitted: bool, policy: Option<(map<string, int>, int)>,
      rateNow: int, markNow: int, dryRun: bool, sendOk: bool, written: bool)
    requires s.At(p).Idle? && p !in s.dead
    ensures var v := Verdict(f, admitted, policy, rateNow, dryRun, s.w);
      Run(s, RequestSteps(p, f, admitted, v, s.w.ledger, markNow, sendOk, written)).w ==
        if v.None? then
          Recorded(SentOut(Reserved(s.w, f.item.value.content.id, f.item.value.content.to, markNow), f.item.value.content),
                   f.item.value.content.id, if sendOk then SentOk else SendFailed, written)
        else s.w
  {
    if Verdict(f, admitted, policy, rateNow, dryRun, s.w).None? {
      SentExactlyWhen(f, admitted, policy, rateNow, dryRun, s.w);
      PassingRequestIsSteps(s, p, f, admitted, policy, rateNow, markNow, sendOk, written);
    } else {
      RefusedRequestIsSteps(s, p, f, admitted, policy, rateNow, markNow, dryRun, sendOk, written);
    }
  }
}
