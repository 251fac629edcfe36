/** The saved approval request of `init --request` and `init --wait`: its stages, the answers of OpenKey, the
    install and the acknowledgement. Every durable effect adds a world to a trail; a kill leaves a prefix of
    the trail, and the next command goes on from its last world. */
module Approval {
  import opened Basics

  const RESULT_RETENTION_MS := 600_000
  const EXPIRY_SKEW_MS := 60_000
  const CLOCK_SKEW_MS := 300_000

  /** What the relay envelope decrypts to: the cid of the delegation, when it answers this request, key and owner. */
  datatype Relay = Relay(opens: Result<string, Code>)

  datatype Found = Found(ref: string, expiresAt: int)

  /** `spec` is everything compared by `matches` except the lifetime. */
  datatype Request = Request(
    id: nat, issuer: string, spec: string, lifetime: int, requestExpiresAt: int, ackId: nat,
    found: Option<Found>, relay: Option<Relay>, committed: bool)

  datatype Wanted = Wanted(issuer: string, spec: string, lifetime: int, explicitLifetime: bool)

  datatype Stage = NoneHeld | Ref | Collected | Committed

  function StageOf(p: Request): Stage {
    if p.committed then Committed
    else if p.relay.Some? then Collected
    else if p.found.Some? then Ref
    else NoneHeld
  }

  function Rank(p: Request): nat {
    match StageOf(p)
    case NoneHeld => 0
    case Ref => 1
    case Collected => 2
    case Committed => 3
  }

  predicate HoldsApproval(p: Request) {
    StageOf(p) != NoneHeld
  }

  predicate RequestLapsed(p: Request, now: int) {
    !HoldsApproval(p) && p.requestExpiresAt <= now
  }

  predicate Matches(p: Request, want: Wanted) {
    p.spec == want.spec && (want.explicitLifetime ==> p.lifetime == want.lifetime)
  }

  // ---------------------------------------------------------------- answers and refusals

  datatype Code =
    | RequestExpired | ResultExpired | Acknowledged | NotFound | AckConflict | RequestBinding
    | Unavailable | Network | ResultInvalid
    | BadGrant | GrantTooBroad | GrantIncomplete | GrantExpired | GrantTooLong
    | NoSpaceYet | ProfileChanged | OtherCode

  datatype Error =
    | AlreadyApproved | LinkUnavailable | ApprovalUnavailable | ApprovalExpired | ResultGone | ApprovalConsumed
    | ApprovalRejected | ResultRefused | Refused(code: Code) | SpaceNotReady

  datatype Discovery = StillOpen | Ready(found: Found) | Undiscovered(code: Code)

  /** The outcome of polling for the result; `found` is set when a reference was discovered on the way. */
  datatype Collection =
    | Result_(found: Option<Found>, relay: Relay)
    | Deadline(found: Option<Found>)
    | Uncollected(found: Option<Found>, code: Code)

  /** A known reference is not asked for again; a result needs a reference. */
  predicate Fits(known: Option<Found>, c: Collection) {
    && (known.Some? ==> c.found.None?)
    && (known.None? && c.Result_? ==> c.found.Some?)
  }

  /** How an install goes: refused before the grant is saved, failing between grant and profile, failing
      after the profile, stopped for want of a space, or done (at once or after waiting for the space). */
  datatype Install =
    | Rejected(refusal: Refusal)
    | ProbeFailed
    | WaitFailed
    | SpaceMissing
    | SpaceTimedOut
    | ReadyAtOnce
    | ReadyLater

  /** `clockText`: the message speaks of a future issue or a missing future expiry; `signedExpiry` is that of
      the delegation, when its signed text has one; `now` is when the refusal is judged. */
  datatype Refusal = Refusal(code: Code, clockText: bool, signedExpiry: Option<int>, now: int)

  predicate IsClockRefusal(f: Refusal) {
    f.code == GrantExpired || (f.code == BadGrant && f.clockText)
  }

  /** Whether no retry with a correct clock can succeed. */
  predicate IsPermanentRefusal(f: Refusal) {
    if IsClockRefusal(f) then f.signedExpiry.None? || f.signedExpiry.value + CLOCK_SKEW_MS < f.now
    else f.code in {BadGrant, GrantTooBroad, GrantIncomplete}
  }

  datatype Outcome = Installed | NoSpace | Failed(refusal: Refusal)

  datatype Settled = Approved | StillOpen_ | Expired_

  datatype Completion = Done | DeadlinePassed

  // ---------------------------------------------------------------- worlds

  datatype Ack = Ack(requestId: nat, ref: string, ackId: nat)

  /** The durable state and what was sent: approval-pending.json, the cid in grant.json, the cid whose
      fields the profile holds, the acknowledgements, and every request id ever created. */
  datatype World = World(file: Option<Request>, grant: Option<string>, profile: Option<string>, acks: seq<Ack>, ids: set<nat>)

  /** Grant and profile of the result this request holds are on disk. */
  predicate InstalledIn(w: World, p: Request) {
    p.relay.Some? && p.relay.value.opens.Success? && w.grant == w.profile == Some(p.relay.value.opens.value)
  }

  predicate SameRequest(p: Request, q: Request) {
    q == p.(found := q.found, relay := q.relay, committed := q.committed)
  }

  predicate Advances(w: World, r: Request) {
    && w.file.Some? && SameRequest(w.file.value, r) && Rank(w.file.value) <= Rank(r)
    && (r.committed && !w.file.value.committed ==> InstalledIn(w, r))
  }

  predicate MayReplace(w: World, issuer: string) {
    w.file.Some? && w.file.value.issuer == issuer ==> !HoldsApproval(w.file.value)
  }

  predicate Creates(w: World, r: Request) {
    r.id !in w.ids && StageOf(r) == NoneHeld && MayReplace(w, r.issuer)
  }

  predicate AckIsDue(w: World, a: Ack) {
    && w.file.Some? && w.file.value.committed
    && w.file.value.found.Some? && a == Ack(w.file.value.id, w.file.value.found.value.ref, w.file.value.ackId)
  }

  /** One durable effect. The profile takes the fields of the grant on disk, or is a new one without any. */
  predicate Step(w: World, v: World) {
    || v == w.(file := None)
    || (v.file.Some? && v == w.(file := v.file) && Advances(w, v.file.value))
    || (v.file.Some? && v == w.(file := v.file, ids := w.ids + {v.file.value.id}) && Creates(w, v.file.value))
    || v == w.(grant := v.grant)
    || (v == w.(profile := v.profile) && v.profile in {None, w.grant})
    || (v.acks != [] && v == w.(acks := w.acks + [v.acks[|v.acks| - 1]]) && AckIsDue(w, v.acks[|v.acks| - 1]))
  }

  ghost predicate IsRun(ws: seq<World>) {
    && ws != []
    && (ws[0].file.Some? ==> ws[0].file.value.id in ws[0].ids)
    && forall i :: 0 <= i && i + 1 < |ws| ==> Step(ws[i], ws[i + 1])
  }

  lemma RunExtends(ws: seq<World>, v: World)
    requires IsRun(ws) && Step(ws[|ws| - 1], v)
    ensures IsRun(ws + [v])
  {
    var vs := ws + [v];
    forall i | 0 <= i && i + 1 < |vs| ensures Step(vs[i], vs[i + 1]) {
      if i + 1 < |ws| {
        assert vs[i] == ws[i] && vs[i + 1] == ws[i + 1];
      }
    }
  }

  /** A command killed after `k` effects, and a later one that goes on from there, make one run again. */
  lemma KilledRunGoesOn(a: seq<World>, k: nat, b: seq<World>)
    requires IsRun(a) && k < |a| && IsRun(b) && b[0] == a[k]
    ensures IsRun(a[..k + 1] + b[1..])
  {
    var c := a[..k + 1] + b[1..];
    forall i | 0 <= i && i + 1 < |c| ensures Step(c[i], c[i + 1]) {
      if i < k {
        assert c[i] == a[i] && c[i + 1] == a[i + 1];
      } else {
        assert c[i] == b[i - k] && c[i + 1] == b[i - k + 1];
      }
    }
  }

  lemma {:induction false} IdsGrow(ws: seq<World>, i: nat, j: nat)
    requires IsRun(ws) && i <= j < |ws|
    ensures ws[i].ids <= ws[j].ids
    ensures ws[j].file.Some? ==> ws[j].file.value.id in ws[j].ids
    decreases j
  {
    if i < j {
      IdsGrow(ws, i, j - 1);
      assert Step(ws[j - 1], ws[j - 1 + 1]);
    } else if j > 0 {
      IdsGrow(ws, j - 1, j - 1);
      assert Step(ws[j - 1], ws[j - 1 + 1]);
    }
  }

  /** The stage of one saved request never goes back, over any run. */
  lemma {:induction false} StageNeverGoesBack(ws: seq<World>, i: nat, j: nat)
    requires IsRun(ws) && i <= j < |ws| && ws[i].file.Some? && ws[j].file.Some?
    requires ws[i].file.value.id == ws[j].file.value.id
    ensures SameRequest(ws[i].file.value, ws[j].file.value) && Rank(ws[i].file.value) <= Rank(ws[j].file.value)
    decreases j
  {
    if i < j {
      IdsGrow(ws, 0, i);
      IdsGrow(ws, i, j - 1);
      assert Step(ws[j - 1], ws[j - 1 + 1]);
      assert ws[j - 1].file.Some? && ws[j - 1].file.value.id == ws[i].file.value.id;
      StageNeverGoesBack(ws, i, j - 1);
    }
  }

  /** A request that is committed on disk had its grant and its profile on disk when it was marked. */
  lemma {:induction false} CommittedWasInstalled(ws: seq<World>, j: nat) returns (i: nat)
    requires IsRun(ws) && j < |ws| && ws[j].file.Some? && ws[j].file.value.committed
    requires ws[0].file.Some? ==> !ws[0].file.value.committed
    ensures i <= j && ws[i].file.Some? && ws[i].file.value.id == ws[j].file.value.id
    ensures ws[i].file.value.committed && InstalledIn(ws[i], ws[i].file.value)
    decreases j
  {
    assert j > 0;
    assert Step(ws[j - 1], ws[j - 1 + 1]);
    if ws[j - 1].file.Some? && ws[j - 1].file.value.committed {
      i := CommittedWasInstalled(ws, j - 1);
    } else {
      i := j;
    }
  }

  /** Every acknowledgement of a run was sent while the request on disk was marked committed, and its grant
      and profile had been saved before. */
  lemma {:induction false} AckOnlyAfterCommit(ws: seq<World>, j: nat, m: nat) returns (sent: nat, i: nat)
    requires IsRun(ws) && j < |ws| && |ws[0].acks| <= m < |ws[j].acks|
    requires ws[0].file.Some? ==> !ws[0].file.value.committed
    ensures sent < j && AckIsDue(ws[sent], ws[j].acks[m])
    ensures i <= sent && ws[i].file.Some? && ws[i].file.value.id == ws[j].acks[m].requestId
    ensures InstalledIn(ws[i], ws[i].file.value) && ws[i].file.value.committed
    decreases j
  {
    assert j > 0;
    assert Step(ws[j - 1], ws[j - 1 + 1]);
    if m < |ws[j - 1].acks| {
      sent, i := AckOnlyAfterCommit(ws, j - 1, m);
    } else {
      sent := j - 1;
      i := CommittedWasInstalled(ws, sent);
    }
  }

  predicate PastWindow(p: Request, now: int) {
    now >= p.requestExpiresAt + RESULT_RETENTION_MS + EXPIRY_SKEW_MS
  }

  /** The request expires between the first and the last reading of the clock. */
  predicate LapsesMeanwhile(p: Request, first: int, last: int) {
    first < p.requestExpiresAt <= last
  }

  /** The refusals of an install that drop the saved approval: the result itself is wrong, and this machine's
      clock is not what refused it. */
  predicate DropsApproval(f: Refusal) {
    !(IsClockRefusal(f) && !IsPermanentRefusal(f)) && f.code in {BadGrant, GrantTooBroad, GrantIncomplete, GrantExpired, GrantTooLong}
  }

  /** A wrong clock never costs an approval: a refusal that speaks of time drops it only when the delegation
      names no expiry or that expiry is more than the tolerated difference past. */
  lemma ClockRefusalKeepsApproval(f: Refusal)
    requires IsClockRefusal(f)
    ensures DropsApproval(f) <==> f.signedExpiry.None? || f.signedExpiry.value + CLOCK_SKEW_MS < f.now
  {
  }

  predicate Mine(file: Option<Request>, want: Wanted) {
    file.Some? && file.value.issuer == want.issuer
  }

  /** How a matching request `q` that holds nothing is reused: handed out while it is open (or OpenKey says
      so), kept with the approval OpenKey has for it, kept while OpenKey cannot be asked; otherwise dropped,
      which needs a new request unless the clock was set back. */
  predicate Reused(q: Request, first: int, settle: int, last: int, answer: Discovery,
      file: Option<Request>, o: Option<Result<Request, Error>>)
  {
    if !RequestLapsed(q, first) then
      file == Some(q) && o == if RequestLapsed(q, last) then None else Some(Success(q))
    else if PastWindow(q, settle) then
      file == None && o == if RequestLapsed(q, last) then None else Some(Success(q))
    else match answer
      case StillOpen => file == Some(q) && o == Some(Success(q))
      case Ready(found) => file == Some(q.(found := Some(found))) && o == Some(Failure(AlreadyApproved))
      case Undiscovered(code) =>
        if code in {RequestExpired, NotFound} then
          file == None && o == if RequestLapsed(q, last) then None else Some(Success(q))
        else
          && o.Some? && o.value.Failure?
          && (code in {Network, Unavailable} ==> o.value.error == ApprovalUnavailable)
          && file == if code in {ResultExpired, Acknowledged} then None else Some(q)
  }

  /** The same for the whole of `init --request`. */
  ghost predicate Requested(q: Request, first: int, settle: int, last: int, answer: Discovery, created: Option<Request>,
      file: Option<Request>, r: Result<Request, Error>)
  {
    exists kept: Option<Request>, o: Option<Result<Request, Error>> ::
      && Reused(q, first, settle, last, answer, kept, o)
      && if o.Some? then r == o.value && file == kept
         else if created.Some? then r == Success(created.value) && file == created
         else r == Failure(LinkUnavailable) && file == kept
  }

  predicate Dropped(q: Request, file: Option<Request>) {
    file.None? || file.value.id != q.id
  }

  /** No result can be held any more, or OpenKey says so. */
  predicate NoResultExpected(q: Request, settle: int, answer: Discovery) {
    PastWindow(q, settle) || (answer.Undiscovered? && answer.code in {RequestExpired, NotFound, ResultExpired, Acknowledged})
  }

  /** When `init --request` lets go of a matching request that holds nothing: exactly when it had lapsed and no
      result is expected, or when it lapses between the two readings, in which case OpenKey is never asked. */
  lemma RequestDropsExactlyWhen(q: Request, first: int, settle: int, last: int, answer: Discovery, created: Request,
      file: Option<Request>, r: Result<Request, Error>)
    requires !HoldsApproval(q) && created.id != q.id && Requested(q, first, settle, last, answer, Some(created), file, r)
    ensures Dropped(q, file) <==>
      (RequestLapsed(q, first) && NoResultExpected(q, settle, answer)) || LapsesMeanwhile(q, first, last)
  {
  }

  /** A link that is handed out for a request no longer saved cannot be resumed: it happens exactly when the
      request was dropped and the clock was then set back before its expiry. */
  lemma HandedOutUnsavedExactlyWhen(q: Request, first: int, settle: int, last: int, answer: Discovery,
      file: Option<Request>, o: Option<Result<Request, Error>>)
    requires !HoldsApproval(q) && Reused(q, first, settle, last, answer, file, o)
    ensures o == Some(Success(q)) && file == None <==>
      && last < q.requestExpiresAt <= first
      && (PastWindow(q, settle) || (answer.Undiscovered? && answer.code in {RequestExpired, NotFound}))
  {
  }

  // ---------------------------------------------------------------- one command at a time

  class Home {
    /** The command's own copy of the request. */
    var pending: Request
    var file: Option<Request>
    var grant: Option<string>
    var profile: Option<string>
    var acks: seq<Ack>
    ghost var ids: set<nat>
    ghost var trail: seq<World>

    ghost function Now(): World
      reads this
    {
      World(file, grant, profile, acks, ids)
    }

    ghost predicate Valid()
      reads this
    {
      IsRun(trail) && trail[|trail| - 1] == Now()
    }

    /** The command's copy is what the file holds. */
    ghost predicate InStep()
      reads this
    {
      file == Some(pending)
    }

    constructor (file: Option<Request>, grant: Option<string>, profile: Option<string>, copy: Request)
      ensures Valid() && this.file == file && this.grant == grant && this.profile == profile && acks == []
      ensures trail == [Now()]
    {
      this.file, this.grant, this.profile, this.acks := file, grant, profile, [];
      this.pending := copy;
      this.ids := if file.Some? then {file.value.id} else {};
      new;
      trail := [Now()];
    }

    method SavePending()
      requires Valid() && Advances(Now(), pending)
      modifies this`file, this`trail
      ensures Valid() && InStep() && trail == old(trail) + [Now()]
    {
      file := Some(pending);
      RunExtends(trail, Now());
      trail := trail + [Now()];
    }

    method ClearPending()
      requires Valid()
      modifies this`file, this`trail
      ensures Valid() && file == None && trail == old(trail) + [Now()]
    {
      file := None;
      RunExtends(trail, Now());
      trail := trail + [Now()];
    }

    method SaveGrant(cid: string)
      requires Valid()
      modifies this`grant, this`trail
      ensures Valid() && grant == Some(cid) && trail == old(trail) + [Now()]
    {
      grant := Some(cid);
      RunExtends(trail, Now());
      trail := trail + [Now()];
    }

    method SaveProfile(cid: string)
      requires Valid() && grant == Some(cid)
      modifies this`profile, this`trail
      ensures Valid() && profile == Some(cid) && trail == old(trail) + [Now()]
    {
      profile := Some(cid);
      RunExtends(trail, Now());
      trail := trail + [Now()];
    }

    method SendAck()
      requires Valid() && InStep() && pending.committed && pending.found.Some?
      modifies this`acks, this`trail
      ensures Valid() && acks == old(acks) + [Ack(pending.id, pending.found.value.ref, pending.ackId)]
      ensures trail == old(trail) + [Now()]
    {
      acks := acks + [Ack(pending.id, pending.found.value.ref, pending.ackId)];
      RunExtends(trail, Now());
      trail := trail + [Now()];
    }

    // -------------------------------------------------------------- the request's fields

    method RecordResultRef(found: Found)
      modifies this`pending
      ensures pending == old(pending).(found := Some(found))
    {
      pending := pending.(found := Some(found));
    }

    method RecordResultEnvelope(relay: Relay)
      modifies this`pending
      ensures pending == old(pending).(relay := Some(relay))
    {
      pending := pending.(relay := Some(relay));
    }

    method MarkCommitted()
      modifies this`pending
      ensures pending == old(pending).(committed := true)
    {
      pending := pending.(committed := true);
    }

    // -------------------------------------------------------------- asking

    /** A lapsed request that holds nothing is asked about once; past the whole retention window it is not
        asked about at all. */
    method SettleLapsed(now: int, answer: Discovery) returns (r: Result<Settled, Error>)
      requires Valid() && InStep() && !HoldsApproval(pending)
      modifies this`pending, this`file, this`trail
      ensures Valid() && old(trail) <= trail
      ensures PastWindow(old(pending), now) ==> r == Success(Expired_) && file == old(file) && pending == old(pending)
      ensures !PastWindow(old(pending), now) ==> (match answer
        case StillOpen => r == Success(StillOpen_) && file == old(file) && pending == old(pending)
        case Ready(found) => r == Success(Approved) && InStep() && pending == old(pending).(found := Some(found))
        case Undiscovered(code) =>
          && pending == old(pending)
          && (if code in {RequestExpired, NotFound} then r == Success(Expired_) else r.Failure?)
          && (code in {Network, Unavailable} ==> r == Failure(ApprovalUnavailable))
          && file == if code in {ResultExpired, Acknowledged} then None else old(file))
    {
      if PastWindow(pending, now) {
        return Success(Expired_);
      }
      match answer
      case StillOpen => r := Success(StillOpen_);
      case Ready(found) =>
        RecordResultRef(found);
        SavePending();
        r := Success(Approved);
      case Undiscovered(code) =>
        if code == RequestExpired || code == NotFound {
          return Success(Expired_);
        }
        if code == Network || code == Unavailable {
          return Failure(ApprovalUnavailable);
        }
        var error := CollectFailure(code, false);
        r := Failure(error);
    }

    /** Drops the request after an answer that no later collection can change, and names the error. */
    method CollectFailure(code: Code, resultSeen: bool) returns (e: Error)
      requires Valid()
      modifies this`file, this`trail
      ensures Valid() && old(trail) <= trail
      ensures file == if code in {RequestExpired, NotFound, ResultExpired, Acknowledged} then None else old(file)
      ensures e == (match code
        case RequestExpired => ApprovalExpired
        case NotFound => if resultSeen then ResultGone else ApprovalExpired
        case ResultExpired => ResultGone
        case Acknowledged => ApprovalConsumed
        case RequestBinding => ApprovalRejected
        case _ => ApprovalUnavailable)
    {
      match code
      case RequestExpired =>
        ClearPending();
        e := ApprovalExpired;
      case NotFound =>
        ClearPending();
        e := if resultSeen then ResultGone else ApprovalExpired;
      case ResultExpired =>
        ClearPending();
        e := ResultGone;
      case Acknowledged =>
        ClearPending();
        e := ApprovalConsumed;
      case RequestBinding => e := ApprovalRejected;
      case _ => e := ApprovalUnavailable;
    }

    /** A new request is saved before its link is shown. `created` is the answer of the links API. */
    method CreatePending(want: Wanted, created: Option<Request>) returns (r: Result<Request, Error>)
      requires Valid() && MayReplace(Now(), want.issuer) && Offers(created, want)
      modifies this`pending, this`file, this`ids, this`trail
      ensures Valid() && old(trail) <= trail
      ensures created.None? ==> r == Failure(LinkUnavailable) && file == old(file) && pending == old(pending) && ids == old(ids)
      ensures created.Some? ==> r == Success(created.value) && InStep() && pending == created.value
    {
      if created.None? {
        return Failure(LinkUnavailable);
      }
      pending := created.value;
      file := Some(pending);
      ids := ids + {pending.id};
      RunExtends(trail, Now());
      trail := trail + [Now()];
      r := Success(pending);
    }

    /** What the links API creates: the wanted request, under an id it never used before. */
    ghost predicate Offers(created: Option<Request>, want: Wanted)
      reads this
    {
      created.Some? ==>
        && created.value.id !in ids && created.value.issuer == want.issuer && created.value.spec == want.spec
        && created.value.lifetime == want.lifetime && StageOf(created.value) == NoneHeld
    }

    /** What `init --request` does with a saved request of this issuer; `None` when a new one is to be made.
        The clock is read up to three times; `first` and `last` judge the lapse. */
    method ReuseSaved(want: Wanted, first: int, settle: int, last: int, answer: Discovery)
        returns (o: Option<Result<Request, Error>>)
      requires Valid() && InStep() && pending.issuer == want.issuer
      modifies this`pending, this`file, this`trail
      ensures Valid() && old(trail) <= trail
      ensures o.None? ==> MayReplace(Now(), want.issuer)
      ensures HoldsApproval(old(pending)) ==> o == Some(Failure(AlreadyApproved)) && file == old(file)
      ensures !HoldsApproval(old(pending)) && !Matches(old(pending), want) ==> o == None
      ensures !HoldsApproval(old(pending)) && Matches(old(pending), want) ==>
        Reused(old(pending), first, settle, last, answer, file, o)
    {
      if !HoldsApproval(pending) && RequestLapsed(pending, first) && Matches(pending, want) {
        var settled := SettleLapsed(settle, answer);
        if settled.Failure? {
          return Some(Failure(settled.error));
        }
        if settled.value == StillOpen_ {
          return Some(Success(pending));
        }
        if settled.value == Expired_ {
          ClearPending();
        }
      }
      if HoldsApproval(pending) {
        return Some(Failure(AlreadyApproved));
      }
      if Matches(pending, want) && !RequestLapsed(pending, last) {
        return Some(Success(pending));
      }
      o := None;
    }

    /** The whole of `init --request`: reuses what is saved for this issuer, and otherwise asks for a new link. */
    method RequestApproval(want: Wanted, first: int, settle: int, last: int, answer: Discovery, created: Option<Request>)
        returns (r: Result<Request, Error>)
      requires Valid() && Offers(created, want)
      modifies this`pending, this`file, this`ids, this`trail
      ensures Valid() && old(trail) <= trail
      // an approval is never replaced
      ensures Mine(old(file), want) && HoldsApproval(old(file).value) ==> r == Failure(AlreadyApproved) && file == old(file)
      // a matching request that holds nothing is handed out, settled, or replaced, as its lapse and the answer say
      ensures Mine(old(file), want) && !HoldsApproval(old(file).value) && Matches(old(file).value, want) ==>
        Requested(old(file).value, first, settle, last, answer, created, file, r)
      // a link that is handed out can be resumed, unless the clock was set back meanwhile
      ensures r.Success? && first <= last ==> file == Some(r.value) && StageOf(r.value) == NoneHeld && Matches(r.value, want)
    {
      if file.Some? && file.value.issuer == want.issuer {
        pending := file.value;
        var reused := ReuseSaved(want, first, settle, last, answer);
        if reused.Some? {
          return reused.value;
        }
      }
      r := CreatePending(want, created);
    }

    /** `init --wait`, up to the collection. */
    method WaitApproval(want: Wanted, now: int, settle: int, answer: Discovery, created: Option<Request>)
        returns (r: Result<bool, Error>)
      requires Valid() && Offers(created, want)
      modifies this`pending, this`file, this`ids, this`trail
      ensures Valid() && old(trail) <= trail
      ensures r.Success? ==> InStep()
      ensures old(file).Some? && old(file).value.issuer == want.issuer && HoldsApproval(old(file).value) ==>
        r == Success(true) && file == old(file)
      ensures r == Success(true) ==> old(file).Some? && SameRequest(old(file).value, pending)
      ensures Mine(old(file), want) && !HoldsApproval(old(file).value) && Matches(old(file).value, want) ==>
        (Dropped(old(file).value, file) <==> RequestLapsed(old(file).value, now) && NoResultExpected(old(file).value, settle, answer))
    {
      if file.Some? && file.value.issuer == want.issuer {
        pending := file.value;
        if HoldsApproval(pending) {
          return Success(true);
        }
        if Matches(pending, want) {
          if RequestLapsed(pending, now) {
            var settled := SettleLapsed(settle, answer);
            if settled.Failure? {
              return Failure(settled.error);
            }
            if settled.value == Expired_ {
              ClearPending();
              return Failure(ApprovalExpired);
            }
          }
          return Success(true);
        }
      }
      var fresh_ := CreatePending(want, created);
      r := if fresh_.Success? then Success(false) else Failure(fresh_.error);
    }

    // -------------------------------------------------------------- installing

    method InstallGrant(cid: string, how: Install) returns (o: Outcome)
      requires Valid()
      modifies this`grant, this`profile, this`trail
      ensures Valid() && old(trail) <= trail
      ensures o.Installed? || o.NoSpace? ==> grant == profile == Some(cid)
      ensures o.Installed? <==> how.ReadyAtOnce? || how.ReadyLater?
      ensures o.NoSpace? <==> how.SpaceMissing? || how.SpaceTimedOut?
      ensures how.Rejected? ==> grant == old(grant) && profile == old(profile)
      ensures o.Failed? ==> if how.Rejected? then o.refusal == how.refusal else o.refusal.code == OtherCode
    {
      if how.Rejected? {
        return Failed(how.refusal);
      }
      SaveGrant(cid);
      match how
      case ProbeFailed => o := Failed(Refusal(OtherCode, false, None, 0));
      case SpaceMissing =>
        SaveProfile(cid);
        o := NoSpace;
      case SpaceTimedOut =>
        SaveProfile(cid);
        o := NoSpace;
      case WaitFailed =>
        SaveProfile(cid);
        o := Failed(Refusal(OtherCode, false, None, 0));
      case ReadyAtOnce =>
        SaveProfile(cid);
        o := Installed;
      case ReadyLater =>
        SaveProfile(cid);
        SaveProfile(cid);
        o := Installed;
    }

    /** Acknowledges a saved grant; a failure keeps the request, so the acknowledgement can be retried. */
    method Acknowledge(answer: Option<Code>)
      requires Valid() && InStep() && pending.committed
      modifies this`file, this`acks, this`trail
      ensures Valid() && old(trail) <= trail
      ensures acks == old(acks) + if pending.found.Some? then [Ack(pending.id, pending.found.value.ref, pending.ackId)] else []
      ensures file == if pending.found.None? || answer in {None, Some(AckConflict)} then None else old(file)
    {
      if pending.found.None? {
        ClearPending();
        return;
      }
      SendAck();
      if answer == None || answer == Some(AckConflict) {
        ClearPending();
      }
    }

    /** Polls for the result and saves what it gets, encrypted, before any install work. */
    method Collect(collection: Collection) returns (r: Result<Completion, Error>)
      requires Valid() && InStep() && StageOf(pending) in {NoneHeld, Ref} && Fits(pending.found, collection)
      modifies this`pending, this`file, this`trail
      ensures Valid() && old(trail) <= trail
      ensures r == Success(Done) <==> collection.Result_?
      ensures r == Success(Done) ==>
        && InStep() && StageOf(pending) == Collected && pending.relay == Some(collection.relay)
        && pending.found == (if collection.found.Some? then collection.found else old(pending.found))
        && SameRequest(old(pending), pending)
      ensures r == Success(DeadlinePassed) <==> collection.Deadline?
      ensures collection.Deadline? ==> InStep()
      ensures !r.Success? ==> (file == None <==> collection.code in {RequestExpired, NotFound, ResultExpired, Acknowledged})
      ensures file.Some? ==> file == Some(pending) && SameRequest(old(pending), pending) && Rank(old(pending)) <= Rank(pending)
    {
      if collection.found.Some? {
        RecordResultRef(collection.found.value);
        SavePending();
      }
      match collection
      case Deadline(_) => r := Success(DeadlinePassed);
      case Uncollected(_, code) =>
        var error := CollectFailure(code, pending.found.Some?);
        r := Failure(error);
      case Result_(_, relay) =>
        RecordResultEnvelope(relay);
        SavePending();
        r := Success(Done);
    }

    /** The mark is on disk before the acknowledgement is sent. */
    method Commit(ack: Option<Code>)
      requires Valid() && InStep() && StageOf(pending) == Collected && InstalledIn(Now(), pending)
      modifies this`pending, this`file, this`acks, this`trail
      ensures Valid() && old(trail) <= trail
      ensures pending == old(pending).(committed := true) && file in {None, Some(pending)}
      ensures old(acks) <= acks && |acks| <= |old(acks)| + 1
    {
      MarkCommitted();
      SavePending();
      Acknowledge(ack);
    }

    /** Verifies and installs a collected result, marks it committed, and acknowledges it. */
    method InstallAndCommit(how: Install, ack: Option<Code>) returns (r: Result<Completion, Error>)
      requires Valid() && InStep() && StageOf(pending) == Collected
      modifies this`pending, this`file, this`grant, this`profile, this`acks, this`trail
      ensures Valid() && old(trail) <= trail
      ensures r.Success? ==> r.value == Done
      ensures r.Success? || r.error.SpaceNotReady? ==>
        && InstalledIn(Now(), pending) && pending == old(pending).(committed := true) && file in {None, Some(pending)}
        && old(acks) <= acks && |acks| <= |old(acks)| + 1
      ensures r.Failure? && !r.error.SpaceNotReady? ==> acks == old(acks) && pending == old(pending) && file in {None, old(file)}
      ensures old(pending).relay.value.opens.Failure? ==> r == Failure(ResultRefused) && file == None
      ensures old(pending).relay.value.opens.Success? && how.Rejected? ==>
        r == Failure(Refused(how.refusal.code)) && file == if DropsApproval(how.refusal) then None else old(file)
      ensures old(pending).relay.value.opens.Success? && (how.ProbeFailed? || how.WaitFailed?) ==> r.Failure? && file == old(file)
    {
      var verified := pending.relay.value.opens;
      if verified.Failure? {
        ClearPending();
        return Failure(ResultRefused);
      }
      var outcome := InstallGrant(verified.value, how);
      if outcome.Failed? {
        if DropsApproval(outcome.refusal) {
          ClearPending();
        }
        return Failure(Refused(outcome.refusal.code));
      }
      Commit(ack);
      r := if outcome.NoSpace? then Failure(SpaceNotReady) else Success(Done);
    }

    /** Collect, install, commit, acknowledge: resumable from the file alone at every step. */
    method CompleteApproval(collection: Collection, how: Install, ack: Option<Code>) returns (r: Result<Completion, Error>)
      requires Valid() && InStep() && Fits(pending.found, collection)
      modifies this`pending, this`file, this`grant, this`profile, this`acks, this`trail
      ensures Valid() && old(trail) <= trail
      ensures file.Some? ==> file == Some(pending) && SameRequest(old(pending), pending) && Rank(old(pending)) <= Rank(pending)
      // what is acknowledged is installed, and at most one acknowledgement is sent
      ensures old(acks) <= acks && |acks| <= |old(acks)| + 1
      ensures acks != old(acks) ==> pending.committed && (StageOf(old(pending)) == Committed || InstalledIn(Now(), pending))
      ensures r == Success(Done) ==> pending.committed && (StageOf(old(pending)) == Committed || InstalledIn(Now(), pending))
      // not approved in time: nothing is lost
      ensures r == Success(DeadlinePassed) ==> InStep() && acks == old(acks) && grant == old(grant) && profile == old(profile)
      // a collected result is not fetched again
      ensures StageOf(old(pending)) == Collected && pending.relay.Some? ==> pending.relay == old(pending).relay
    {
      if StageOf(pending) == Committed {
        Acknowledge(ack);
        return Success(Done);
      }
      if StageOf(pending) != Collected {
        var collected := Collect(collection);
        if collected != Success(Done) {
          return collected;
        }
      }
      r := InstallAndCommit(how, ack);
    }
  }

  // ---------------------------------------------------------------- dropping without asking

  /** OpenKey, at its own time `server`, may hold a result: it was approved before the request expired, is
      kept for the retention time, and this machine's clock is at most a minute away. */
  predicate MayHoldResult(p: Request, now: int, server: int, approvedAt: int) {
    && approvedAt <= p.requestExpiresAt && approvedAt <= server < approvedAt + RESULT_RETENTION_MS
    && now - EXPIRY_SKEW_MS <= server <= now + EXPIRY_SKEW_MS
  }

  /** The window is exact: a request is dropped without asking if and only if no result can be held. */
  lemma WindowIsExact(p: Request, now: int)
    ensures PastWindow(p, now) <==> forall server: int, approvedAt: int :: !MayHoldResult(p, now, server, approvedAt)
  {
    if !PastWindow(p, now) {
      var t := p.requestExpiresAt;
      var server := now - EXPIRY_SKEW_MS;
      assert MayHoldResult(p, now, server, if server < t then server else t);
    }
  }
}
