/** Key rotation as a redo journal over key.json, profile.json, grant.json, approval-pending.json and
    pending-grant.json, replayed by later commands after kills at any step. */
module Rotation {
  import opened Basics

  /** `proven`: the JWK is an Ed25519 key whose public part and did:key are those of its private part. */
  datatype AgentKey = AgentKey(did: string, proven: bool)

  datatype ProfileStatus = AwaitingGrant | AwaitingSpace | Ready

  /** `complete`: all fields of a current profile are there. A rotation's new profile has no peers, so its
      save drops none. */
  datatype StoredProfile = StoredProfile(did: string, status: ProfileStatus, complete: bool)

  /** A redeemed delegation saved before its install; `boundTo` is the did of the key it was made for. */
  datatype Redeemed = Redeemed(cid: string, expiresAt: int, boundTo: string)

  datatype Stage = Open | Ref | Collected | Committed

  /** The saved approval request; `cid` is the delegation its collected result names, when it can be read. */
  datatype Approval = Approval(requestId: string, stage: Stage, cid: Option<string>)

  datatype Journal = Journal(
    key: AgentKey,
    profile: StoredProfile,
    discardApproval: bool,
    grantedResult: bool,
    delegation: Option<string>,
    discarded: seq<string>,
    unmatched: seq<string>,
    installed: Option<string>)

  datatype Notice =
    | ApprovalDiscarded
    | ApprovalWasGranted(named: Option<string>)
    | RedeemedDiscarded(cid: string)
    | RedeemedKept(cid: string)
    | InstalledRemoved(cid: string)

  /** What is on disk, and what has been printed. `grant` is the cid grant.json names, if any. */
  datatype Disk = Disk(
    key: Option<AgentKey>,
    profile: Option<StoredProfile>,
    grant: Option<string>,
    approval: Option<Approval>,
    redeemed: seq<Redeemed>,
    journal: Option<Journal>,
    printed: seq<Notice>)

  function Live(rs: seq<Redeemed>, now: int): seq<Redeemed> {
    if rs == [] then []
    else (if rs[0].expiresAt > now then [rs[0]] else []) + Live(rs[1..], now)
  }

  function Without(rs: seq<Redeemed>, cids: set<string>): seq<Redeemed> {
    if rs == [] then []
    else (if rs[0].cid in cids then [] else [rs[0]]) + Without(rs[1..], cids)
  }

  function Elements(cids: seq<string>): set<string> {
    set c | c in cids
  }

  // ---------------------------------------------------------------- the journal

  /** The cids of live redeemed delegations bound to `did`; those that name no cid are not listed. */
  function BoundCids(rs: seq<Redeemed>, did: string, now: int): seq<string> {
    if rs == [] then []
    else (if rs[0].expiresAt > now && rs[0].boundTo == did && rs[0].cid != "" then [rs[0].cid] else []) +
         BoundCids(rs[1..], did, now)
  }

  function LiveCids(rs: seq<Redeemed>, now: int): seq<string> {
    if rs == [] then []
    else (if rs[0].expiresAt > now && rs[0].cid != "" then [rs[0].cid] else []) + LiveCids(rs[1..], now)
  }

  predicate HoldsApproval(a: Option<Approval>) {
    a.Some? && a.value.stage != Open
  }

  /** The record of a rotation to `key` and `profile`, with the facts about what it discards. `d.key` is
      absent when key.json is unreadable, and then no delegation is known to be the old key's and none is dropped. */
  function MakeJournal(d: Disk, key: AgentKey, profile: StoredProfile, now: int): Journal {
    var held := HoldsApproval(d.approval);
    var granted := held && d.approval.value.stage != Ref;
    Journal(key, profile, held, granted,
            if granted then d.approval.value.cid else None,
            if d.key.Some? then BoundCids(d.redeemed, d.key.value.did, now) else [],
            if d.key.None? then LiveCids(d.redeemed, now) else [],
            if d.grant == Some("") then None else d.grant)
  }

  predicate ValidJournal(j: Journal) {
    && j.key.proven && j.profile.complete && j.profile.status == AwaitingGrant
    && j.profile.did == j.key.did
    && (forall i :: 0 <= i < |j.discarded| ==> j.discarded[i] != "")
    && (forall i :: 0 <= i < |j.unmatched| ==> j.unmatched[i] != "")
    && j.installed != Some("")
  }

  function Notices(j: Journal): seq<Notice> {
    (if j.discardApproval then [ApprovalDiscarded] else []) +
    (if j.discardApproval && j.grantedResult then [ApprovalWasGranted(j.delegation)] else []) +
    seq(|j.discarded|, i requires 0 <= i < |j.discarded| => RedeemedDiscarded(j.discarded[i])) +
    seq(|j.unmatched|, i requires 0 <= i < |j.unmatched| => RedeemedKept(j.unmatched[i])) +
    (if j.installed.Some? then [InstalledRemoved(j.installed.value)] else [])
  }

  // ---------------------------------------------------------------- one replay

  datatype Effect = SaveKey | SaveProfile | RemoveGrant | ClearApproval | Drop(cid: string) | Warn | Unlink

  /** The durable effects of one replay, in order. */
  function Plan(j: Journal): seq<Effect> {
    [SaveKey, SaveProfile, RemoveGrant] +
    (if j.discardApproval then [ClearApproval] else []) +
    seq(|j.discarded|, i requires 0 <= i < |j.discarded| => Drop(j.discarded[i])) +
    [Warn, Unlink]
  }

  /** One effect. A drop also forgets records that have expired by then. */
  function Do(d: Disk, j: Journal, e: Effect, now: int): Disk {
    match e
    case SaveKey => d.(key := Some(j.key))
    case SaveProfile => d.(profile := Some(j.profile))
    case RemoveGrant => d.(grant := None)
    case ClearApproval => d.(approval := None)
    case Drop(c) => d.(redeemed := Without(Live(d.redeemed, now), {c}))
    case Warn => d.(printed := d.printed + Notices(j))
    case Unlink => d.(journal := None)
  }

  function DoAll(d: Disk, j: Journal, es: seq<Effect>, clock: nat -> int): Disk
    decreases |es|
  {
    if es == [] then d else Do(DoAll(d, j, es[..|es| - 1], clock), j, es[|es| - 1], clock(|es| - 1))
  }

  /** One process that replays: it is killed after `steps` effects (or finishes). `clock(i)` is the time
      it reads at effect `i`. */
  datatype Attempt = Attempt(steps: nat, clock: nat -> int)

  predicate Finishes(a: Attempt, j: Journal) {
    a.steps >= |Plan(j)|
  }

  function Done(a: Attempt, j: Journal): seq<Effect> {
    if a.steps < |Plan(j)| then Plan(j)[..a.steps] else Plan(j)
  }

  function Replay(d: Disk, j: Journal, a: Attempt): Disk {
    DoAll(d, j, Done(a, j), a.clock)
  }

  /** Roll an interrupted rotation forward; without a journal there is nothing to do, and a record that
      is not a valid rotation is refused, changing nothing. */
  function Finish(d: Disk, a: Attempt): Disk {
    if d.journal.None? || !ValidJournal(d.journal.value) then d else Replay(d, d.journal.value, a)
  }

  // ---------------------------------------------------------------- replay, step by step

  function After(d: Disk, j: Journal, clock: nat -> int, n: nat): Disk
    requires n <= |Plan(j)|
  {
    DoAll(d, j, Plan(j)[..n], clock)
  }

  /** How many effects come before the drops. */
  function Fixed(j: Journal): (n: nat)
    ensures |Plan(j)| == n + |j.discarded| + 2
  {
    if j.discardApproval then 4 else 3
  }

  lemma AfterStep(d: Disk, j: Journal, clock: nat -> int, n: nat)
    requires n < |Plan(j)|
    ensures After(d, j, clock, n + 1) == Do(After(d, j, clock, n), j, Plan(j)[n], clock(n))
  {
    assert Plan(j)[..n + 1][..n] == Plan(j)[..n];
  }

  lemma PlanDrops(j: Journal, i: nat)
    requires i < |j.discarded|
    ensures Plan(j)[Fixed(j) + i] == Drop(j.discarded[i])
  {
  }

  lemma PlanEnds(j: Journal)
    ensures var n := Fixed(j) + |j.discarded|; |Plan(j)| == n + 2 && Plan(j)[n] == Warn && Plan(j)[n + 1] == Unlink
  {
  }

  lemma ReplayIsAfter(d: Disk, j: Journal, a: Attempt)
    ensures Replay(d, j, a) == After(d, j, a.clock, if Finishes(a, j) then |Plan(j)| else a.steps)
  {
    assert Plan(j)[..|Plan(j)|] == Plan(j);
  }

  // ---------------------------------------------------------------- the files of one agent

  class Home {
    var key: Option<AgentKey>
    var profile: Option<StoredProfile>
    var grant: Option<string>
    var approval: Option<Approval>
    var redeemed: seq<Redeemed>
    var journal: Option<Journal>
    var printed: seq<Notice>

    function OnDisk(): Disk
      reads this
    {
      Disk(key, profile, grant, approval, redeemed, journal, printed)
    }

    method DropPendingDelegation(cid: string, now: int)
      modifies this`redeemed
      ensures redeemed == Without(Live(old(redeemed), now), {cid})
    {
      var records := Live(redeemed, now);
      redeemed := Without(records, {cid});
    }

    /** Replaces the key and the profile and removes the grant and the discarded approval. `n` counts the
        effects done; the process stops once it has done `a.steps`. */
    method ReplaceFiles(j: Journal, a: Attempt, ghost d: Disk) returns (n: nat)
      requires OnDisk() == d
      modifies this
      ensures n == if a.steps < Fixed(j) then a.steps else Fixed(j)
      ensures n <= |Plan(j)| && OnDisk() == After(d, j, a.clock, n)
    {
      n := 0;
      if n < a.steps {
        key := Some(j.key);
        AfterStep(d, j, a.clock, n);
        n := n + 1;
      }
      if n < a.steps {
        profile := Some(j.profile);
        AfterStep(d, j, a.clock, n);
        n := n + 1;
      }
      if n < a.steps {
        grant := None;
        AfterStep(d, j, a.clock, n);
        n := n + 1;
      }
      if n < a.steps && j.discardApproval {
        approval := None;
        AfterStep(d, j, a.clock, n);
        n := n + 1;
      }
    }

    /** The drop of the `i`-th discarded delegation. */
    method DropNext(j: Journal, i: nat, a: Attempt, ghost d: Disk)
      requires i < |j.discarded| && OnDisk() == After(d, j, a.clock, Fixed(j) + i)
      modifies this`redeemed
      ensures OnDisk() == After(d, j, a.clock, Fixed(j) + i + 1)
    {
      PlanDrops(j, i);
      AfterStep(d, j, a.clock, Fixed(j) + i);
      DropPendingDelegation(j.discarded[i], a.clock(Fixed(j) + i));
    }

    /** Drops the redeemed delegations of the old key, one by one. */
    method DropDiscarded(j: Journal, a: Attempt, ghost d: Disk) returns (n: nat)
      requires Fixed(j) <= a.steps && OnDisk() == After(d, j, a.clock, Fixed(j))
      modifies this`redeemed
      ensures n == if a.steps < Fixed(j) + |j.discarded| then a.steps else Fixed(j) + |j.discarded|
      ensures OnDisk() == After(d, j, a.clock, n)
    {
      n := Fixed(j);
      for i := 0 to |j.discarded|
        invariant n == Fixed(j) + i <= a.steps
        invariant OnDisk() == After(d, j, a.clock, n)
      {
        if n == a.steps { return; }
        DropNext(j, i, a, d);
        n := n + 1;
      }
    }

    /** Prints the warnings, then removes the journal: its only deletion. */
    method WarnAndUnlink(j: Journal, a: Attempt, ghost d: Disk)
      requires a.steps > Fixed(j) + |j.discarded| && OnDisk() == After(d, j, a.clock, Fixed(j) + |j.discarded|)
      modifies this`printed, this`journal
      ensures OnDisk() == After(d, j, a.clock, if Finishes(a, j) then |Plan(j)| else a.steps)
    {
      ghost var n := Fixed(j) + |j.discarded|;
      PlanEnds(j);
      printed := printed + Notices(j);
      AfterStep(d, j, a.clock, n);
      if Fixed(j) + |j.discarded| + 1 == a.steps { return; }
      journal := None;
      AfterStep(d, j, a.clock, n + 1);
    }

    /** The replay; `finished` when the process lived to remove the journal. */
    method ApplyRotation(j: Journal, a: Attempt) returns (finished: bool)
      modifies this
      ensures OnDisk() == Replay(old(OnDisk()), j, a)
      ensures finished <==> Finishes(a, j)
    {
      ghost var d := OnDisk();
      ReplayIsAfter(d, j, a);
      var n := ReplaceFiles(j, a, d);
      if n == a.steps { return false; }
      n := DropDiscarded(j, a, d);
      if n == a.steps { return false; }
      WarnAndUnlink(j, a, d);
      finished := a.steps >= Fixed(j) + |j.discarded| + 2;
    }

    /** Writes the journal, then replays it. Killed before the journal is in place, nothing changes. */
    method RotateKey(newKey: AgentKey, newProfile: StoredProfile, now: int, placed: bool, a: Attempt)
      modifies this
      ensures !placed ==> OnDisk() == old(OnDisk())
      ensures placed ==>
        var j := MakeJournal(old(OnDisk()), newKey, newProfile, now);
        OnDisk() == Replay(old(OnDisk()).(journal := Some(j)), j, a)
    {
      if !placed { return; }
      var j := MakeJournal(OnDisk(), newKey, newProfile, now);
      journal := Some(j);
      var finished := ApplyRotation(j, a);
    }

    method FinishRotation(a: Attempt) returns (r: Result<bool, string>)
      modifies this
      ensures OnDisk() == Finish(old(OnDisk()), a)
      ensures r == if old(journal).None? then Success(false)
                   else if !ValidJournal(old(journal).value) then Failure("bad-profile") else Success(true)
    {
      if journal.None? {
        return Success(false);
      }
      if !ValidJournal(journal.value) {
        return Failure("bad-profile");
      }
      var finished := ApplyRotation(journal.value, a);
      r := Success(true);
    }
  }

  // ---------------------------------------------------------------- redeemed records

  lemma {:induction false} LiveLive(rs: seq<Redeemed>, early: int, late: int)
    requires early <= late
    ensures Live(Live(rs, early), late) == Live(rs, late)
  {
    if rs != [] {
      LiveLive(rs[1..], early, late);
      var l := Live(rs[1..], early);
      if rs[0].expiresAt > early {
        assert ([rs[0]] + l)[1..] == l;
      } else {
        assert [] + l == l;
      }
    }
  }

  lemma {:induction false} LiveWithout(rs: seq<Redeemed>, cids: set<string>, now: int)
    ensures Live(Without(rs, cids), now) == Without(Live(rs, now), cids)
  {
    if rs != [] {
      LiveWithout(rs[1..], cids, now);
      var (w, l) := (Without(rs[1..], cids), Live(rs[1..], now));
      assert ([rs[0]] + w)[1..] == w && ([rs[0]] + l)[1..] == l && [] + w == w && [] + l == l;
    }
  }

  lemma {:induction false} WithoutWithout(rs: seq<Redeemed>, a: set<string>, b: set<string>)
    ensures Without(Without(rs, a), b) == Without(rs, a + b)
  {
    if rs != [] {
      WithoutWithout(rs[1..], a, b);
      var w := Without(rs[1..], a);
      assert ([rs[0]] + w)[1..] == w && [] + w == w;
    }
  }

  lemma {:induction false} WithoutNothing(rs: seq<Redeemed>)
    ensures Without(rs, {}) == rs
  {
    if rs != [] {
      WithoutNothing(rs[1..]);
    }
  }

  /** Seen at any time from `t` on, `now` holds the records of `before` without `cids`. */
  ghost predicate DroppedFrom(before: seq<Redeemed>, now: seq<Redeemed>, cids: set<string>, t: int) {
    forall u: int :: u >= t ==> Live(now, u) == Without(Live(before, u), cids)
  }

  lemma OneMoreDropped(before: seq<Redeemed>, rs: seq<Redeemed>, cids: set<string>, c: string, now: int, t: int)
    requires DroppedFrom(before, rs, cids, t) && now <= t
    ensures DroppedFrom(before, Without(Live(rs, now), {c}), cids + {c}, t)
  {
    forall u: int | u >= t
      ensures Live(Without(Live(rs, now), {c}), u) == Without(Live(before, u), cids + {c})
    {
      LiveWithout(Live(rs, now), {c}, u);
      LiveLive(rs, now, u);
      WithoutWithout(Live(before, u), cids, {c});
    }
  }

  // ---------------------------------------------------------------- crash atomicity

  ghost predicate NotAfter(a: Attempt, t: int) {
    forall i: nat :: a.clock(i) <= t
  }

  predicate EndsWith(log: seq<Notice>, last: seq<Notice>) {
    |last| <= |log| && log[|log| - |last|..] == last
  }

  /** Where a rotation recorded in `j`, begun on `d`, may stand while its journal is on disk: each file
      is still the old one or already the new one, and of the redeemed records some of those to be
      discarded are gone. `t` is no earlier than any clock reading so far. */
  ghost predicate Underway(d: Disk, j: Journal, s: Disk, t: int) {
    && s.journal == Some(j)
    && (s.key == d.key || s.key == Some(j.key))
    && (s.profile == d.profile || s.profile == Some(j.profile))
    && (s.grant == d.grant || s.grant == None)
    && (s.approval == d.approval || (j.discardApproval && s.approval == None))
    && (exists gone: set<string> :: gone <= Elements(j.discarded) && DroppedFrom(d.redeemed, s.redeemed, gone, t))
  }

  /** Where it must end: every file as the journal says, the warnings printed. */
  ghost predicate Complete(d: Disk, j: Journal, s: Disk, t: int) {
    && s.journal == None
    && s.key == Some(j.key) && s.profile == Some(j.profile) && s.grant == None
    && s.approval == (if j.discardApproval then None else d.approval)
    && DroppedFrom(d.redeemed, s.redeemed, Elements(j.discarded), t)
    && EndsWith(s.printed, Notices(j))
  }

  /** What `n` effects of a replay have done, wherever it started from. */
  ghost predicate Progress(d: Disk, j: Journal, s: Disk, n: nat, t: int) {
    var c := Fixed(j);
    && Underway(d, j, s.(journal := Some(j)), t)
    && (n >= 1 ==> s.key == Some(j.key))
    && (n >= 2 ==> s.profile == Some(j.profile))
    && (n >= 3 ==> s.grant == None)
    && (n >= c && j.discardApproval ==> s.approval == None)
    && (n >= c ==> exists gone: set<string> ::
          Elements(j.discarded[..if n - c < |j.discarded| then n - c else |j.discarded|]) <= gone <= Elements(j.discarded)
          && DroppedFrom(d.redeemed, s.redeemed, gone, t))
    && (n >= c + |j.discarded| + 1 ==> EndsWith(s.printed, Notices(j)))
    && s.journal == if n == |Plan(j)| then None else Some(j)
  }

  lemma FileStep(d: Disk, j: Journal, s: Disk, n: nat, now: int, t: int)
    requires Progress(d, j, s, n, t) && n < Fixed(j)
    ensures Progress(d, j, Do(s, j, Plan(j)[n], now), n + 1, t)
  {
    if n + 1 == Fixed(j) {
      assert j.discarded[..0] == [];
    }
  }

  lemma DropStep(d: Disk, j: Journal, s: Disk, m: nat, now: int, t: int)
    requires Progress(d, j, s, Fixed(j) + m, t) && m < |j.discarded| && now <= t
    ensures Progress(d, j, Do(s, j, Drop(j.discarded[m]), now), Fixed(j) + m + 1, t)
  {
    var gone: set<string> :| Elements(j.discarded[..m]) <= gone <= Elements(j.discarded)
      && DroppedFrom(d.redeemed, s.redeemed, gone, t);
    OneMoreDropped(d.redeemed, s.redeemed, gone, j.discarded[m], now, t);
    var more := gone + {j.discarded[m]};
    assert j.discarded[..m + 1] == j.discarded[..m] + [j.discarded[m]];
    assert Elements(j.discarded[..m + 1]) <= more <= Elements(j.discarded);
    var u := Do(s, j, Drop(j.discarded[m]), now);
    assert DroppedFrom(d.redeemed, u.redeemed, more, t);
  }

  lemma EndStep(d: Disk, j: Journal, s: Disk, n: nat, now: int, t: int)
    requires Progress(d, j, s, n, t) && Fixed(j) + |j.discarded| <= n < |Plan(j)|
    ensures Progress(d, j, Do(s, j, Plan(j)[n], now), n + 1, t)
  {
  }

  lemma ProgressStep(d: Disk, j: Journal, s: Disk, n: nat, now: int, t: int)
    requires Progress(d, j, s, n, t) && n < |Plan(j)| && now <= t
    ensures Progress(d, j, Do(s, j, Plan(j)[n], now), n + 1, t)
  {
    if n < Fixed(j) {
      FileStep(d, j, s, n, now, t);
    } else if n < Fixed(j) + |j.discarded| {
      DropStep(d, j, s, n - Fixed(j), now, t);
    } else {
      EndStep(d, j, s, n, now, t);
    }
  }

  lemma {:induction false} ReplayFromUnderway(d: Disk, j: Journal, s: Disk, a: Attempt, n: nat, t: int)
    requires Underway(d, j, s, t) && n <= |Plan(j)| && NotAfter(a, t)
    ensures Progress(d, j, After(s, j, a.clock, n), n, t)
  {
    if n == 0 {
      assert Plan(j)[..0] == [];
    } else {
      ReplayFromUnderway(d, j, s, a, n - 1, t);
      AfterStep(s, j, a.clock, n - 1);
      ProgressStep(d, j, After(s, j, a.clock, n - 1), n - 1, a.clock(n - 1), t);
    }
  }

  lemma AllProgressIsComplete(d: Disk, j: Journal, s: Disk, t: int)
    requires Progress(d, j, s, |Plan(j)|, t)
    ensures Complete(d, j, s, t)
  {
    var c := Fixed(j);
    var all := Elements(j.discarded);
    assert j.discarded[..|j.discarded|] == j.discarded;
    var gone: set<string> :| all <= gone <= all && DroppedFrom(d.redeemed, s.redeemed, gone, t);
    assert gone == all;
  }

  /** A replay from anywhere underway leaves the disk underway, or, if it is not killed, complete. */
  lemma ReplayMovesOn(d: Disk, j: Journal, s: Disk, a: Attempt, t: int)
    requires Underway(d, j, s, t) && NotAfter(a, t)
    ensures if Finishes(a, j) then Complete(d, j, Replay(s, j, a), t) else Underway(d, j, Replay(s, j, a), t)
  {
    var n := if Finishes(a, j) then |Plan(j)| else a.steps;
    assert Plan(j)[..|Plan(j)|] == Plan(j);
    ReplayFromUnderway(d, j, s, a, n, t);
    if Finishes(a, j) {
      AllProgressIsComplete(d, j, Replay(s, j, a), t);
    } else {
      assert Replay(s, j, a) == Replay(s, j, a).(journal := Some(j));
    }
  }

  /** Later commands, each recovering first; each may be killed at any effect. */
  function FinishAll(s: Disk, attempts: seq<Attempt>): Disk
    decreases |attempts|
  {
    if attempts == [] then s else FinishAll(Finish(s, attempts[0]), attempts[1..])
  }

  predicate SomeFinishes(attempts: seq<Attempt>, j: Journal) {
    exists i :: 0 <= i < |attempts| && Finishes(attempts[i], j)
  }

  lemma {:induction false} NothingToFinish(s: Disk, attempts: seq<Attempt>)
    requires s.journal.None?
    ensures FinishAll(s, attempts) == s
    decreases |attempts|
  {
    if attempts != [] {
      NothingToFinish(s, attempts[1..]);
    }
  }

  lemma {:induction false} RecoveriesMoveOn(d: Disk, j: Journal, s: Disk, attempts: seq<Attempt>, t: int)
    requires ValidJournal(j) && Underway(d, j, s, t)
    requires forall i :: 0 <= i < |attempts| ==> NotAfter(attempts[i], t)
    ensures if SomeFinishes(attempts, j) then Complete(d, j, FinishAll(s, attempts), t)
            else Underway(d, j, FinishAll(s, attempts), t)
    decreases |attempts|
  {
    if attempts != [] {
      var u := Finish(s, attempts[0]);
      ReplayMovesOn(d, j, s, attempts[0], t);
      if Finishes(attempts[0], j) {
        NothingToFinish(u, attempts[1..]);
      } else {
        RecoveriesMoveOn(d, j, u, attempts[1..], t);
        assert SomeFinishes(attempts, j) <==> SomeFinishes(attempts[1..], j) by {
          assert forall i :: 0 < i < |attempts| ==> attempts[i] == attempts[1..][i - 1];
          if SomeFinishes(attempts[1..], j) {
            var i :| 0 <= i < |attempts[1..]| && Finishes(attempts[1..][i], j);
            assert Finishes(attempts[i + 1], j);
          }
        }
      }
    }
  }

  // ---------------------------------------------------------------- the rotation as a whole

  predicate FitsKey(key: AgentKey, profile: StoredProfile) {
    key.proven && profile.complete && profile.status == AwaitingGrant && profile.did == key.did
  }

  lemma {:induction false} BoundCidsAreNamed(rs: seq<Redeemed>, did: string, now: int)
    ensures "" !in BoundCids(rs, did, now) && "" !in LiveCids(rs, now)
  {
    if rs != [] {
      BoundCidsAreNamed(rs[1..], did, now);
    }
  }

  /** Every journal a rotation writes is one a recovery accepts. */
  lemma OwnJournalIsAccepted(d: Disk, key: AgentKey, profile: StoredProfile, now: int)
    requires FitsKey(key, profile)
    ensures ValidJournal(MakeJournal(d, key, profile, now))
  {
    BoundCidsAreNamed(d.redeemed, if d.key.Some? then d.key.value.did else "", now);
  }

  /** The disk just after the journal is in place. */
  function Placed(d: Disk, j: Journal): Disk {
    d.(journal := Some(j))
  }

  lemma PlacedIsUnderway(d: Disk, j: Journal, t: int)
    ensures Underway(d, j, Placed(d, j), t)
  {
    forall u: int | u >= t ensures Live(d.redeemed, u) == Without(Live(d.redeemed, u), {}) {
      WithoutNothing(Live(d.redeemed, u));
    }
    assert DroppedFrom(d.redeemed, d.redeemed, {}, t);
  }

  /** The same in every file; the redeemed records differ at most in records expired by `t`. */
  ghost predicate SameOutcome(a: Disk, b: Disk, t: int) {
    && a.journal == b.journal && a.key == b.key && a.profile == b.profile && a.grant == b.grant && a.approval == b.approval
    && forall u: int :: u >= t ==> Live(a.redeemed, u) == Live(b.redeemed, u)
  }

  /** Crash atomicity: whatever kills the rotation and the recoveries after it, once one of them finishes,
      all files are as an uninterrupted rotation (`whole`) leaves them, the journal is gone and the warnings
      are printed; until then the journal is on disk. */
  lemma {:induction false} RotationIsCrashAtomic(d: Disk, key: AgentKey, profile: StoredProfile, now: int, j: Journal,
      attempts: seq<Attempt>, whole: Attempt, t: int)
    requires FitsKey(key, profile) && j == MakeJournal(d, key, profile, now)
    requires NotAfter(whole, t) && Finishes(whole, j)
    requires forall i :: 0 <= i < |attempts| ==> NotAfter(attempts[i], t)
    ensures var s := FinishAll(Placed(d, j), attempts);
      if SomeFinishes(attempts, j)
      then s.journal.None? && SameOutcome(s, Replay(Placed(d, j), j, whole), t) && EndsWith(s.printed, Notices(j))
      else Underway(d, j, s, t)
  {
    OwnJournalIsAccepted(d, key, profile, now);
    PlacedIsUnderway(d, j, t);
    RecoveriesMoveOn(d, j, Placed(d, j), attempts, t);
    ReplayMovesOn(d, j, Placed(d, j), whole, t);
    if SomeFinishes(attempts, j) {
      CompleteIsSame(d, j, FinishAll(Placed(d, j), attempts), Replay(Placed(d, j), j, whole), t);
    }
  }

  /** All complete disks are the same outcome. */
  lemma CompleteIsSame(d: Disk, j: Journal, a: Disk, b: Disk, t: int)
    requires Complete(d, j, a, t) && Complete(d, j, b, t)
    ensures SameOutcome(a, b, t)
  {
    forall u: int | u >= t ensures Live(a.redeemed, u) == Live(b.redeemed, u) {
      assert Live(a.redeemed, u) == Without(Live(d.redeemed, u), Elements(j.discarded));
    }
  }

  /** Nothing the old key did not own is dropped: a live redeemed delegation survives a completed rotation
      exactly when no journalled cid names it; with an unreadable key all of them survive. */
  lemma OtherDelegationsSurvive(d: Disk, key: AgentKey, profile: StoredProfile, now: int, s: Disk, t: int, r: Redeemed)
    requires var j := MakeJournal(d, key, profile, now); Complete(d, j, s, t)
    requires r.expiresAt > t
    ensures r in s.redeemed <==> r in d.redeemed && r.cid !in MakeJournal(d, key, profile, now).discarded
    ensures d.key.None? ==> (r in s.redeemed <==> r in d.redeemed)
  {
    var j := MakeJournal(d, key, profile, now);
    LiveHas(s.redeemed, t, r);
    LiveHas(d.redeemed, t, r);
    WithoutHas(Live(d.redeemed, t), Elements(j.discarded), r);
    assert Live(s.redeemed, t) == Without(Live(d.redeemed, t), Elements(j.discarded));
  }

  lemma {:induction false} LiveHas(rs: seq<Redeemed>, now: int, r: Redeemed)
    ensures r in Live(rs, now) <==> r in rs && r.expiresAt > now
  {
    if rs != [] {
      LiveHas(rs[1..], now, r);
      assert rs == [rs[0]] + rs[1..];
    }
  }

  lemma {:induction false} WithoutHas(rs: seq<Redeemed>, cids: set<string>, r: Redeemed)
    ensures r in Without(rs, cids) <==> r in rs && r.cid !in cids
  {
    if rs != [] {
      WithoutHas(rs[1..], cids, r);
      assert rs == [rs[0]] + rs[1..];
    }
  }

  lemma {:induction false} BoundCidsAre(rs: seq<Redeemed>, did: string, now: int, c: string)
    ensures c in BoundCids(rs, did, now) <==> c != "" && exists r :: r in rs && r.expiresAt > now && r.boundTo == did && r.cid == c
  {
    if rs != [] {
      BoundCidsAre(rs[1..], did, now, c);
      assert rs == [rs[0]] + rs[1..];
    }
  }

  /** A record that is refused changes nothing, however often it is tried. */
  lemma {:induction false} InvalidJournalChangesNothing(s: Disk, attempts: seq<Attempt>)
    requires s.journal.Some? && !ValidJournal(s.journal.value)
    ensures FinishAll(s, attempts) == s
    decreases |attempts|
  {
    if attempts != [] {
      InvalidJournalChangesNothing(s, attempts[1..]);
    }
  }

  lemma {:induction false} LiveCidsAre(rs: seq<Redeemed>, now: int, c: string)
    ensures c in LiveCids(rs, now) <==> c != "" && exists r :: r in rs && r.expiresAt > now && r.cid == c
  {
    if rs != [] {
      LiveCidsAre(rs[1..], now, c);
      assert rs == [rs[0]] + rs[1..];
    }
  }

  /** What a rotation discards: the live redeemed delegations bound to the old key, when that can be read;
      otherwise none, and all live ones are reported as kept. A held approval is discarded too. */
  lemma JournalListsWhatIsDiscarded(d: Disk, key: AgentKey, profile: StoredProfile, now: int, c: string)
    ensures var j := MakeJournal(d, key, profile, now);
      && (d.key.Some? ==> j.unmatched == [] && (c in j.discarded <==>
            c != "" && exists r :: r in d.redeemed && r.expiresAt > now && r.boundTo == d.key.value.did && r.cid == c))
      && (d.key.None? ==> j.discarded == [] && (c in j.unmatched <==>
            c != "" && exists r :: r in d.redeemed && r.expiresAt > now && r.cid == c))
      && (j.discardApproval <==> d.approval.Some? && d.approval.value.stage != Open)
      && (j.grantedResult <==> d.approval.Some? && d.approval.value.stage in {Collected, Committed})
  {
    LiveCidsAre(d.redeemed, now, c);
    if d.key.Some? {
      BoundCidsAre(d.redeemed, d.key.value.did, now, c);
    }
  }

  /** The warnings name everything the journal discards or removes, and what it keeps, and nothing else. */
  lemma NoticesNameWhatGoes(j: Journal, n: Notice)
    ensures n in Notices(j) <==> match n
      case ApprovalDiscarded => j.discardApproval
      case ApprovalWasGranted(named) => j.discardApproval && j.grantedResult && named == j.delegation
      case RedeemedDiscarded(c) => c in j.discarded
      case RedeemedKept(c) => c in j.unmatched
      case InstalledRemoved(c) => j.installed == Some(c)
  {
    var dropped := seq(|j.discarded|, i requires 0 <= i < |j.discarded| => RedeemedDiscarded(j.discarded[i]));
    var kept := seq(|j.unmatched|, i requires 0 <= i < |j.unmatched| => RedeemedKept(j.unmatched[i]));
    assert n.RedeemedDiscarded? && n.cid in j.discarded ==> n in dropped by {
      if n.RedeemedDiscarded? && n.cid in j.discarded {
        var i :| 0 <= i < |j.discarded| && j.discarded[i] == n.cid;
        assert dropped[i] == n;
      }
    }
    assert n.RedeemedKept? && n.cid in j.unmatched ==> n in kept by {
      if n.RedeemedKept? && n.cid in j.unmatched {
        var i :| 0 <= i < |j.unmatched| && j.unmatched[i] == n.cid;
        assert kept[i] == n;
      }
    }
  }
}
