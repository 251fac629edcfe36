/** Runs of many commands over one profile file: each loads it, edits its copy in memory and saves it
    under the profile lock, any number of times and in any order. */
module ProfileRuns {
  import opened Basics
  import opened ProfileMerge

  /** A command's profile object: the baseline remembered at its last load or save, and what it is now. */
  datatype Copy = Copy(base: Profile, mine: Profile)

  datatype State = State(file: Profile, copies: map<nat, Copy>)

  /** `Save` reads the clock for the file it merges with and for what it writes; `Overwrite`, which saves a profile
      made from scratch, for what it writes and for its own copy. */
  datatype Event =
    | Load(i: nat, now: int)
    | Edit(i: nat, mine: Profile)
    | Save(i: nat, now: int, later: int)
    | Overwrite(i: nat, scratch: Profile, now: int, later: int)

  predicate Accepted(s: State, e: Event) {
    e.Save? && e.i in s.copies &&
    Mergeable(s.copies[e.i].base, s.copies[e.i].mine, PrunedProfile(s.file, e.now))
  }

  /** What an accepted save writes. */
  function Written(s: State, e: Event): Profile
    requires Accepted(s, e)
  {
    var c := s.copies[e.i];
    PrunedProfile(Merged(c.base, c.mine, PrunedProfile(s.file, e.now)), e.later)
  }

  function Apply(s: State, e: Event): State {
    match e
    case Load(i, now) =>
      var p := PrunedProfile(s.file, now);
      s.(copies := s.copies[i := Copy(p, p)])
    case Edit(i, mine) =>
      if i in s.copies then s.(copies := s.copies[i := s.copies[i].(mine := mine)]) else s
    case Save(i, _, _) =>
      if Accepted(s, e) then State(Written(s, e), s.copies[i := Copy(Written(s, e), Written(s, e))]) else s
    case Overwrite(i, scratch, now, later) =>
      var p := PrunedProfile(scratch, now);
      State(p, s.copies[i := Copy(PrunedProfile(p, later), PrunedProfile(p, later))])
  }

  function Run(s: State, es: seq<Event>): State
    decreases |es|
  {
    if es == [] then s else Run(Apply(s, es[0]), es[1..])
  }

  predicate PairedIn(p: Profile, h: string) {
    h in p.peers && IsPaired(p.peers[h])
  }

  /** The command had the peer in its loaded copy and deleted it, or replaced the whole file. */
  predicate Deletes(s: State, e: Event, h: string) {
    e.Overwrite? ||
    (Accepted(s, e) && h in s.copies[e.i].base.peers && h !in s.copies[e.i].mine.peers)
  }

  /** The command's loaded copy did not have the peer and it added it, or it replaced the whole file. */
  predicate Adds(s: State, e: Event, h: string) {
    e.Overwrite? ||
    (Accepted(s, e) && h !in s.copies[e.i].base.peers && h in s.copies[e.i].mine.peers)
  }

  lemma WrittenPeer(s: State, e: Event, h: string)
    requires Accepted(s, e)
    ensures var c := s.copies[e.i];
      var r := PeerMerge(Get(c.base.peers, h), Get(c.mine.peers, h), Get(Pruned(s.file.peers, e.now), h));
      && r.Success?
      && (h in Written(s, e).peers ==> r.value == Some(Written(s, e).peers[h]))
      && (h !in Written(s, e).peers ==> r.value.None? || ExpiredPending(r.value.value, e.later))
  {
    var c := s.copies[e.i];
    MergedPeerAt(c.base, c.mine, PrunedProfile(s.file, e.now), h);
  }

  lemma EventKeepsPaired(s: State, e: Event, h: string)
    requires PairedIn(s.file, h) && !Deletes(s, e, h)
    ensures PairedIn(Apply(s, e).file, h)
  {
    if Accepted(s, e) {
      var c := s.copies[e.i];
      WrittenPeer(s, e, h);
      PairedSurvivesMerge(Get(c.base.peers, h), Get(c.mine.peers, h), Get(Pruned(s.file.peers, e.now), h));
    }
  }

  lemma EventKeepsAbsent(s: State, e: Event, h: string)
    requires h !in s.file.peers && !Adds(s, e, h)
    ensures h !in Apply(s, e).file.peers
  {
    if Accepted(s, e) {
      var c := s.copies[e.i];
      WrittenPeer(s, e, h);
      RevokedStaysGone(Get(c.base.peers, h), Get(c.mine.peers, h));
    }
  }

  lemma RunFrom(s: State, es: seq<Event>, k: nat)
    requires 0 < k <= |es|
    ensures Run(s, es[..k]) == Run(Apply(s, es[0]), es[1..][..k - 1])
  {
    assert es[..k][1..] == es[1..][..k - 1];
  }

  /** Paired is sticky: a peer that is paired in the file and later is not was deleted by some command. */
  lemma {:induction false} PairedUntilDeleted(s: State, es: seq<Event>, h: string) returns (k: nat)
    requires PairedIn(s.file, h) && !PairedIn(Run(s, es).file, h)
    ensures k < |es| && Deletes(Run(s, es[..k]), es[k], h)
    decreases |es|
  {
    if Deletes(s, es[0], h) {
      k := 0;
    } else {
      EventKeepsPaired(s, es[0], h);
      k := PairedUntilDeleted(Apply(s, es[0]), es[1..], h);
      RunFrom(s, es, k + 1);
      k := k + 1;
    }
  }

  /** Revocation is final: a peer that is gone from the file and later is there again was added by a
      command whose loaded copy did not have it. */
  lemma {:induction false} RevokedUntilAdded(s: State, es: seq<Event>, h: string) returns (k: nat)
    requires h !in s.file.peers && h in Run(s, es).file.peers
    ensures k < |es| && Adds(Run(s, es[..k]), es[k], h)
    decreases |es|
  {
    if Adds(s, es[0], h) {
      k := 0;
    } else {
      EventKeepsAbsent(s, es[0], h);
      k := RevokedUntilAdded(Apply(s, es[0]), es[1..], h);
      RunFrom(s, es, k + 1);
      k := k + 1;
    }
  }

  /** A command that still holds a revoked peer and changed it is refused, and the file stays as it is. */
  lemma SaveOfRevokedPeerIsRefused(s: State, e: Event, h: string)
    requires e.Save? && e.i in s.copies && h !in s.file.peers
    requires var c := s.copies[e.i]; h in c.base.peers && h in c.mine.peers && c.mine.peers[h] != c.base.peers[h]
    ensures !Accepted(s, e) && Apply(s, e) == s
  {
    var c := s.copies[e.i];
    assert h in Handles(c.base, c.mine, PrunedProfile(s.file, e.now));
    assert MergeAt(h, c.base, c.mine, PrunedProfile(s.file, e.now)) == Failure(PeerRevoked);
  }

  /** A deletion takes effect: the peer is gone from what is written. */
  lemma DeletionIsWritten(s: State, e: Event, h: string)
    requires Accepted(s, e) && h in s.copies[e.i].base.peers && h !in s.copies[e.i].mine.peers
    ensures h !in Apply(s, e).file.peers
  {
    WrittenPeer(s, e, h);
  }

  /** A second save with no edit in between leaves the file as it is then, whoever changed it meanwhile:
      only expired unfinished pairings go. */
  lemma SaveWithoutEditKeepsFile(s: State, e: Event)
    requires e.Save? && e.i in s.copies && s.copies[e.i].mine == s.copies[e.i].base
    requires s.file.did == s.copies[e.i].base.did
    ensures Accepted(s, e) && Apply(s, e).file == PrunedProfile(PrunedProfile(s.file, e.now), e.later)
  {
    UneditedCopyGivesDisk(s.copies[e.i].base, PrunedProfile(s.file, e.now));
  }

  // ---------------------------------------------------------------- growing edits

  /** The edit only appended outbound entries and lengthened the inbound delegation; all other fields, the
      pair status too, are free. */
  predicate GrownPeer(b: Peer, m: Peer) {
    ListOf(b) <= ListOf(m) && Reaches(b, m)
  }

  /** No peer was deleted; new ones are free. */
  predicate Grown(b: Profile, m: Profile) {
    && b.did == m.did
    && b.peers.Keys <= m.peers.Keys
    && forall h :: h in b.peers ==> GrownPeer(b.peers[h], m.peers[h])
  }

  /** Every edit in the run only grows the copy it edits, and nobody replaces the whole file. */
  predicate OnlyGrows(s: State, es: seq<Event>)
    decreases |es|
  {
    es == [] ||
    (&& !es[0].Overwrite?
     && (es[0].Edit? && es[0].i in s.copies ==> Grown(s.copies[es[0].i].mine, es[0].mine))
     && OnlyGrows(Apply(s, es[0]), es[1..]))
  }

  /** `b` lists no delegation that `d` has lost, and its inbound delegation ends no later. */
  ghost predicate Covered(b: Peer, d: Peer) {
    Cids(ListOf(b)) <= Cids(ListOf(d)) && Reaches(b, d)
  }

  ghost predicate AllGrown(s: State) {
    forall i :: i in s.copies ==> Grown(s.copies[i].base, s.copies[i].mine)
  }

  /** The file has all of the peer that any command loaded. */
  ghost predicate InStepAt(s: State, h: string) {
    forall i :: i in s.copies && h in s.copies[i].base.peers && h in s.file.peers ==>
      Covered(s.copies[i].base.peers[h], s.file.peers[h])
  }

  ghost predicate InStep(s: State) {
    AllGrown(s) && forall h :: InStepAt(s, h)
  }

  /** A save forgets the peer because it is unpaired and seven days old, at one of its two clock readings. */
  predicate Expires(s: State, e: Event, h: string) {
    && Accepted(s, e) && h in s.file.peers
    && (ExpiredPending(s.file.peers[h], e.now) ||
        var c := s.copies[e.i];
        var r := PeerMerge(Get(c.base.peers, h), Get(c.mine.peers, h), Some(s.file.peers[h]));
        r.Success? && r.value.Some? && ExpiredPending(r.value.value, e.later))
  }

  /** All that `old_` had of the peer is in `f`, and a paired peer is paired there. */
  ghost predicate Kept(old_: Profile, f: Profile, h: string) {
    && h in old_.peers && h in f.peers && Covered(old_.peers[h], f.peers[h])
    && (IsPaired(old_.peers[h]) ==> IsPaired(f.peers[h]))
  }

  /** An accepted save of a grown copy keeps every peer of the file and all that the file has of it, except the
      peers that expire, and a paired peer never does. */
  lemma {:induction false} SaveLosesNothing(s: State, e: Event, h: string)
    requires AllGrown(s) && Accepted(s, e) && h in s.file.peers
    ensures Kept(s.file, Written(s, e), h) || Expires(s, e, h)
    ensures PairedIn(s.file, h) ==> !Expires(s, e, h)
  {
    var c := s.copies[e.i];
    assert Grown(c.base, c.mine);
    if !ExpiredPending(s.file.peers[h], e.now) {
      WrittenPeer(s, e, h);
      if h in c.base.peers {
        GrowthIsWritten(c.mine.peers[h], c.base.peers[h], s.file.peers[h]);
      }
      if IsPaired(s.file.peers[h]) {
        PairedSurvivesMerge(Get(c.base.peers, h), Get(c.mine.peers, h), Some(s.file.peers[h]));
      }
    }
  }

  /** What a command has that its loaded copy had not: the delegations, and the inbound one if it changed. */
  ghost predicate HasAdded(b: Option<Peer>, m: Peer, f: Peer) {
    && (forall cid :: cid in Cids(ListOf(m)) && (b.Some? ==> cid !in Cids(ListOf(b.value))) ==> cid in Cids(ListOf(f)))
    && (b.None? || Get(m, Inbound) != Get(b.value, Inbound) ==> Reaches(m, f))
  }

  /** An accepted save writes what the command added; the delegations are those of the file and of the command
      when the file still has all that the command loaded. */
  lemma {:induction false} SaveWritesMine(s: State, e: Event, h: string)
    requires AllGrown(s) && Accepted(s, e) && h in s.copies[e.i].mine.peers && h in Written(s, e).peers
    ensures HasAdded(Get(s.copies[e.i].base.peers, h), s.copies[e.i].mine.peers[h], Written(s, e).peers[h])
    ensures InStepAt(s, h) && h in s.file.peers && !ExpiredPending(s.file.peers[h], e.now) ==>
      && Cids(ListOf(Written(s, e).peers[h])) == Cids(ListOf(s.file.peers[h])) + Cids(ListOf(s.copies[e.i].mine.peers[h]))
      && Reaches(s.copies[e.i].mine.peers[h], Written(s, e).peers[h])
  {
    var c := s.copies[e.i];
    assert Grown(c.base, c.mine);
    WrittenPeer(s, e, h);
    if h in c.base.peers {
      var (m, b) := (c.mine.peers[h], c.base.peers[h]);
      assert GrownPeer(b, m);
      if h in s.file.peers && !ExpiredPending(s.file.peers[h], e.now) {
        GrowthIsWritten(m, b, s.file.peers[h]);
        if InStepAt(s, h) {
          assert Covered(b, s.file.peers[h]);
          OutboundIsUnited(m, b, s.file.peers[h]);
          InboundNeverShortens(m, b, s.file.peers[h]);
        }
      }
    }
  }

  lemma GrowthAddsUp(a: Profile, b: Profile, c: Profile)
    requires Grown(a, b) && Grown(b, c)
    ensures Grown(a, c)
  {
    forall h | h in a.peers ensures GrownPeer(a.peers[h], c.peers[h]) {
      assert GrownPeer(a.peers[h], b.peers[h]) && GrownPeer(b.peers[h], c.peers[h]);
    }
  }

  lemma EventKeepsGrown(s: State, e: Event)
    requires AllGrown(s) && OnlyGrows(s, [e])
    ensures AllGrown(Apply(s, e))
  {
    var t := Apply(s, e);
    forall i | i in t.copies ensures Grown(t.copies[i].base, t.copies[i].mine) {
      if i in s.copies {
        assert Grown(s.copies[i].base, s.copies[i].mine);
        if e.Edit? && e.i == i {
          GrowthAddsUp(s.copies[i].base, s.copies[i].mine, e.mine);
        }
      }
    }
  }

  lemma EventKeepsPeer(s: State, e: Event, h: string)
    requires AllGrown(s) && OnlyGrows(s, [e]) && h in s.file.peers && !Expires(s, e, h)
    ensures Kept(s.file, Apply(s, e).file, h)
    ensures InStepAt(s, h) ==> InStepAt(Apply(s, e), h)
  {
    var t := Apply(s, e);
    if Accepted(s, e) {
      SaveLosesNothing(s, e, h);
    }
    if InStepAt(s, h) {
      forall i | i in t.copies && h in t.copies[i].base.peers && h in t.file.peers
        ensures Covered(t.copies[i].base.peers[h], t.file.peers[h])
      {
        if i in s.copies && h in s.copies[i].base.peers {
          assert Covered(s.copies[i].base.peers[h], s.file.peers[h]);
        }
      }
    }
  }

  lemma {:induction false} RunKeepsGrown(s: State, es: seq<Event>, k: nat)
    requires AllGrown(s) && OnlyGrows(s, es) && k <= |es|
    ensures AllGrown(Run(s, es[..k])) && OnlyGrows(Run(s, es[..k]), es[k..])
    decreases |es|
  {
    if k > 0 {
      EventKeepsGrown(s, es[0]);
      RunKeepsGrown(Apply(s, es[0]), es[1..], k - 1);
      RunFrom(s, es, k);
      assert es[1..][k - 1..] == es[k..];
    }
  }

  /** Over a run of growing edits by any number of commands a peer of the file keeps every delegation, its
      inbound expiry never decreases, and once paired it stays; an unpaired peer may go, but only at a step `k`
      at which it expired, and until then it keeps all. */
  lemma {:induction false} PeerIsKept(s: State, es: seq<Event>, h: string) returns (k: nat)
    requires AllGrown(s) && OnlyGrows(s, es) && h in s.file.peers
    ensures k <= |es| && Kept(s.file, Run(s, es[..k]).file, h)
    ensures k < |es| ==> Expires(Run(s, es[..k]), es[k], h)
    ensures PairedIn(s.file, h) ==> k == |es|
    ensures InStepAt(s, h) ==> InStepAt(Run(s, es[..k]), h)
    decreases |es|
  {
    if es == [] || Expires(s, es[0], h) {
      k := 0;
      if es != [] {
        SaveLosesNothing(s, es[0], h);
      }
    } else {
      var t := Apply(s, es[0]);
      assert OnlyGrows(s, [es[0]]);
      EventKeepsGrown(s, es[0]);
      EventKeepsPeer(s, es[0], h);
      k := PeerIsKept(t, es[1..], h);
      RunFrom(s, es, k + 1);
      k := k + 1;
    }
  }

  /** No delegation is lost and no inbound expiry decreases, over whole runs: every paired peer of the file is
      there at the end, paired, with all it had; every other peer too, unless it expired on the way. */
  lemma {:induction false} NoRecordIsLost(s: State, es: seq<Event>)
    requires AllGrown(s) && OnlyGrows(s, es)
    ensures forall h :: PairedIn(s.file, h) ==> Kept(s.file, Run(s, es).file, h)
    ensures forall h :: h in s.file.peers && !Kept(s.file, Run(s, es).file, h) ==>
      exists k :: 0 <= k < |es| && Expires(Run(s, es[..k]), es[k], h)
  {
    forall h | h in s.file.peers
      ensures PairedIn(s.file, h) ==> Kept(s.file, Run(s, es).file, h)
      ensures !Kept(s.file, Run(s, es).file, h) ==> exists k :: 0 <= k < |es| && Expires(Run(s, es[..k]), es[k], h)
    {
      var k := PeerIsKept(s, es, h);
      assert k == |es| ==> es[..k] == es;
    }
  }

  /** What an accepted save added to a peer that is then paired is in the file for ever. */
  lemma {:induction false} AddedIsKept(s: State, es: seq<Event>, k: nat, h: string)
    requires s.copies == map[] && OnlyGrows(s, es) && k < |es|
    requires var u := Run(s, es[..k]);
      Accepted(u, es[k]) && h in u.copies[es[k].i].mine.peers && PairedIn(Apply(u, es[k]).file, h)
    ensures var c := Run(s, es[..k]).copies[es[k].i];
      PairedIn(Run(s, es).file, h) && HasAdded(Get(c.base.peers, h), c.mine.peers[h], Run(s, es).file.peers[h])
  {
    NothingLoadedYet(s);
    RunKeepsGrown(s, es, k);
    var u := Run(s, es[..k]);
    SaveWritesMine(u, es[k], h);
    RunKeepsGrown(s, es, k + 1);
    RunSplit(s, es, k);
    RunSplit(s, es, k + 1);
    assert es[k..][0] == es[k] && es[k..][1..] == es[k + 1..];
    NoRecordIsLost(Apply(u, es[k]), es[k + 1..]);
    assert Kept(Apply(u, es[k]).file, Run(s, es).file, h);
  }

  lemma {:induction false} RunSplit(s: State, es: seq<Event>, k: nat)
    requires k <= |es|
    ensures Run(s, es) == Run(Run(s, es[..k]), es[k..])
    ensures k < |es| ==> Run(s, es[..k + 1]) == Apply(Run(s, es[..k]), es[k])
    decreases |es|
  {
    if k > 0 {
      RunSplit(Apply(s, es[0]), es[1..], k - 1);
      RunFrom(s, es, k);
      assert es[1..][k - 1..] == es[k..];
      if k < |es| {
        RunFrom(s, es, k + 1);
      }
    } else if es != [] {
      assert es[..1] == [es[0]] && es[..1][1..] == [];
    }
  }

  /** Before any command loaded the file, every copy is in step with it. */
  lemma NothingLoadedYet(s: State)
    requires s.copies == map[]
    ensures InStep(s)
  {
  }
}
