/** The three-way merge with which a command saves its copy of the profile onto the file, peer by peer and
    field by field. */
module ProfileMerge {
  import opened Basics

  datatype Status = PendingA | AwaitingC | Paired

  /** One delegation this side issued to a peer. */
  datatype Issued = Issued(cid: string, issuedAt: int, expiresAt: int)

  datatype Field =
    | Handle | OwnerDid | CourierDid | Label | SpaceId | TheirHandle
    | Inbound | Outbound | PairStatus | SessionId | PairedAt

  datatype Value =
    | Words(text: string)
    | Delegation(serialized: string, cid: string, expiresAt: int)
    | Grants(list: seq<Issued>)
    | Stage(status: Status)
    | Moment(ms: int)

  /** A stored object: its fields by name. A missing field is an undefined one. */
  type Record = map<Field, Value>

  predicate IsPeer(r: Record) {
    && PairStatus in r && r[PairStatus].Stage?
    && Outbound in r && r[Outbound].Grants?
    && (Inbound in r ==> r[Inbound].Delegation?)
  }

  type Peer = r: Record | IsPeer(r) witness map[PairStatus := Stage(PendingA), Outbound := Grants([])]

  function StatusOf(p: Peer): Status {
    p[PairStatus].status
  }

  function ListOf(p: Peer): seq<Issued> {
    p[Outbound].list
  }

  predicate IsPaired(p: Peer) {
    StatusOf(p) == Paired
  }

  datatype Error = PeerRevoked | AlreadyPaired | ProfileChanged | AgentChanged | TypeError

  // ---------------------------------------------------------------- outbound lists

  /** `Map.set` in insertion order: a known cid keeps its place and takes the new entry. */
  function Upsert(list: seq<Issued>, g: Issued): (r: seq<Issued>) {
    if list == [] then [g]
    else if list[0].cid == g.cid then [g] + list[1..]
    else [list[0]] + Upsert(list[1..], g)
  }

  /** The entries by cid, in insertion order. */
  function ByCid(list: seq<Issued>): (r: seq<Issued>) {
    if list == [] then [] else Upsert(ByCid(list[..|list| - 1]), list[|list| - 1])
  }

  function InsertByDate(list: seq<Issued>, g: Issued): (r: seq<Issued>) {
    if list != [] && list[|list| - 1].issuedAt > g.issuedAt
    then InsertByDate(list[..|list| - 1], g) + [list[|list| - 1]]
    else list + [g]
  }

  /** The stable sort by issue date. */
  function SortByDate(list: seq<Issued>): (r: seq<Issued>) {
    if list == [] then [] else InsertByDate(SortByDate(list[..|list| - 1]), list[|list| - 1])
  }

  function GrantUnion(disk: seq<Issued>, mine: seq<Issued>): seq<Issued> {
    SortByDate(ByCid(disk + mine))
  }

  ghost function Cids(list: seq<Issued>): set<string> {
    set i | 0 <= i < |list| :: list[i].cid
  }

  ghost predicate DistinctCids(list: seq<Issued>) {
    forall i, j :: 0 <= i < j < |list| ==> list[i].cid != list[j].cid
  }

  ghost predicate DatesAscend(list: seq<Issued>) {
    forall i, j :: 0 <= i < j < |list| ==> list[i].issuedAt <= list[j].issuedAt
  }

  lemma {:induction false} UpsertHas(list: seq<Issued>, g: Issued, x: Issued)
    requires DistinctCids(list)
    ensures x in Upsert(list, g) <==> x == g || (x in list && x.cid != g.cid)
  {
    if list != [] {
      assert list == [list[0]] + list[1..];
      assert x in list <==> x == list[0] || x in list[1..];
      if list[0].cid != g.cid {
        UpsertHas(list[1..], g, x);
      }
    }
  }

  lemma {:induction false} UpsertIsDistinct(list: seq<Issued>, g: Issued)
    requires DistinctCids(list)
    ensures DistinctCids(Upsert(list, g))
  {
    if list != [] && list[0].cid != g.cid {
      var r := Upsert(list[1..], g);
      UpsertIsDistinct(list[1..], g);
      forall j | 0 <= j < |r| ensures r[j].cid != list[0].cid {
        UpsertHas(list[1..], g, r[j]);
        assert r[j] in r;
      }
    }
  }

  lemma UpsertKeeps(list: seq<Issued>, g: Issued)
    requires DistinctCids(list)
    ensures DistinctCids(Upsert(list, g)) && g in Upsert(list, g)
    ensures forall x :: x in Upsert(list, g) <==> x == g || (x in list && x.cid != g.cid)
    ensures Cids(Upsert(list, g)) == Cids(list) + {g.cid}
  {
    UpsertIsDistinct(list, g);
    forall x ensures x in Upsert(list, g) <==> x == g || (x in list && x.cid != g.cid) {
      UpsertHas(list, g, x);
    }
    CidsAreTheirs(Upsert(list, g));
    CidsAreTheirs(list);
  }

  lemma CidsAreTheirs(list: seq<Issued>)
    ensures forall x :: x in list ==> x.cid in Cids(list)
    ensures forall c :: c in Cids(list) ==> exists x :: x in list && x.cid == c
  {
    forall c | c in Cids(list) ensures exists x :: x in list && x.cid == c {
      var i :| 0 <= i < |list| && list[i].cid == c;
      assert list[i] in list;
    }
  }

  /** The last entry of a list for a cid. */
  function LastFor(list: seq<Issued>, cid: string): Option<Issued> {
    if list == [] then None
    else if list[|list| - 1].cid == cid then Some(list[|list| - 1])
    else LastFor(list[..|list| - 1], cid)
  }

  lemma {:induction false} ByCidIsDistinct(list: seq<Issued>)
    ensures DistinctCids(ByCid(list)) && Cids(ByCid(list)) == Cids(list)
  {
    if list != [] {
      var front, last := list[..|list| - 1], list[|list| - 1];
      ByCidIsDistinct(front);
      UpsertKeeps(ByCid(front), last);
      assert Cids(list) == Cids(front) + {last.cid};
    }
  }

  /** By-cid keeps the last entry given for a cid. */
  lemma {:induction false} ByCidKeepsLast(list: seq<Issued>, cid: string)
    requires LastFor(list, cid).Some?
    ensures LastFor(list, cid).value in ByCid(list) && LastFor(list, cid).value.cid == cid
  {
    var front, last := list[..|list| - 1], list[|list| - 1];
    ByCidIsDistinct(front);
    UpsertKeeps(ByCid(front), last);
    if last.cid != cid {
      ByCidKeepsLast(front, cid);
    }
  }

  lemma {:induction false} LastForConcat(a: seq<Issued>, b: seq<Issued>, cid: string)
    ensures LastFor(a + b, cid) == if LastFor(b, cid).Some? then LastFor(b, cid) else LastFor(a, cid)
  {
    if b == [] {
      assert a + b == a;
    } else {
      assert (a + b)[..|a + b| - 1] == a + b[..|b| - 1];
      LastForConcat(a, b[..|b| - 1], cid);
    }
  }

  lemma {:induction false} InsertKeeps(list: seq<Issued>, g: Issued)
    requires DatesAscend(list)
    ensures DatesAscend(InsertByDate(list, g))
    ensures multiset(InsertByDate(list, g)) == multiset(list) + multiset{g}
  {
    if list != [] && list[|list| - 1].issuedAt > g.issuedAt {
      var front, last := list[..|list| - 1], list[|list| - 1];
      assert list == front + [last];
      InsertKeeps(front, g);
      var r := InsertByDate(front, g);
      forall i | 0 <= i < |r| ensures r[i].issuedAt <= last.issuedAt {
        assert r[i] in multiset(r);
        assert r[i] in front || r[i] == g;
      }
    }
  }

  lemma {:induction false} SortKeeps(list: seq<Issued>)
    ensures DatesAscend(SortByDate(list)) && multiset(SortByDate(list)) == multiset(list)
  {
    if list != [] {
      var front, last := list[..|list| - 1], list[|list| - 1];
      assert list == front + [last];
      SortKeeps(front);
      InsertKeeps(SortByDate(front), last);
    }
  }

  lemma SameMultisetSameCids(a: seq<Issued>, b: seq<Issued>)
    requires multiset(a) == multiset(b)
    ensures Cids(a) == Cids(b) && forall x :: x in a <==> x in b
  {
    assert forall x :: x in a <==> x in multiset(a);
    assert forall x :: x in b <==> x in multiset(b);
    CidsAreTheirs(a);
    CidsAreTheirs(b);
  }

  /** The merged outbound list names exactly the cids of both sides, once each, by issue date. */
  lemma GrantUnionIsUnion(disk: seq<Issued>, mine: seq<Issued>)
    ensures Cids(GrantUnion(disk, mine)) == Cids(disk) + Cids(mine)
    ensures DatesAscend(GrantUnion(disk, mine)) && |GrantUnion(disk, mine)| == |Cids(disk) + Cids(mine)|
  {
    var all := disk + mine;
    ByCidIsDistinct(all);
    SortKeeps(ByCid(all));
    SameMultisetSameCids(SortByDate(ByCid(all)), ByCid(all));
    CidsConcat(disk, mine);
    assert |SortByDate(ByCid(all))| == |multiset(SortByDate(ByCid(all)))| == |ByCid(all)|;
    DistinctCounts(ByCid(all));
  }

  /** For a cid both sides know, the command's own last entry stands. */
  lemma GrantUnionPrefersMine(disk: seq<Issued>, mine: seq<Issued>, cid: string)
    ensures LastFor(mine, cid).Some? ==> LastFor(mine, cid).value in GrantUnion(disk, mine)
    ensures LastFor(mine, cid).None? && LastFor(disk, cid).Some? ==> LastFor(disk, cid).value in GrantUnion(disk, mine)
  {
    var all := disk + mine;
    LastForConcat(disk, mine, cid);
    if LastFor(all, cid).Some? {
      ByCidKeepsLast(all, cid);
      SortKeeps(ByCid(all));
      SameMultisetSameCids(SortByDate(ByCid(all)), ByCid(all));
    }
  }

  lemma CidsConcat(a: seq<Issued>, b: seq<Issued>)
    ensures Cids(a + b) == Cids(a) + Cids(b)
  {
    forall c | c in Cids(a) + Cids(b) ensures c in Cids(a + b) {
      if c in Cids(a) {
        var i :| 0 <= i < |a| && a[i].cid == c;
        assert (a + b)[i].cid == c;
      } else {
        var i :| 0 <= i < |b| && b[i].cid == c;
        assert (a + b)[|a| + i].cid == c;
      }
    }
  }

  lemma {:induction false} DistinctCounts(list: seq<Issued>)
    requires DistinctCids(list)
    ensures |Cids(list)| == |list|
  {
    if list != [] {
      var front, last := list[..|list| - 1], list[|list| - 1];
      DistinctCounts(front);
      assert Cids(list) == Cids(front) + {last.cid};
      assert last.cid !in Cids(front);
    }
  }

  // ---------------------------------------------------------------- one peer

  /** The one merge that cannot be made: both sides changed the inbound delegation, differently, and
      one of them removed it. */
  predicate InboundClash(m: Option<Value>, b: Option<Value>, d: Option<Value>) {
    m != b && d != b && d != m && (m.None? || d.None?)
  }

  /** What a field both sides changed becomes. */
  function BothChanged(k: Field, m: Option<Value>, d: Option<Value>): Option<Value> {
    match (k, m, d)
    case (Outbound, Some(Grants(mine)), Some(Grants(disk))) => Some(Grants(GrantUnion(disk, mine)))
    case (Inbound, Some(Delegation(_, _, tm)), Some(Delegation(_, _, td))) => if td > tm then d else m
    case (PairStatus, _, Some(Stage(Paired))) => d
    case _ => m
  }

  /** The command's edits are taken; fields it did not edit are those of the file. */
  function MergedField(k: Field, m: Option<Value>, b: Option<Value>, d: Option<Value>): Option<Value> {
    if m == b then d
    else if d == b || d == m then m
    else BothChanged(k, m, d)
  }

  function MergedRecord(m: Peer, b: Peer, d: Peer): Record {
    map k | k in m.Keys + b.Keys + d.Keys && MergedField(k, Get(m, k), Get(b, k), Get(d, k)).Some? ::
      MergedField(k, Get(m, k), Get(b, k), Get(d, k)).value
  }

  lemma MergedRecordIsPeer(m: Peer, b: Peer, d: Peer)
    requires !InboundClash(Get(m, Inbound), Get(b, Inbound), Get(d, Inbound))
    ensures IsPeer(MergedRecord(m, b, d))
    ensures forall k :: Get(MergedRecord(m, b, d), k) == MergedField(k, Get(m, k), Get(b, k), Get(d, k))
  {
    var r := MergedRecord(m, b, d);
    forall k ensures Get(r, k) == MergedField(k, Get(m, k), Get(b, k), Get(d, k)) {
    }
    assert Get(r, PairStatus) == MergedField(PairStatus, Get(m, PairStatus), Get(b, PairStatus), Get(d, PairStatus));
    assert Get(r, Outbound) == MergedField(Outbound, Get(m, Outbound), Get(b, Outbound), Get(d, Outbound));
    assert Get(r, Inbound) == MergedField(Inbound, Get(m, Inbound), Get(b, Inbound), Get(d, Inbound));
  }

  /** The three-way merge of one peer; `None` is a peer that is not there. */
  function PeerMerge(base: Option<Peer>, mine: Option<Peer>, disk: Option<Peer>): Result<Option<Peer>, Error> {
    if mine == base then Success(disk)
    else if mine.None? then Success(None)
    else if disk.None? then (if base.None? then Success(mine) else Failure(PeerRevoked))
    else if IsPaired(disk.value) && !IsPaired(mine.value) then Failure(AlreadyPaired)
    else if base.None? then (if mine == disk then Success(disk) else Failure(ProfileChanged))
    else if InboundClash(Get(mine.value, Inbound), Get(base.value, Inbound), Get(disk.value, Inbound)) then Failure(TypeError)
    else
      MergedRecordIsPeer(mine.value, base.value, disk.value);
      Success(Some(MergedRecord(mine.value, base.value, disk.value)))
  }

  /** The outbound branch: entries go into a map by cid, then are sorted by issue date. */
  method UniteGrants(disk: seq<Issued>, mine: seq<Issued>) returns (r: seq<Issued>)
    ensures r == GrantUnion(disk, mine)
  {
    var all := disk + mine;
    var byCid: seq<Issued> := [];
    for i := 0 to |all|
      invariant byCid == ByCid(all[..i])
    {
      assert all[..i + 1][..i] == all[..i];
      byCid := Upsert(byCid, all[i]);
    }
    assert all[..|all|] == all;
    r := SortByDate(byCid);
  }

  /** The values a field can hold in a peer. */
  predicate Fits(key: Field, v: Option<Value>) {
    match key
    case Outbound => v.Some? && v.value.Grants?
    case Inbound => v.Some? ==> v.value.Delegation?
    case PairStatus => v.Some? && v.value.Stage?
    case _ => true
  }

  /** One turn of the field loop. */
  method MergeOneField(key: Field, mv: Option<Value>, bv: Option<Value>, dv: Option<Value>)
      returns (r: Result<Option<Value>, Error>)
    requires Fits(key, mv) && Fits(key, bv) && Fits(key, dv)
    ensures r.Failure? <==> key == Inbound && InboundClash(mv, bv, dv)
    ensures r == if key == Inbound && InboundClash(mv, bv, dv) then Failure(TypeError) else Success(MergedField(key, mv, bv, dv))
  {
    if mv == bv {
      return Success(dv);
    }
    if dv == bv || dv == mv {
      return Success(mv);
    }
    if key == Outbound {
      var list := UniteGrants(dv.value.list, mv.value.list);
      r := Success(Some(Grants(list)));
    } else if key == Inbound {
      if dv.None? || mv.None? {
        return Failure(TypeError);
      }
      r := Success(if dv.value.expiresAt > mv.value.expiresAt then dv else mv);
    } else if key == PairStatus {
      r := Success(if dv == Some(Stage(Paired)) then dv else mv);
    } else {
      r := Success(mv);
    }
  }

  /** The field loop of the merge, filling `merged` name by name. */
  method MergeFields(m: Peer, b: Peer, d: Peer) returns (r: Result<Peer, Error>)
    ensures r.Failure? <==> InboundClash(Get(m, Inbound), Get(b, Inbound), Get(d, Inbound))
    ensures r.Failure? ==> r.error == TypeError
    ensures r.Success? ==> r.value == MergedRecord(m, b, d)
  {
    var merged: Record := map[];
    var left := m.Keys + b.Keys + d.Keys;
    while left != {}
      invariant left <= m.Keys + b.Keys + d.Keys
      invariant merged == map k | k in MergedRecord(m, b, d) && k !in left :: MergedRecord(m, b, d)[k]
      invariant InboundClash(Get(m, Inbound), Get(b, Inbound), Get(d, Inbound)) ==> Inbound in left
      decreases left
    {
      var key :| key in left;
      var value := MergeOneField(key, Get(m, key), Get(b, key), Get(d, key));
      if value.Failure? {
        return Failure(value.error);
      }
      left := left - {key};
      if value.value.Some? {
        merged := merged[key := value.value.value];
      }
    }
    assert merged == MergedRecord(m, b, d);
    MergedRecordIsPeer(m, b, d);
    r := Success(merged);
  }

  method MergePeer(base: Option<Peer>, mine: Option<Peer>, disk: Option<Peer>) returns (r: Result<Option<Peer>, Error>)
    ensures r == PeerMerge(base, mine, disk)
  {
    if mine == base {
      return Success(disk);
    }
    if mine.None? {
      return Success(None);
    }
    if disk.None? {
      if base.None? {
        return Success(mine);
      }
      return Failure(PeerRevoked);
    }
    if IsPaired(disk.value) && !IsPaired(mine.value) {
      return Failure(AlreadyPaired);
    }
    if base.None? {
      if mine == disk {
        return Success(disk);
      }
      return Failure(ProfileChanged);
    }
    var merged := MergeFields(mine.value, base.value, disk.value);
    match merged
    case Failure(e) => r := Failure(e);
    case Success(p) => r := Success(Some(p));
  }

  // ---------------------------------------------------------------- laws of the peer merge

  /** A command that did not touch a peer leaves the file's copy of it, whatever it is. */
  lemma UneditedPeerKeepsDisk(base: Option<Peer>, disk: Option<Peer>)
    ensures PeerMerge(base, base, disk) == Success(disk)
  {
  }

  /** Onto a file nobody else changed the merge is the command's own copy, except that it refuses,
      exactly, to turn a paired peer into an unpaired one. */
  lemma UnchangedDiskTakesMine(base: Option<Peer>, mine: Option<Peer>)
    ensures PeerMerge(base, mine, base) ==
      if base.Some? && mine.Some? && IsPaired(base.value) && !IsPaired(mine.value)
      then Failure(AlreadyPaired) else Success(mine)
  {
    if base.Some? && mine.Some? && mine != base && !(IsPaired(base.value) && !IsPaired(mine.value)) {
      var (m, b) := (mine.value, base.value);
      MergedRecordIsPeer(m, b, b);
      var r := MergedRecord(m, b, b);
      forall k ensures k in r <==> k in m ensures k in m ==> r[k] == m[k] {
        assert Get(r, k) == Get(m, k);
      }
      assert r == m;
    }
  }

  /** A peer that is paired on disk is paired after the merge, unless the command deleted it. */
  lemma PairedSurvivesMerge(base: Option<Peer>, mine: Option<Peer>, disk: Option<Peer>)
    requires disk.Some? && IsPaired(disk.value) && PeerMerge(base, mine, disk).Success?
    ensures (base.Some? && mine.None?) || (PeerMerge(base, mine, disk).value.Some? && IsPaired(PeerMerge(base, mine, disk).value.value))
  {
    if mine.Some? && base.Some? && mine != base {
      MergedRecordIsPeer(mine.value, base.value, disk.value);
      assert Get(MergedRecord(mine.value, base.value, disk.value), PairStatus).Some?;
    }
  }

  /** A peer that is gone from disk comes back exactly from a command that did not have it and added it;
      a command that had it and changed it is refused. */
  lemma RevokedStaysGone(base: Option<Peer>, mine: Option<Peer>)
    ensures PeerMerge(base, mine, None) ==
      if base.None? then Success(mine) else if mine.Some? && mine != base then Failure(PeerRevoked) else Success(None)
  {
  }

  /** The inbound delegation of `b` lasts at least as long as that of `a`. */
  predicate Reaches(a: Peer, b: Peer) {
    Inbound in a ==> Inbound in b && a[Inbound].expiresAt <= b[Inbound].expiresAt
  }

  /** An inbound delegation the command did not shorten lasts, merged, at least as long as on disk,
      and as long as the command's own. */
  lemma InboundNeverShortens(m: Peer, b: Peer, d: Peer)
    requires Reaches(b, m) && Reaches(b, d)
    ensures PeerMerge(Some(b), Some(m), Some(d)).Success? ==>
      var r := PeerMerge(Some(b), Some(m), Some(d)).value;
      r.Some? && Reaches(d, r.value) && Reaches(m, r.value)
    ensures PeerMerge(Some(b), Some(m), Some(d)).Failure? ==> IsPaired(d) && !IsPaired(m)
  {
    if m != b && !(IsPaired(d) && !IsPaired(m)) {
      MergedRecordIsPeer(m, b, d);
      assert Get(MergedRecord(m, b, d), Inbound) == MergedField(Inbound, Get(m, Inbound), Get(b, Inbound), Get(d, Inbound));
    }
  }

  lemma MergedOutbound(m: Peer, b: Peer, d: Peer)
    requires !InboundClash(Get(m, Inbound), Get(b, Inbound), Get(d, Inbound))
    ensures IsPeer(MergedRecord(m, b, d))
    ensures ListOf(MergedRecord(m, b, d)) ==
      if ListOf(m) == ListOf(b) then ListOf(d)
      else if ListOf(d) == ListOf(b) || ListOf(d) == ListOf(m) then ListOf(m)
      else GrantUnion(ListOf(d), ListOf(m))
  {
    MergedRecordIsPeer(m, b, d);
    assert Get(MergedRecord(m, b, d), Outbound) == MergedField(Outbound, Get(m, Outbound), Get(b, Outbound), Get(d, Outbound));
  }

  /** No delegation is forgotten: when the command only appended to its outbound list, the merged cids
      are those of both sides. */
  lemma OutboundIsUnited(m: Peer, b: Peer, d: Peer)
    requires ListOf(b) <= ListOf(m) && Cids(ListOf(b)) <= Cids(ListOf(d))
    requires PeerMerge(Some(b), Some(m), Some(d)).Success?
    ensures var r := PeerMerge(Some(b), Some(m), Some(d)).value;
      r.Some? && Cids(ListOf(r.value)) == Cids(ListOf(d)) + Cids(ListOf(m))
  {
    assert Cids(ListOf(b)) <= Cids(ListOf(m)) by {
      assert ListOf(m) == ListOf(b) + ListOf(m)[|ListOf(b)|..];
      CidsConcat(ListOf(b), ListOf(m)[|ListOf(b)|..]);
    }
    if m != b {
      MergedOutbound(m, b, d);
      GrantUnionIsUnion(ListOf(d), ListOf(m));
    }
  }

  lemma OutboundGrows(m: Peer, b: Peer, d: Peer)
    requires ListOf(b) <= ListOf(m) && !InboundClash(Get(m, Inbound), Get(b, Inbound), Get(d, Inbound))
    ensures var r := MergedRecord(m, b, d);
      IsPeer(r) && Cids(ListOf(d)) <= Cids(ListOf(r)) && Cids(ListOf(m)) - Cids(ListOf(b)) <= Cids(ListOf(r))
  {
    assert Cids(ListOf(b)) <= Cids(ListOf(m)) by {
      assert ListOf(m) == ListOf(b) + ListOf(m)[|ListOf(b)|..];
      CidsConcat(ListOf(b), ListOf(m)[|ListOf(b)|..]);
    }
    MergedOutbound(m, b, d);
    GrantUnionIsUnion(ListOf(d), ListOf(m));
  }

  lemma InboundGrows(m: Peer, b: Peer, d: Peer)
    requires Reaches(b, m) && !InboundClash(Get(m, Inbound), Get(b, Inbound), Get(d, Inbound))
    ensures var r := MergedRecord(m, b, d);
      IsPeer(r) && Reaches(d, r) && (Get(m, Inbound) != Get(b, Inbound) ==> Reaches(m, r))
  {
    MergedRecordIsPeer(m, b, d);
    assert Get(MergedRecord(m, b, d), Inbound) == MergedField(Inbound, Get(m, Inbound), Get(b, Inbound), Get(d, Inbound));
  }

  /** Whatever happened to the file since the command loaded its copy, and although another peer may stand there
      under the same handle: a growing edit keeps all that the file has and all that the edit added. */
  lemma GrowthIsWritten(m: Peer, b: Peer, d: Peer)
    requires ListOf(b) <= ListOf(m) && Reaches(b, m)
    requires PeerMerge(Some(b), Some(m), Some(d)).Success?
    ensures var r := PeerMerge(Some(b), Some(m), Some(d)).value;
      && r.Some? && Cids(ListOf(d)) <= Cids(ListOf(r.value)) && Reaches(d, r.value)
      && Cids(ListOf(m)) - Cids(ListOf(b)) <= Cids(ListOf(r.value))
      && (Get(m, Inbound) != Get(b, Inbound) ==> Reaches(m, r.value))
  {
    if m != b {
      OutboundGrows(m, b, d);
      InboundGrows(m, b, d);
    }
  }

  // ---------------------------------------------------------------- the profile

  /** The profile file: plain fields by name, the agent key's did among them, and the peers by handle. */
  datatype Profile = Profile(did: string, fields: map<string, string>, peers: map<string, Peer>)

  const PENDING_PAIRING_TTL_MS := 7 * 24 * 3600 * 1000

  /** An unpaired peer that is more than seven days old. */
  predicate ExpiredPending(p: Peer, now: int) {
    !IsPaired(p) && PairedAt in p && p[PairedAt].Moment? && now - p[PairedAt].ms > PENDING_PAIRING_TTL_MS
  }

  function Pruned(peers: map<string, Peer>, now: int): map<string, Peer> {
    map h | h in peers && !ExpiredPending(peers[h], now) :: peers[h]
  }

  function PrunedProfile(p: Profile, now: int): Profile {
    p.(peers := Pruned(p.peers, now))
  }

  function MergeAt(h: string, base: Profile, mine: Profile, disk: Profile): Result<Option<Peer>, Error> {
    PeerMerge(Get(base.peers, h), Get(mine.peers, h), Get(disk.peers, h))
  }

  function Handles(base: Profile, mine: Profile, disk: Profile): set<string> {
    mine.peers.Keys + base.peers.Keys + disk.peers.Keys
  }

  predicate Mergeable(base: Profile, mine: Profile, disk: Profile) {
    disk.did == base.did && forall h :: h in Handles(base, mine, disk) ==> MergeAt(h, base, mine, disk).Success?
  }

  function PlainField<V(==)>(m: Option<V>, b: Option<V>, d: Option<V>): Option<V> {
    if m == b then d else m
  }

  function MergedPlain(m: map<string, string>, b: map<string, string>, d: map<string, string>): map<string, string> {
    map k | k in m.Keys + b.Keys + d.Keys && PlainField(Get(m, k), Get(b, k), Get(d, k)).Some? ::
      PlainField(Get(m, k), Get(b, k), Get(d, k)).value
  }

  function MergedPeers(base: Profile, mine: Profile, disk: Profile): map<string, Peer>
    requires Mergeable(base, mine, disk)
  {
    map h | h in Handles(base, mine, disk) && MergeAt(h, base, mine, disk).value.Some? ::
      MergeAt(h, base, mine, disk).value.value
  }

  function Merged(base: Profile, mine: Profile, disk: Profile): Profile
    requires Mergeable(base, mine, disk)
  {
    Profile(if mine.did == base.did then disk.did else mine.did,
            MergedPlain(mine.fields, base.fields, disk.fields),
            MergedPeers(base, mine, disk))
  }

  /** The field loop of the profile merge. */
  method MergePlainFields(m: map<string, string>, b: map<string, string>, d: map<string, string>)
    returns (fields: map<string, string>)
    ensures fields == MergedPlain(m, b, d)
  {
    fields := map[];
    var left := m.Keys + b.Keys + d.Keys;
    while left != {}
      invariant left <= m.Keys + b.Keys + d.Keys
      invariant fields == map k | k in MergedPlain(m, b, d) && k !in left :: MergedPlain(m, b, d)[k]
      decreases left
    {
      var k :| k in left;
      left := left - {k};
      var value := if Get(m, k) == Get(b, k) then Get(d, k) else Get(m, k);
      assert value == PlainField(Get(m, k), Get(b, k), Get(d, k));
      if value.Some? {
        fields := fields[k := value.value];
      }
    }
  }

  /** The handle loop of the profile merge. A refusal names one peer that cannot be merged. */
  method MergePeers(base: Profile, mine: Profile, disk: Profile) returns (r: Result<map<string, Peer>, Error>)
    requires base.did == disk.did
    ensures r.Success? <==> Mergeable(base, mine, disk)
    ensures r.Success? ==> r.value == MergedPeers(base, mine, disk)
    ensures r.Failure? ==> exists h :: MergeAt(h, base, mine, disk) == Failure(r.error)
  {
    var all := Handles(base, mine, disk);
    var left := all;
    var peers: map<string, Peer> := map[];
    while left != {}
      invariant left <= all && peers.Keys <= all - left
      invariant forall h :: h in all && h !in left ==>
        MergeAt(h, base, mine, disk).Success? && Get(peers, h) == MergeAt(h, base, mine, disk).value
      decreases left
    {
      var h :| h in left;
      var peer := MergePeer(Get(base.peers, h), Get(mine.peers, h), Get(disk.peers, h));
      assert peer == MergeAt(h, base, mine, disk);
      if peer.Failure? {
        return Failure(peer.error);
      }
      left := left - {h};
      if peer.value.Some? {
        peers := peers[h := peer.value.value];
      }
    }
    assert Mergeable(base, mine, disk);
    assert peers == MergedPeers(base, mine, disk) by {
      forall h ensures Get(peers, h) == Get(MergedPeers(base, mine, disk), h) {
        if h in all { assert MergeAt(h, base, mine, disk).Success?; }
      }
      SameGets(peers, MergedPeers(base, mine, disk));
    }
    r := Success(peers);
  }

  method MergeProfile(base: Profile, mine: Profile, disk: Profile) returns (r: Result<Profile, Error>)
    ensures r.Success? <==> Mergeable(base, mine, disk)
    ensures r.Success? ==> r.value == Merged(base, mine, disk)
    ensures r.Failure? && base.did != disk.did ==> r.error == AgentChanged
    ensures r.Failure? && base.did == disk.did ==> exists h :: MergeAt(h, base, mine, disk) == Failure(r.error)
  {
    if disk.did != base.did {
      return Failure(AgentChanged);
    }
    var fields := MergePlainFields(mine.fields, base.fields, disk.fields);
    var peers := MergePeers(base, mine, disk);
    match peers
    case Failure(e) => r := Failure(e);
    case Success(p) =>
      r := Success(Profile(if mine.did == base.did then disk.did else mine.did, fields, p));
  }

  // ---------------------------------------------------------------- laws of the profile merge

  lemma MergedPeerAt(base: Profile, mine: Profile, disk: Profile, h: string)
    requires Mergeable(base, mine, disk)
    ensures MergeAt(h, base, mine, disk).Success?
    ensures Get(Merged(base, mine, disk).peers, h) == MergeAt(h, base, mine, disk).value
  {
  }

  /** Merging an unedited copy gives the file on disk. */
  lemma UneditedCopyGivesDisk(base: Profile, disk: Profile)
    requires base.did == disk.did
    ensures Mergeable(base, base, disk) && Merged(base, base, disk) == disk
  {
    var r := Merged(base, base, disk);
    forall h ensures Get(r.peers, h) == Get(disk.peers, h) {
      MergedPeerAt(base, base, disk, h);
    }
    SameGets(r.peers, disk.peers);
    forall k ensures Get(r.fields, k) == Get(disk.fields, k) {
    }
    SameGets(r.fields, disk.fields);
  }

  lemma SameGets<K, V>(a: map<K, V>, b: map<K, V>)
    requires forall k :: Get(a, k) == Get(b, k)
    ensures a == b
  {
    forall k ensures k in a <==> k in b ensures k in a ==> a[k] == b[k] {
      assert Get(a, k) == Get(b, k);
    }
  }

  /** Merging onto a file nobody changed gives the command's copy; it is refused exactly when the
      command turned a paired peer into an unpaired one. */
  lemma UnchangedFileTakesCopy(base: Profile, mine: Profile)
    ensures Mergeable(base, mine, base) <==>
      !exists h :: h in base.peers && h in mine.peers && IsPaired(base.peers[h]) && !IsPaired(mine.peers[h])
    ensures Mergeable(base, mine, base) ==> Merged(base, mine, base) == mine
  {
    forall h ensures MergeAt(h, base, mine, base) ==
      if h in base.peers && h in mine.peers && IsPaired(base.peers[h]) && !IsPaired(mine.peers[h])
      then Failure(AlreadyPaired) else Success(Get(mine.peers, h))
    {
      UnchangedDiskTakesMine(Get(base.peers, h), Get(mine.peers, h));
    }
    if h :| h in base.peers && h in mine.peers && IsPaired(base.peers[h]) && !IsPaired(mine.peers[h]) {
      assert h in Handles(base, mine, base) && MergeAt(h, base, mine, base).Failure?;
    }
    if Mergeable(base, mine, base) {
      var r := Merged(base, mine, base);
      forall h ensures Get(r.peers, h) == Get(mine.peers, h) {
        MergedPeerAt(base, mine, base, h);
      }
      SameGets(r.peers, mine.peers);
      forall k ensures Get(r.fields, k) == Get(mine.fields, k) {
      }
      SameGets(r.fields, mine.fields);
    }
  }
}
