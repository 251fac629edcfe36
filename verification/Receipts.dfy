/** Receipts of delivered messages: which undelivered messages are selected, and how many committers advance
    one stored record by compare-and-set. */
module Receipts {
  import opened Basics
  import opened Text
  import Kv

  type Ids = seq<Str>

  datatype Thread = Thread(delivered: Ids, lastDelivered: Str)

  /** The stored record: threads by id. */
  type Record = map<Str, Thread>

  datatype Delivery = Delivery(thread: Str, message: Str)

  function DeliveredIn(r: Record, t: Str): Ids {
    if t in r then r[t].delivered else []
  }

  predicate IsDelivered(r: Record, d: Delivery) {
    d.message in DeliveredIn(r, d.thread)
  }

  // ---------------------------------------------------------------- selecting

  /** A listed key: a message of a thread, or something else. */
  datatype Key = Message(d: Delivery) | OtherKey

  function Undelivered(keys: seq<Key>, r: Record): seq<Delivery> {
    if keys == [] then []
    else
      var k := keys[|keys| - 1];
      Undelivered(keys[..|keys| - 1], r) + if k.Message? && !IsDelivered(r, k.d) then [k.d] else []
  }

  /** The loop of `selectUndelivered`, before its sort. */
  method SelectUndelivered(keys: seq<Key>, r: Record) returns (selected: seq<Delivery>)
    ensures selected == Undelivered(keys, r)
  {
    selected := [];
    for i := 0 to |keys|
      invariant selected == Undelivered(keys[..i], r)
    {
      assert keys[..i + 1][..i] == keys[..i];
      match keys[i]
      case OtherKey =>
      case Message(d) =>
        if !IsDelivered(r, d) {
          selected := selected + [d];
        }
    }
    assert keys[..|keys|] == keys;
  }

  /** Nothing delivered is selected again and nothing else is missed. */
  lemma {:induction false} UndeliveredAre(keys: seq<Key>, r: Record, d: Delivery)
    ensures d in Undelivered(keys, r) <==> Message(d) in keys && !IsDelivered(r, d)
  {
    if keys != [] {
      var front := keys[..|keys| - 1];
      UndeliveredAre(front, r, d);
      InFrontOrLast(keys, Message(d));
    }
  }

  // ---------------------------------------------------------------- advancing

  /** The distinct ids, in order of first appearance. */
  function Dedup(ids: Ids): (r: Ids) {
    if ids == [] then []
    else
      var front := Dedup(ids[..|ids| - 1]);
      if ids[|ids| - 1] in front then front else front + [ids[|ids| - 1]]
  }

  lemma {:induction false} DedupIsSet(ids: Ids)
    ensures Distinct(Dedup(ids)) && forall x :: x in Dedup(ids) <==> x in ids
  {
    if ids != [] {
      var front := ids[..|ids| - 1];
      DedupIsSet(front);
      assert ids == front + [ids[|ids| - 1]];
    }
  }

  /** `lastDelivered` after a commit; an empty list cannot be committed. */
  function Advanced(r: Record, d: Delivery): Record {
    var list := Sort(Dedup(DeliveredIn(r, d.thread) + [d.message]));
    r[d.thread := Thread(list, if list == [] then [] else list[|list| - 1])]
  }

  function AdvancedAll(r: Record, ds: seq<Delivery>): Record {
    if ds == [] then r else Advanced(AdvancedAll(r, ds[..|ds| - 1]), ds[|ds| - 1])
  }

  /** One turn of the delivery loop. */
  method Deliver(receipts: Record, d: Delivery) returns (r: Record)
    ensures r == Advanced(receipts, d)
  {
    var thread := if d.thread in receipts then receipts[d.thread] else Thread([], []);
    var ids := Dedup(thread.delivered + [d.message]);
    var list := Sort(ids);
    r := receipts[d.thread := Thread(list, if list == [] then [] else list[|list| - 1])];
  }

  /** The delivery loop of a commit attempt, changing the record it read. */
  method Advance(r: Record, ds: seq<Delivery>) returns (receipts: Record)
    ensures receipts == AdvancedAll(r, ds)
  {
    receipts := r;
    for i := 0 to |ds|
      invariant receipts == AdvancedAll(r, ds[..i])
    {
      AdvancedAllStep(r, ds, i);
      receipts := Deliver(receipts, ds[i]);
    }
    assert ds[..|ds|] == ds;
  }

  lemma AdvancedAllStep(r: Record, ds: seq<Delivery>, i: nat)
    requires i < |ds|
    ensures AdvancedAll(r, ds[..i + 1]) == Advanced(AdvancedAll(r, ds[..i]), ds[i])
  {
    assert ds[..i + 1][..i] == ds[..i];
  }

  /** Sorted, without duplicates, the last one greatest. */
  ghost predicate InOrder(t: Thread) {
    Ascends(t.delivered) && t.lastDelivered == if t.delivered == [] then [] else t.delivered[|t.delivered| - 1]
  }

  ghost predicate AllInOrder(r: Record) {
    forall t :: t in r ==> InOrder(r[t])
  }

  /** Everything delivered in `a` is delivered in `b`. */
  ghost predicate Covers(b: Record, a: Record) {
    forall d :: IsDelivered(a, d) ==> IsDelivered(b, d)
  }

  lemma AdvancedHas(r: Record, d: Delivery, e: Delivery)
    ensures IsDelivered(Advanced(r, d), e) <==> IsDelivered(r, e) || e == d
  {
    var ids := DeliveredIn(r, d.thread) + [d.message];
    DedupIsSet(ids);
    SortHas(Dedup(ids), e.message);
  }

  lemma AdvancedInOrder(r: Record, d: Delivery)
    requires AllInOrder(r)
    ensures AllInOrder(Advanced(r, d))
  {
    var ids := DeliveredIn(r, d.thread) + [d.message];
    DedupIsSet(ids);
    SortAscends(Dedup(ids));
  }

  /** A commit adds exactly its own deliveries. */
  lemma {:induction false} AdvancedAllHas(r: Record, ds: seq<Delivery>, e: Delivery)
    ensures IsDelivered(AdvancedAll(r, ds), e) <==> IsDelivered(r, e) || e in ds
  {
    if ds != [] {
      var (front, last) := (ds[..|ds| - 1], ds[|ds| - 1]);
      AdvancedAllHas(r, front, e);
      AdvancedHas(AdvancedAll(r, front), last, e);
      InFrontOrLast(ds, e);
    }
  }

  lemma {:induction false} AdvancedAllInOrder(r: Record, ds: seq<Delivery>)
    requires AllInOrder(r)
    ensures AllInOrder(AdvancedAll(r, ds))
  {
    if ds != [] {
      AdvancedAllInOrder(r, ds[..|ds| - 1]);
      AdvancedInOrder(AdvancedAll(r, ds[..|ds| - 1]), ds[|ds| - 1]);
    }
  }

  /** Whatever the list was, each list a commit writes is in order, and its greatest element is last delivered. */
  lemma {:induction false} TouchedThreadInOrder(r: Record, ds: seq<Delivery>, d: Delivery)
    requires d in ds
    ensures d.thread in AdvancedAll(r, ds) && InOrder(AdvancedAll(r, ds)[d.thread])
    ensures forall m :: m in AdvancedAll(r, ds)[d.thread].delivered ==>
      m == AdvancedAll(r, ds)[d.thread].lastDelivered || Below(m, AdvancedAll(r, ds)[d.thread].lastDelivered)
    decreases |ds|
  {
    var front, last := ds[..|ds| - 1], ds[|ds| - 1];
    assert ds == front + [last];
    var ids := DeliveredIn(AdvancedAll(r, front), last.thread) + [last.message];
    DedupIsSet(ids);
    SortAscends(Dedup(ids));
    if d.thread != last.thread {
      assert d in front;
      TouchedThreadInOrder(r, front, d);
    }
    var t := AdvancedAll(r, ds)[d.thread];
    forall m | m in t.delivered ensures m == t.lastDelivered || Below(m, t.lastDelivered) {
      LastIsGreatest(t.delivered, m);
    }
  }

  /** Two ways of recording the same deliveries write the same list. */
  lemma ListIsCanonical(a: Thread, b: Thread)
    requires InOrder(a) && InOrder(b) && forall m :: m in a.delivered <==> m in b.delivered
    ensures a == b
  {
    AscendingIsUnique(a.delivered, b.delivered);
  }

  lemma {:induction false} UntouchedThread(r: Record, ds: seq<Delivery>, t: Str)
    requires forall d :: d in ds ==> d.thread != t
    ensures Get(AdvancedAll(r, ds), t) == Get(r, t)
  {
    if ds != [] {
      var (front, last) := (ds[..|ds| - 1], ds[|ds| - 1]);
      assert last in ds && forall d :: d in front ==> d in ds;
      UntouchedThread(r, front, t);
    }
  }

  /** What a commit writes depends on which messages it delivers, not on their order or on repetitions. */
  lemma {:induction false} OrderDoesNotMatter(r: Record, ds: seq<Delivery>, es: seq<Delivery>)
    requires forall d :: d in ds <==> d in es
    ensures AdvancedAll(r, ds) == AdvancedAll(r, es)
  {
    var (a, b) := (AdvancedAll(r, ds), AdvancedAll(r, es));
    forall t ensures Get(a, t) == Get(b, t) {
      if d :| d in ds && d.thread == t {
        TouchedThreadInOrder(r, ds, d);
        TouchedThreadInOrder(r, es, d);
        forall m ensures m in a[t].delivered <==> m in b[t].delivered {
          AdvancedAllHas(r, ds, Delivery(t, m));
          AdvancedAllHas(r, es, Delivery(t, m));
        }
        ListIsCanonical(a[t], b[t]);
      } else {
        UntouchedThread(r, ds, t);
        UntouchedThread(r, es, t);
      }
    }
    forall t ensures t in a <==> t in b ensures t in a ==> a[t] == b[t] {
      assert Get(a, t) == Get(b, t);
    }
  }

  // ---------------------------------------------------------------- many committers

  const ATTEMPTS := 3

  /** What is stored after other writers' writes, of which each may be absent. */
  function After(stored: Record, rivals: seq<Option<Record>>): Record {
    if rivals == [] then stored
    else if rivals[|rivals| - 1].Some? then rivals[|rivals| - 1].value
    else After(stored, rivals[..|rivals| - 1])
  }

  function StoredIn(s: Kv.Store<(), Record>): Record {
    if () in s.cells then s.cells[()].value else map[]
  }

  /** Attempt `n` was not disturbed, and added the deliveries to what the others had stored before it. */
  predicate CommittedAt(n: nat, was: Record, rivals: seq<Option<Record>>, ds: seq<Delivery>, stored: Record)
    requires n < |rivals|
  {
    rivals[n].None? && stored == AdvancedAll(After(was, rivals[..n]), ds)
  }

  /** The retry loop of one committer: `rivals[n]` is what another one writes between the read and the write of
      attempt `n`, if anything. It commits exactly when some attempt of the three is not disturbed, and what it
      writes adds its deliveries to what the others had stored by then. */
  method CommitReceipts(space: Kv.Space<(), Record>, ds: seq<Delivery>, rivals: seq<Option<Record>>) returns (done: bool)
    requires |rivals| == ATTEMPTS && Kv.Fresh(space.Value())
    modifies space
    ensures Kv.Fresh(space.Value())
    ensures done <==> exists n :: 0 <= n < ATTEMPTS && rivals[n].None?
    ensures done ==> exists n :: 0 <= n < ATTEMPTS && CommittedAt(n, old(StoredIn(space.Value())), rivals, ds, StoredIn(space.Value()))
    ensures !done ==> StoredIn(space.Value()) == After(old(StoredIn(space.Value())), rivals)
  {
    var attempt := 0;
    while attempt < ATTEMPTS
      invariant attempt <= ATTEMPTS && Kv.Fresh(space.Value())
      invariant forall n :: 0 <= n < attempt ==> rivals[n].Some?
      invariant StoredIn(space.Value()) == After(old(StoredIn(space.Value())), rivals[..attempt])
    {
      var current := space.GetJson(());
      var receipts := Advance(if current.Some? then current.value.value else map[], ds);
      if rivals[attempt].Some? {
        space.PutOverwrite((), rivals[attempt].value);
      }
      var r: Result<(), Kv.Error>;
      if current.Some? {
        r := space.TryMatch((), receipts, current.value.etag);
      } else {
        r := space.TryCreate((), receipts);
      }
      if r.Success? {
        assert CommittedAt(attempt, old(StoredIn(space.Value())), rivals, ds, StoredIn(space.Value()));
        return true;
      }
      assert rivals[..attempt + 1][..attempt] == rivals[..attempt];
      attempt := attempt + 1;
    }
    assert rivals[..ATTEMPTS] == rivals;
    done := false;
  }

  /** A committer before the read of attempt `n`, after it, and at its end. `etag` is what the reply showed;
      a reply may show none. */
  datatype Pc =
    | Reading(n: nat)
    | Writing(n: nat, seen: Option<Record>, etag: Option<nat>)
    | Committed
    | GaveUp

  datatype Committer = Committer(deliveries: seq<Delivery>, pc: Pc)

  /** The store, with the receipts of one peer as its only key, and the committers at work. */
  datatype State = State(kv: Kv.Store<(), Record>, committers: map<nat, Committer>)
  {
    function Stored(): Option<Record> {
      if () in kv.cells then Some(kv.cells[()].value) else None
    }

    function Value(): Record {
      if () in kv.cells then kv.cells[()].value else map[]
    }
  }

  /** `Read` may fail; a write may fail with or without having been made, other than by a conflict. A killed
      committer simply takes no more steps. */
  datatype Event =
    | Start(p: nat, deliveries: seq<Delivery>)
    | Read(p: nat, ok: bool, shown: bool)
    | Write(p: nat, reaches: bool, answered: bool)

  function Attempt(s: State, p: nat, reaches: bool, answered: bool): State
    requires p in s.committers && s.committers[p].pc.Writing?
  {
    var c := s.committers[p];
    var value := AdvancedAll(if c.pc.seen.Some? then c.pc.seen.value else map[], c.deliveries);
    var (kv, result) := if c.pc.etag.Some? then Kv.PutMatch(s.kv, (), value, c.pc.etag.value) else Kv.PutCreate(s.kv, (), value);
    var after := if reaches then kv else s.kv;
    var pc := if !reaches || !answered then GaveUp
              else if result.Success? then Committed
              else if c.pc.n + 1 < ATTEMPTS then Reading(c.pc.n + 1)
              else GaveUp;
    State(after, s.committers[p := c.(pc := pc)])
  }

  function Apply(s: State, e: Event): State {
    match e
    case Start(p, ds) => if p in s.committers then s else s.(committers := s.committers[p := Committer(ds, Reading(0))])
    case Read(p, ok, shown) =>
      if p !in s.committers || !s.committers[p].pc.Reading? then s
      else
        var c := s.committers[p];
        var pc := if !ok then GaveUp
                  else Writing(c.pc.n, s.Stored(), if shown && () in s.kv.cells then Some(s.kv.cells[()].etag) else None);
        s.(committers := s.committers[p := c.(pc := pc)])
    case Write(p, reaches, answered) =>
      if p !in s.committers || !s.committers[p].pc.Writing? then s else Attempt(s, p, reaches, answered)
  }

  function Run(s: State, es: seq<Event>): State
    decreases |es|
  {
    if es == [] then s else Run(Apply(s, es[0]), es[1..])
  }

  /** What a committer read is what is stored, as long as its conditional write can succeed. */
  predicate SeenIsCurrent(s: State, p: nat)
    requires p in s.committers
  {
    var pc := s.committers[p].pc;
    pc.Writing? ==>
      && (pc.seen.None? ==> pc.etag.None?)
      && (pc.etag.Some? ==> pc.etag.value < s.kv.next)
      && (pc.etag.Some? && () in s.kv.cells && s.kv.cells[()].etag == pc.etag.value ==> pc.seen == s.Stored())
      && (pc.seen.Some? ==> () in s.kv.cells)
  }

  ghost predicate Inv(s: State) {
    && Kv.Fresh(s.kv)
    && forall p :: p in s.committers ==>
         SeenIsCurrent(s, p) && (s.committers[p].pc.Committed? ==> forall d :: d in s.committers[p].deliveries ==> IsDelivered(s.Value(), d))
  }

  predicate Announced(s: State, d: Delivery) {
    exists p :: p in s.committers && d in s.committers[p].deliveries
  }

  /** A write that is made adds exactly the committer's deliveries to what is stored then. */
  lemma WriteAddsItsOwn(s: State, p: nat, reaches: bool, answered: bool, d: Delivery)
    requires Inv(s) && p in s.committers && s.committers[p].pc.Writing?
    ensures var t := Attempt(s, p, reaches, answered);
      && (t.kv == s.kv || (IsDelivered(t.Value(), d) <==> IsDelivered(s.Value(), d) || d in s.committers[p].deliveries))
      && (t.committers[p].pc.Committed? && d in s.committers[p].deliveries ==> IsDelivered(t.Value(), d))
  {
    assert SeenIsCurrent(s, p);
    AdvancedAllHas(s.Value(), s.committers[p].deliveries, d);
  }

  lemma WriteCovers(s: State, p: nat, reaches: bool, answered: bool)
    requires Inv(s) && p in s.committers && s.committers[p].pc.Writing?
    ensures Covers(Attempt(s, p, reaches, answered).Value(), s.Value())
    ensures Attempt(s, p, reaches, answered).committers[p].pc.Committed? ==>
      forall d :: d in s.committers[p].deliveries ==> IsDelivered(Attempt(s, p, reaches, answered).Value(), d)
  {
    forall d
      ensures IsDelivered(s.Value(), d) ==> IsDelivered(Attempt(s, p, reaches, answered).Value(), d)
      ensures Attempt(s, p, reaches, answered).committers[p].pc.Committed? && d in s.committers[p].deliveries ==>
        IsDelivered(Attempt(s, p, reaches, answered).Value(), d)
    {
      WriteAddsItsOwn(s, p, reaches, answered, d);
    }
  }

  lemma WriteKeepsInv(s: State, p: nat, reaches: bool, answered: bool)
    requires Inv(s) && p in s.committers && s.committers[p].pc.Writing?
    ensures Inv(Attempt(s, p, reaches, answered))
  {
    var t := Attempt(s, p, reaches, answered);
    WriteCovers(s, p, reaches, answered);
    forall q | q in t.committers
      ensures SeenIsCurrent(t, q)
      ensures t.committers[q].pc.Committed? ==> forall d :: d in t.committers[q].deliveries ==> IsDelivered(t.Value(), d)
    {
      assert SeenIsCurrent(s, q);
    }
  }

  lemma EventKeepsInv(s: State, e: Event)
    requires Inv(s)
    ensures Inv(Apply(s, e)) && Covers(Apply(s, e).Value(), s.Value())
  {
    var t := Apply(s, e);
    if e.Write? && e.p in s.committers && s.committers[e.p].pc.Writing? {
      WriteKeepsInv(s, e.p, e.reaches, e.answered);
      WriteCovers(s, e.p, e.reaches, e.answered);
    } else {
      assert t.kv == s.kv;
      forall q | q in t.committers ensures SeenIsCurrent(t, q) {
        if q in s.committers {
          assert SeenIsCurrent(s, q);
        }
      }
    }
  }

  /** Receipts lose nothing: over any run the delivered set only grows, and every commit that succeeded has
      all its deliveries in it, now and for ever. */
  lemma {:induction false} ReceiptsLoseNothing(s: State, es: seq<Event>)
    requires Inv(s)
    ensures Inv(Run(s, es)) && Covers(Run(s, es).Value(), s.Value())
    decreases |es|
  {
    if es != [] {
      EventKeepsInv(s, es[0]);
      ReceiptsLoseNothing(Apply(s, es[0]), es[1..]);
    }
  }

  /** Nothing is recorded that no committer had collected. */
  lemma {:induction false} NothingIsInvented(s: State, es: seq<Event>, d: Delivery)
    requires Inv(s) && IsDelivered(Run(s, es).Value(), d)
    ensures IsDelivered(s.Value(), d) || Announced(Run(s, es), d)
    decreases |es|
  {
    if es != [] {
      var t := Apply(s, es[0]);
      EventKeepsInv(s, es[0]);
      NothingIsInvented(t, es[1..], d);
      if IsDelivered(t.Value(), d) && !IsDelivered(s.Value(), d) {
        var e := es[0];
        WriteAddsItsOwn(s, e.p, e.reaches, e.answered, d);
        assert d in t.committers[e.p].deliveries;
        CommittersStay(t, es[1..], e.p);
      }
    }
  }

  lemma {:induction false} CommittersStay(s: State, es: seq<Event>, p: nat)
    requires p in s.committers
    ensures p in Run(s, es).committers && Run(s, es).committers[p].deliveries == s.committers[p].deliveries
    decreases |es|
  {
    if es != [] {
      CommittersStay(Apply(s, es[0]), es[1..], p);
    }
  }

  /** Lists that are in order stay so. */
  lemma {:induction false} ListsStayInOrder(s: State, es: seq<Event>)
    requires Inv(s) && AllInOrder(s.Value())
    ensures AllInOrder(Run(s, es).Value())
    decreases |es|
  {
    if es != [] {
      var (e, t) := (es[0], Apply(s, es[0]));
      EventKeepsInv(s, e);
      if e.Write? && e.p in s.committers && s.committers[e.p].pc.Writing? {
        assert SeenIsCurrent(s, e.p);
        AdvancedAllInOrder(s.Value(), s.committers[e.p].deliveries);
      }
      ListsStayInOrder(t, es[1..]);
    }
  }

  /** A committer makes at most three attempts. */
  lemma {:induction false} AtMostThreeAttempts(s: State, es: seq<Event>, p: nat)
    requires p in s.committers ==> Within(s.committers[p].pc)
    ensures p in Run(s, es).committers ==> Within(Run(s, es).committers[p].pc)
    decreases |es|
  {
    if es != [] {
      AtMostThreeAttempts(Apply(s, es[0]), es[1..], p);
    }
  }

  predicate Within(pc: Pc) {
    (pc.Reading? || pc.Writing?) ==> pc.n < ATTEMPTS
  }
}
