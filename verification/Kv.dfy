/** The key-value store: every key holds a value under an etag that no other write ever had. */
module Kv {
  import opened Basics

  datatype Cell<V> = Cell(value: V, etag: nat)

  datatype Store<K, V> = Store(cells: map<K, Cell<V>>, next: nat)

  datatype Error = Conflict | Unreachable

  predicate Fresh<K, V>(s: Store<K, V>) {
    forall k :: k in s.cells ==> s.cells[k].etag < s.next
  }

  function Put<K, V>(s: Store<K, V>, k: K, v: V): Store<K, V> {
    Store(s.cells[k := Cell(v, s.next)], s.next + 1)
  }

  /** Create-only: a key that is there stays as it is. */
  function PutCreate<K, V>(s: Store<K, V>, k: K, v: V): (Store<K, V>, Result<(), Error>) {
    if k in s.cells then (s, Failure(Conflict)) else (Put(s, k, v), Success(()))
  }

  /** If-match: writes only over the write that had this etag. */
  function PutMatch<K, V>(s: Store<K, V>, k: K, v: V, etag: nat): (Store<K, V>, Result<(), Error>) {
    if k in s.cells && s.cells[k].etag == etag then (Put(s, k, v), Success(())) else (s, Failure(Conflict))
  }

  datatype Write<K, V> = Overwrite(k: K, v: V) | Create(k: K, v: V) | Match(k: K, v: V, etag: nat)

  function Apply<K, V>(s: Store<K, V>, w: Write<K, V>): Store<K, V> {
    match w
    case Overwrite(k, v) => Put(s, k, v)
    case Create(k, v) => PutCreate(s, k, v).0
    case Match(k, v, etag) => PutMatch(s, k, v, etag).0
  }

  /** Any writers' writes, in the order in which the store takes them. */
  function ApplyAll<K, V>(s: Store<K, V>, ws: seq<Write<K, V>>): Store<K, V>
    decreases |ws|
  {
    if ws == [] then s else ApplyAll(Apply(s, ws[0]), ws[1..])
  }

  /** This write succeeds, and is to this key. */
  predicate Hits<K, V>(s: Store<K, V>, w: Write<K, V>, k: K) {
    w.k == k && match w
      case Overwrite(_, _) => true
      case Create(_, _) => k !in s.cells
      case Match(_, _, etag) => k in s.cells && s.cells[k].etag == etag
  }

  /** None of these writes to the key succeeds. */
  predicate Untouched<K, V>(s: Store<K, V>, ws: seq<Write<K, V>>, k: K)
    decreases |ws|
  {
    ws == [] || (!Hits(s, ws[0], k) && Untouched(Apply(s, ws[0]), ws[1..], k))
  }

  lemma WriteChanges<K, V>(s: Store<K, V>, w: Write<K, V>, k: K)
    requires Fresh(s)
    ensures var t := Apply(s, w);
      && Fresh(t) && s.next <= t.next
      && Get(t.cells, k) == (if Hits(s, w, k) then Some(Cell(w.v, s.next)) else Get(s.cells, k))
      && (Hits(s, w, k) ==> t.next > s.next)
  {
  }

  /** After any writes the key has the cell it had, or one with an etag that is newer. */
  lemma {:induction false} WritesAreNewer<K, V>(s: Store<K, V>, ws: seq<Write<K, V>>, k: K)
    requires Fresh(s)
    ensures var t := ApplyAll(s, ws);
      && Fresh(t) && s.next <= t.next
      && (if Untouched(s, ws, k) then Get(t.cells, k) == Get(s.cells, k) else k in t.cells && t.cells[k].etag >= s.next)
    decreases |ws|
  {
    if ws != [] {
      WriteChanges(s, ws[0], k);
      WritesAreNewer(Apply(s, ws[0]), ws[1..], k);
    }
  }

  /** After any writes by anybody, an if-match write of the etag that was read succeeds exactly when none of them
      wrote the key. */
  lemma {:induction false} MatchSeesNoOtherWrite<K, V>(s: Store<K, V>, ws: seq<Write<K, V>>, k: K, v: V)
    requires Fresh(s) && k in s.cells
    ensures PutMatch(ApplyAll(s, ws), k, v, s.cells[k].etag).1.Success? <==> Untouched(s, ws, k)
  {
    WritesAreNewer(s, ws, k);
  }

  /** A create-only write that follows a read of nothing succeeds exactly when none of them wrote the key. */
  lemma {:induction false} CreateSeesNoOtherWrite<K, V>(s: Store<K, V>, ws: seq<Write<K, V>>, k: K, v: V)
    requires Fresh(s) && k !in s.cells
    ensures PutCreate(ApplyAll(s, ws), k, v).1.Success? <==> Untouched(s, ws, k)
  {
    WritesAreNewer(s, ws, k);
  }

  /** The store as the helpers use it: `Value` is its contents. */
  class Space<K(==), V> {
    var cells: map<K, Cell<V>>
    var next: nat

    function Value(): Store<K, V>
      reads this
    {
      Store(cells, next)
    }

    constructor ()
      ensures Value() == Store(map[], 0)
    {
      cells, next := map[], 0;
    }

    method GetJson(k: K) returns (r: Option<Cell<V>>)
      ensures r == Get(cells, k)
    {
      r := if k in cells then Some(cells[k]) else None;
    }

    method PutOverwrite(k: K, v: V)
      modifies this
      ensures Value() == Put(old(Value()), k, v)
    {
      cells := cells[k := Cell(v, next)];
      next := next + 1;
    }

    method TryCreate(k: K, v: V) returns (r: Result<(), Error>)
      modifies this
      ensures (Value(), r) == PutCreate(old(Value()), k, v)
    {
      if k in cells {
        return Failure(Conflict);
      }
      PutOverwrite(k, v);
      r := Success(());
    }

    method TryMatch(k: K, v: V, etag: nat) returns (r: Result<(), Error>)
      modifies this
      ensures (Value(), r) == PutMatch(old(Value()), k, v, etag)
    {
      if k !in cells || cells[k].etag != etag {
        return Failure(Conflict);
      }
      PutOverwrite(k, v);
      r := Success(());
    }
  }
}
