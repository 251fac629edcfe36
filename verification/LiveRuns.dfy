/** The live object of one command seen as its copy in the states of module ProfileRuns: each load and each save is
    the event of the same name. The objects of other commands are not touched. */
module LiveRuns {
  import opened Basics
  import opened ProfileMerge
  import opened LiveProfile
  import ProfileRuns

  /** The file is that of `s`, and the object and its baseline are the copy of command `i`. */
  ghost predicate Shows(store: Store, o: ProfileObject, i: nat, s: ProfileRuns.State)
    reads store, o, o.peers.Values
  {
    && o.Valid() && o in store.baselines && store.file == Some(s.file)
    && i in s.copies && s.copies[i] == ProfileRuns.Copy(store.baselines[o], o.Value())
  }

  /** A load gives command `i` a new object, and all other objects and baselines stay. */
  method Load(store: Store, i: nat, now: int, ghost s: ProfileRuns.State) returns (p: ProfileObject)
    requires store.file == Some(s.file)
    modifies store
    ensures fresh(p) && store.baselines.Keys == old(store.baselines).Keys + {p}
    ensures forall o :: o in old(store.baselines) && o != p ==> store.baselines[o] == old(store.baselines)[o]
    ensures Shows(store, p, i, ProfileRuns.Apply(s, ProfileRuns.Load(i, now)))
  {
    p := store.LoadProfile(now);
  }

  /** A save by command `i`, accepted or refused. */
  method Save(store: Store, p: ProfileObject, i: nat, now: int, later: int, last: int, ghost s: ProfileRuns.State)
      returns (r: Result<(), Error>)
    requires Shows(store, p, i, s)
    modifies store, p, p.peers.Values
    ensures forall o :: o in old(store.baselines) && o != p ==> o in store.baselines && store.baselines[o] == old(store.baselines)[o]
    ensures r.Success? <==> ProfileRuns.Accepted(s, ProfileRuns.Save(i, now, later))
    ensures Shows(store, p, i, ProfileRuns.Apply(s, ProfileRuns.Save(i, now, later)))
  {
    r := store.SaveProfile(p, now, later, last);
  }

  /** The save of a profile made from scratch. */
  method Overwrite(store: Store, p: ProfileObject, i: nat, now: int, later: int, last: int, ghost s: ProfileRuns.State)
    requires store.file == Some(s.file) && p.Valid() && p !in store.baselines
    modifies store, p, p.peers.Values
    ensures forall o :: o in old(store.baselines) && o != p ==> o in store.baselines && store.baselines[o] == old(store.baselines)[o]
    ensures Shows(store, p, i, ProfileRuns.Apply(s, ProfileRuns.Overwrite(i, old(p.Value()), later, last)))
  {
    var r := store.SaveProfile(p, now, later, last);
  }
}
