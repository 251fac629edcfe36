/** The live objects of a running command: saving merges with the file and copies the result back into
    the objects the command already holds, without replacing them. */
module LiveProfile {
  import opened Basics
  import opened ProfileMerge

  /** A peer object the command may keep a reference to. */
  class PeerObject {
    var fields: Record

    constructor (fields: Record)
      ensures this.fields == fields
    {
      this.fields := fields;
    }

    /** Make this object hold the source's fields: names it lacks go, all others are set. */
    method Adopt(source: Record)
      modifies this
      ensures fields == source
    {
      var names := fields.Keys;
      while names != {}
        invariant forall k :: k in fields && k !in names ==> k in source
        decreases names
      {
        var k :| k in names;
        names := names - {k};
        if k !in source {
          fields := fields - {k};
        }
      }
      names := source.Keys;
      while names != {}
        invariant fields.Keys <= source.Keys && names <= source.Keys
        invariant forall k :: k in source && k !in names ==> k in fields && fields[k] == source[k]
        decreases names
      {
        var k :| k in names;
        names := names - {k};
        fields := fields[k := source[k]];
      }
    }
  }

  /** No object is filed under two handles. */
  ghost predicate Distinct(peers: map<string, PeerObject>) {
    forall g, h :: g in peers && h in peers && g != h ==> peers[g] != peers[h]
  }

  class ProfileObject {
    var did: string
    var fields: map<string, string>
    var peers: map<string, PeerObject>

    /** Every handle has an object of its own, holding a peer. */
    ghost predicate Valid()
      reads this, peers.Values
    {
      && Distinct(peers)
      && (forall h :: h in peers ==> IsPeer(peers[h].fields))
    }

    ghost function Value(): Profile
      requires Valid()
      reads this, peers.Values
    {
      Profile(did, fields, map h | h in peers :: peers[h].fields)
    }

    /** The JSON value of this object. */
    method Copy() returns (p: Profile)
      requires Valid()
      ensures p == Value()
    {
      p := Profile(did, fields, map h | h in peers :: peers[h].fields);
    }

    constructor (p: Profile)
      ensures Valid() && Value() == p && forall h :: h in peers ==> fresh(peers[h])
    {
      did, fields, peers := p.did, p.fields, map[];
      new;
      var left := p.peers.Keys;
      while left != {}
        invariant left <= p.peers.Keys && peers.Keys == p.peers.Keys - left
        invariant forall h :: h in peers ==> fresh(peers[h]) && peers[h].fields == p.peers[h]
        invariant Distinct(peers)
        invariant did == p.did && fields == p.fields
        decreases left
      {
        var h :| h in left;
        left := left - {h};
        var peer := new PeerObject(p.peers[h]);
        peers := peers[h := peer];
      }
    }

    /** Delete the unfinished pairings that have expired. */
    method DropExpiredPending(now: int)
      requires Valid()
      modifies this`peers
      ensures Valid() && Value() == PrunedProfile(old(Value()), now)
      ensures forall h :: h in peers ==> h in old(peers) && peers[h] == old(peers)[h]
    {
      var left := peers.Keys;
      while left != {}
        invariant left <= old(peers).Keys
        invariant forall h :: h in peers ==> h in old(peers) && peers[h] == old(peers)[h]
        invariant forall h :: h in old(peers) ==>
          (h in peers <==> h in left || !ExpiredPending(old(peers)[h].fields, now))
        decreases left
      {
        var h :| h in left;
        left := left - {h};
        if ExpiredPending(peers[h].fields, now) {
          peers := peers - {h};
        }
      }
    }

    /** Handles the source lacks are dropped. */
    method DropOthers(handles: set<string>)
      requires Valid()
      modifies this`peers
      ensures Valid() && peers == map h | h in old(peers) && h in handles :: old(peers)[h]
    {
      var left := peers.Keys;
      while left != {}
        invariant left <= old(peers).Keys
        invariant peers == map h | h in old(peers) && (h in left || h in handles) :: old(peers)[h]
        decreases left
      {
        var h :| h in left;
        left := left - {h};
        if h !in handles {
          peers := peers - {h};
        }
      }
    }

    /** A peer already held is updated in place, a new one is added. */
    method AdoptPeer(h: string, source: Peer)
      requires Distinct(peers)
      modifies this`peers, if h in peers then {peers[h]} else {}
      ensures Distinct(peers) && h in peers && peers[h].fields == source
      ensures peers == old(peers)[h := peers[h]]
      ensures if h in old(peers) then peers[h] == old(peers)[h] else fresh(peers[h])
    {
      if h in peers {
        peers[h].Adopt(source);
      } else {
        var peer := new PeerObject(source);
        peers := peers[h := peer];
      }
    }

    /** The second loop of `AdoptPeers`: every handle of the source is set. */
    method AdoptAll(source: map<string, Peer>)
      requires Distinct(peers) && peers.Keys <= source.Keys
      modifies this`peers, peers.Values
      ensures Distinct(peers) && peers.Keys == source.Keys
      ensures forall h :: h in source ==> peers[h].fields == source[h]
      ensures forall h :: h in source ==> if h in old(peers) then peers[h] == old(peers)[h] else fresh(peers[h])
    {
      var left := source.Keys;
      while left != {}
        invariant left <= source.Keys && Distinct(peers)
        invariant forall h :: h in peers <==> h in old(peers) || (h in source && h !in left)
        invariant forall h :: h in peers ==> if h in old(peers) then peers[h] == old(peers)[h] else fresh(peers[h])
        invariant forall h :: h in source && h !in left ==> peers[h].fields == source[h]
        decreases left
      {
        var h :| h in left;
        left := left - {h};
        if h in peers && h in old(peers) {
          assert peers[h] in old(peers).Values;
        }
        AdoptPeer(h, source[h]);
      }
    }

    /** Handles the source lacks are dropped, then the others go through one by one. */
    method AdoptPeers(source: map<string, Peer>)
      requires Valid()
      modifies this`peers, peers.Values
      ensures Valid() && Value() == old(Value()).(peers := source)
      ensures forall h :: h in source && h in old(peers) ==> peers[h] == old(peers)[h]
      ensures forall h :: h in source && h !in old(peers) ==> fresh(peers[h])
    {
      DropOthers(source.Keys);
      assert peers.Values <= old(peers).Values;
      AdoptAll(source);
    }

    /** Make this object hold the saved profile without replacing the peer objects it holds. */
    method Adopt(source: Profile)
      requires Valid()
      modifies this, peers.Values
      ensures Valid() && Value() == source
      ensures forall h :: h in source.peers && h in old(peers) ==> peers[h] == old(peers)[h]
      ensures forall h :: h in source.peers && h !in old(peers) ==> fresh(peers[h])
    {
      did, fields := source.did, source.fields;
      AdoptPeers(source.peers);
    }
  }

  /** profile.json, and what each live profile object looked like at its last load or save. The caller
      of `SaveProfile` holds the profile lock. */
  class Store {
    var file: Option<Profile>
    var baselines: map<ProfileObject, Profile>

    /** A loaded profile is the file without its expired pairings; the file is not changed. */
    method LoadProfile(now: int) returns (p: ProfileObject)
      requires file.Some?
      modifies this`baselines
      ensures fresh(p) && p.Valid() && p.Value() == PrunedProfile(file.value, now)
      ensures forall h :: h in p.peers ==> fresh(p.peers[h])
      ensures baselines == old(baselines)[p := p.Value()]
    {
      p := new ProfileObject(file.value);
      p.DropExpiredPending(now);
      baselines := baselines[p := PrunedProfile(file.value, now)];
    }

    method Merge(p: ProfileObject, onDisk: Profile, now: int) returns (r: Result<Profile, Error>)
      requires p.Valid() && p in baselines
      ensures r.Success? <==> Mergeable(baselines[p], p.Value(), PrunedProfile(onDisk, now))
      ensures r.Success? ==> r.value == Merged(baselines[p], p.Value(), PrunedProfile(onDisk, now))
    {
      var mine := p.Copy();
      r := MergeProfile(baselines[p], mine, PrunedProfile(onDisk, now));
    }

    /** Writes `result` and makes the caller's object hold it; the objects of surviving peers stay. */
    method Install(p: ProfileObject, result: Profile)
      requires p.Valid()
      modifies this, p, p.peers.Values
      ensures file == Some(result) && p.Valid() && p.Value() == result
      ensures forall h :: h in p.peers ==> if h in old(p.peers) then p.peers[h] == old(p.peers)[h] else fresh(p.peers[h])
      ensures baselines == old(baselines)[p := result]
    {
      file := Some(result);
      p.Adopt(result);
      baselines := baselines[p := result];
    }

    /** An object without a baseline replaces the file. */
    method Overwrite(p: ProfileObject, later: int, last: int)
      requires p.Valid()
      modifies this, p`peers
      ensures file == Some(PrunedProfile(old(p.Value()), later))
      ensures p.Valid() && p.Value() == PrunedProfile(PrunedProfile(old(p.Value()), later), last)
      ensures forall h :: h in p.peers ==> h in old(p.peers) && p.peers[h] == old(p.peers)[h]
      ensures baselines == old(baselines)[p := p.Value()]
    {
      WritePruned(p, later);
      p.DropExpiredPending(last);
      Remember(p);
    }

    method WritePruned(p: ProfileObject, now: int)
      requires p.Valid()
      modifies this`file, p`peers
      ensures file == Some(PrunedProfile(old(p.Value()), now))
      ensures p.Valid() && p.Value() == file.value
      ensures forall h :: h in p.peers ==> h in old(p.peers) && p.peers[h] == old(p.peers)[h]
    {
      p.DropExpiredPending(now);
      var written := p.Copy();
      file := Some(written);
    }

    method Remember(p: ProfileObject)
      requires p.Valid()
      modifies this`baselines
      ensures baselines == old(baselines)[p := p.Value()]
    {
      var value := p.Copy();
      baselines := baselines[p := value];
    }

    /** An object with a baseline is merged onto the current file, any other replaces the file. After an accepted save the caller's object equals the file, its surviving
        peer objects are the ones it held, and that is the new baseline. A refusal changes nothing.
        The clock is read up to three times. */
    method SaveProfile(p: ProfileObject, now: int, later: int, last: int) returns (r: Result<(), Error>)
      requires p.Valid()
      modifies this, p, p.peers.Values
      ensures p.Valid()
      ensures p in old(baselines) && old(file).Some? ==>
        (r.Success? <==> Mergeable(old(baselines)[p], old(p.Value()), PrunedProfile(old(file).value, now)))
      ensures p in old(baselines) && old(file).Some? && r.Success? ==>
        && file == Some(PrunedProfile(Merged(old(baselines)[p], old(p.Value()), PrunedProfile(old(file).value, now)), later))
        && p.Value() == file.value
        && forall h :: h in p.peers ==> if h in old(p.peers) then p.peers[h] == old(p.peers)[h] else fresh(p.peers[h])
      ensures r.Failure? ==>
        file == old(file) && baselines == old(baselines) && p.Value() == old(p.Value()) && p.peers == old(p.peers)
      ensures p !in old(baselines) || old(file).None? ==>
        && r.Success?
        && file == Some(PrunedProfile(old(p.Value()), later)) && p.Value() == PrunedProfile(file.value, last)
        && forall h :: h in p.peers ==> h in old(p.peers) && p.peers[h] == old(p.peers)[h]
      ensures r.Success? ==> baselines == old(baselines)[p := p.Value()]
    {
      if p in baselines && file.Some? {
        var merged := Merge(p, file.value, now);
        if merged.Failure? {
          return Failure(merged.error);
        }
        Install(p, PrunedProfile(merged.value, later));
      } else {
        Overwrite(p, later, last);
      }
      r := Success(());
    }
  }
}
