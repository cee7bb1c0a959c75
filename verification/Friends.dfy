/** `internal/friends/store.go`: trusted peers, looked up by name and by peer ID. */
module Friends {
  import opened ByteStrings

  datatype Friend = Friend(name: string, peerId: string, publicKey: string, hint: string)

  datatype Error = NotFound | NameTaken | PeerIdTaken

  predicate HasName(fs: seq<Friend>, name: string) {
    exists i :: 0 <= i < |fs| && fs[i].name == name
  }

  predicate HasPeer(fs: seq<Friend>, peerId: string) {
    exists i :: 0 <= i < |fs| && fs[i].peerId == peerId
  }

  /** No two friends share a name or a peer ID. */
  predicate Unique(fs: seq<Friend>) {
    forall i, j :: 0 <= i < j < |fs| ==> fs[i].name != fs[j].name && fs[i].peerId != fs[j].peerId
  }

  predicate Conflicts(f: Friend, g: Friend) {
    f.name == g.name || f.peerId == g.peerId
  }

  /** i is the first entry that conflicts with f. */
  predicate FirstConflict(fs: seq<Friend>, f: Friend, i: nat) {
    i < |fs| && Conflicts(fs[i], f) && forall k :: 0 <= k < i ==> !Conflicts(fs[k], f)
  }

  predicate FirstNamed(fs: seq<Friend>, name: string, i: nat) {
    i < |fs| && fs[i].name == name && forall k :: 0 <= k < i ==> fs[k].name != name
  }

  predicate LastNamed(fs: seq<Friend>, name: string, i: nat) {
    i < |fs| && fs[i].name == name && forall k :: i < k < |fs| ==> fs[k].name != name
  }

  class Store {
    var friends: seq<Friend>

    constructor (friends: seq<Friend>)
      ensures this.friends == friends
    {
      this.friends := friends;
    }

    /** Appends f, or says what the first conflicting entry has in common with it. */
    method Add(f: Friend) returns (err: Option<Error>)
      modifies this
      ensures err.None? <==> !HasName(old(friends), f.name) && !HasPeer(old(friends), f.peerId)
      ensures friends == if err.None? then old(friends) + [f] else old(friends)
      ensures err.Some? ==> exists i: nat :: FirstConflict(friends, f, i)
                                          && err.value == if friends[i].name == f.name then NameTaken else PeerIdTaken
      ensures Unique(old(friends)) ==> Unique(friends)
    {
      var i := 0;
      while i < |friends|
        invariant 0 <= i <= |friends|
        invariant forall k :: 0 <= k < i ==> !Conflicts(friends[k], f)
      {
        var g := friends[i];
        if g.name == f.name {
          assert FirstConflict(friends, f, i);
          return Some(NameTaken);
        }
        if g.peerId == f.peerId {
          assert FirstConflict(friends, f, i);
          return Some(PeerIdTaken);
        }
        i := i + 1;
      }
      friends := friends + [f];
      return None;
    }

    method GetByPeerID(peerId: string) returns (r: Option<Friend>)
      ensures r.Some? <==> HasPeer(friends, peerId)
      ensures r.Some? ==> r.value in friends && r.value.peerId == peerId
    {
      var i := 0;
      while i < |friends|
        invariant 0 <= i <= |friends|
        invariant forall k :: 0 <= k < i ==> friends[k].peerId != peerId
      {
        if friends[i].peerId == peerId {
          return Some(friends[i]);
        }
        i := i + 1;
      }
      return None;
    }

    method Remove(name: string) returns (err: Option<Error>)
      modifies this
      ensures err == if HasName(old(friends), name) then None else Some(NotFound)
      ensures err.Some? ==> friends == old(friends)
      ensures err.None? ==> exists i: nat :: FirstNamed(old(friends), name, i)
                                          && friends == old(friends)[..i] + old(friends)[i + 1..]
      ensures Unique(old(friends)) ==> Unique(friends) && !HasName(friends, name)
    {
      var i := 0;
      while i < |friends|
        invariant 0 <= i <= |friends| && friends == old(friends)
        invariant forall k :: 0 <= k < i ==> friends[k].name != name
      {
        if friends[i].name == name {
          assert FirstNamed(friends, name, i);
          friends := friends[..i] + friends[i + 1..];
          return None;
        }
        i := i + 1;
      }
      return Some(NotFound);
    }

    /** A taken name is reported before a missing one, and a friend cannot be renamed to
        the name it has. */
    method Rename(oldName: string, newName: string) returns (err: Option<Error>)
      modifies this
      ensures err == if HasName(old(friends), newName) then Some(NameTaken)
                     else if HasName(old(friends), oldName) then None
                     else Some(NotFound)
      ensures err.Some? ==> friends == old(friends)
      ensures err.None? ==> exists i: nat :: LastNamed(old(friends), oldName, i)
                                          && friends == old(friends)[i := old(friends)[i].(name := newName)]
      ensures Unique(old(friends)) ==> Unique(friends)
    {
      var idx := -1;
      var i := 0;
      while i < |friends|
        invariant 0 <= i <= |friends| && friends == old(friends)
        invariant forall k :: 0 <= k < i ==> friends[k].name != newName
        invariant -1 <= idx < i
        invariant idx == -1 ==> forall k :: 0 <= k < i ==> friends[k].name != oldName
        invariant idx >= 0 ==> friends[idx].name == oldName && forall k :: idx < k < i ==> friends[k].name != oldName
      {
        if friends[i].name == oldName {
          idx := i;
        }
        if friends[i].name == newName {
          return Some(NameTaken);
        }
        i := i + 1;
      }
      if idx < 0 {
        return Some(NotFound);
      }
      assert LastNamed(friends, oldName, idx);
      friends := friends[idx := friends[idx].(name := newName)];
      return None;
    }
  }

  /** Removing the friend just added restores the list, whatever else is in it. */
  method AddThenRemove(s: Store, f: Friend)
    modifies s
    ensures !HasName(old(s.friends), f.name) ==> s.friends == old(s.friends)
  {
    var added := s.Add(f);
    ghost var fs := s.friends;
    var removed := s.Remove(f.name);
    if !HasName(old(s.friends), f.name) && added.None? {
      assert fs[|fs| - 1].name == f.name;
      forall i: nat | FirstNamed(fs, f.name, i) ensures fs[..i] + fs[i + 1..] == old(s.friends) {
        assert i == |fs| - 1;
      }
    }
  }

  /** With a friend of the new name and none of the old, the taken name is reported. */
  method TakenBeforeMissing(f: Friend, missing: string) returns (err: Option<Error>)
    ensures err == Some(NameTaken)
  {
    var s := new Store([f]);
    assert s.friends[0].name == f.name;
    err := s.Rename(missing, f.name);
  }

  /** Renaming there and back changes nothing. */
  method RenameBack(s: Store, a: string, b: string) returns (ok: bool)
    requires Unique(s.friends)
    modifies s
    ensures ok <==> HasName(old(s.friends), a) && !HasName(old(s.friends), b)
    ensures s.friends == old(s.friends)
  {
    var there := s.Rename(a, b);
    if there.Some? {
      return false;
    }
    ghost var fs, gs := old(s.friends), s.friends;
    ghost var i: nat :| LastNamed(fs, a, i) && gs == fs[i := fs[i].(name := b)];
    assert gs[i].name == b;
    assert !HasName(gs, a) by {
      assert forall k :: 0 <= k < |fs| && k != i ==> gs[k] == fs[k] && fs[k].name != a;
    }
    var back := s.Rename(b, a);
    ghost var j: nat :| LastNamed(gs, b, j) && s.friends == gs[j := gs[j].(name := a)];
    assert i == j;
    return true;
  }
}
