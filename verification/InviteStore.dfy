/** `internal/invite/store.go`: the active invites, used up by compare-and-set. */
module InviteStores {
  import opened ByteStrings

  type Code = string

  /** Times are seconds on one clock. */
  datatype Entry = Entry(code: Code, expiresAt: int, consumed: bool, consumedBy: string, createdAt: int)

  type Entries = map<Code, Entry>

  /** The compare of MarkConsumed. */
  predicate Redeemable(es: Entries, c: Code, now: int) {
    c in es && !es[c].consumed && now <= es[c].expiresAt
  }

  /** The set of MarkConsumed. */
  function Marked(es: Entries, c: Code, peer: string): Entries
    requires c in es
  {
    es[c := es[c].(consumed := true, consumedBy := peer)]
  }

  function Unmarked(es: Entries, c: Code): Entries {
    if c in es && es[c].consumed then es[c := es[c].(consumed := false, consumedBy := "")] else es
  }

  /** Entries are filed under their code, and name a redeemer only if they have one. */
  ghost predicate Tidy(es: Entries) {
    forall c <- es :: es[c].code == c && (!es[c].consumed ==> es[c].consumedBy == "")
  }

  /** Unmarking undoes marking, and nothing else. */
  lemma MarkUnmark(es: Entries, c: Code, peer: string, now: int)
    requires Tidy(es) && Redeemable(es, c, now)
    ensures Unmarked(Marked(es, c, peer), c) == es
    ensures Tidy(Marked(es, c, peer))
    ensures forall t :: !Redeemable(Marked(es, c, peer), c, t)
  {
    var es' := Marked(es, c, peer);
    assert Unmarked(es', c)[c] == es[c];
    assert Unmarked(es', c) == es;
  }

  class Store {
    var entries: Entries

    constructor ()
      ensures entries == map[]
    {
      entries := map[];
    }

    method Add(e: Entry)
      modifies this
      ensures entries == old(entries)[e.code := e]
      ensures Tidy(old(entries)) && (!e.consumed ==> e.consumedBy == "") ==> Tidy(entries)
    {
      entries := entries[e.code := e];
    }

    method Get(c: Code) returns (e: Option<Entry>)
      ensures e == if c in entries then Some(entries[c]) else None
    {
      e := if c in entries then Some(entries[c]) else None;
    }

    /** Takes an invite that is known, unused and not expired; of any callers in a row
        only the first succeeds. */
    method MarkConsumed(c: Code, peer: string, now: int) returns (ok: bool)
      modifies this
      ensures ok <==> Redeemable(old(entries), c, now)
      ensures ok <==> c in old(entries) && !old(entries)[c].consumed && now <= old(entries)[c].expiresAt
      ensures entries == if ok then Marked(old(entries), c, peer) else old(entries)
      ensures ok ==> c in entries && entries[c].consumed && entries[c].consumedBy == peer && entries - {c} == old(entries) - {c}
      ensures forall t :: ok ==> !Redeemable(entries, c, t)
      ensures Tidy(old(entries)) ==> Tidy(entries)
    {
      var e := Get(c);
      if e.None? || e.value.consumed || now > e.value.expiresAt {
        return false;
      }
      entries := entries[c := e.value.(consumed := true, consumedBy := peer)];
      return true;
    }

    method UnmarkConsumed(c: Code)
      modifies this
      ensures entries == Unmarked(old(entries), c)
      ensures c in old(entries) && old(entries)[c].consumed ==>
                entries == old(entries)[c := old(entries)[c].(consumed := false, consumedBy := "")]
      ensures c !in old(entries) || !old(entries)[c].consumed ==> entries == old(entries)
      ensures Tidy(old(entries)) ==> Tidy(entries)
    {
      var e := Get(c);
      if e.None? || !e.value.consumed {
        return;
      }
      entries := entries[c := e.value.(consumed := false, consumedBy := "")];
    }

    method Remove(c: Code) returns (existed: bool)
      modifies this
      ensures existed == (c in old(entries)) && entries == old(entries) - {c}
      ensures Tidy(old(entries)) ==> Tidy(entries)
    {
      existed := c in entries;
      if existed {
        entries := entries - {c};
      }
    }
  }
}
