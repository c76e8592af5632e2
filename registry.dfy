/**
 * The server's list of connected clients (`self.clients`) and the two list
 * operations it applies to it: the membership test `c in clients` and
 * `clients.remove(c)`, which deletes the first occurrence.
 */
module Registry {
  import opened Sequences

  /** Stands for a connected socket object; only its identity matters. */
  type ClientId = nat

  predicate NoDuplicates(s: seq<ClientId>) {
    forall i, j | 0 <= i < j < |s| :: s[i] != s[j]
  }

  /** `s.index(c)`: the position of the first occurrence of `c`. */
  function Position(s: seq<ClientId>, c: ClientId): (i: nat)
    requires c in s
    ensures i < |s| && s[i] == c && c !in s[..i]
  {
    if s[0] == c then 0
    else
      var i := Position(s[1..], c) + 1;
      assert s[..i] == [s[0]] + s[1..][..i - 1];
      i
  }

  /** `s.remove(c)` for a present `c`, and `s` unchanged for an absent one. */
  function RemoveFirst(s: seq<ClientId>, c: ClientId): (r: seq<ClientId>)
    ensures c !in s ==> r == s
    ensures c in s ==> |r| == |s| - 1
    ensures multiset(r) == multiset(s) - multiset{c}
  {
    if s == [] then []
    else
      assert s == [s[0]] + s[1..];
      if s[0] == c then s[1..] else [s[0]] + RemoveFirst(s[1..], c)
  }

  /** Removal deletes the first occurrence and keeps the order of every other client. */
  lemma {:induction false} RemoveFirstDeletesFirstOccurrence(s: seq<ClientId>, c: ClientId)
    requires c in s
    ensures RemoveFirst(s, c) == s[..Position(s, c)] + s[Position(s, c) + 1..]
  {
    if s[0] != c {
      RemoveFirstDeletesFirstOccurrence(s[1..], c);
      assert Position(s, c) == Position(s[1..], c) + 1;
      ConsDelete(s, Position(s, c));
    }
  }

  /** Removal only ever deletes: every client left was there before. */
  lemma RemoveFirstOnlyDeletes(s: seq<ClientId>, c: ClientId)
    ensures forall d | d in RemoveFirst(s, c) :: d in s
  {
  }

  /** Dropping the head keeps a list duplicate-free, and the head does not occur again. */
  lemma TailHasNoDuplicates(s: seq<ClientId>)
    requires s != [] && NoDuplicates(s)
    ensures NoDuplicates(s[1..]) && s[0] !in s[1..]
  {
  }

  /** A client occurs at most once in a duplicate-free list. */
  lemma {:induction false} AtMostOnce(s: seq<ClientId>, c: ClientId)
    requires NoDuplicates(s)
    ensures multiset(s)[c] <= 1
  {
    if s != [] {
      var t := s[1..];
      assert s == [s[0]] + t;
      TailHasNoDuplicates(s);
      AtMostOnce(t, c);
    }
  }

  /** Deleting one position keeps a list duplicate-free. */
  lemma DeleteKeepsNoDuplicates(s: seq<ClientId>, p: nat)
    requires NoDuplicates(s) && p < |s|
    ensures NoDuplicates(s[..p] + s[p + 1..])
  {
  }

  /**
   * In a list without duplicates removal deletes the client altogether and
   * keeps the list duplicate-free, so a second removal changes nothing.
   */
  lemma {:induction false} RemoveIsIdempotent(s: seq<ClientId>, c: ClientId)
    requires NoDuplicates(s)
    ensures c !in RemoveFirst(s, c)
    ensures NoDuplicates(RemoveFirst(s, c))
    ensures RemoveFirst(RemoveFirst(s, c), c) == RemoveFirst(s, c)
  {
    AtMostOnce(s, c);
    assert multiset(RemoveFirst(s, c))[c] == 0;
    if c in s {
      RemoveFirstDeletesFirstOccurrence(s, c);
      DeleteKeepsNoDuplicates(s, Position(s, c));
    }
  }
}
