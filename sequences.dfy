/** Two facts about putting a sequence's head back in front of an edit of its tail. */
module Sequences {

  /** Deleting position `i - 1` of the tail, then restoring the head, deletes position `i`. */
  lemma ConsDelete<T>(s: seq<T>, i: nat)
    requires 0 < i < |s|
    ensures [s[0]] + (s[1..][..i - 1] + s[1..][i..]) == s[..i] + s[i + 1..]
  {
  }

  /** Replacing position `i - 1` of the tail, then restoring the head, replaces position `i`. */
  lemma ConsSplice<T>(s: seq<T>, x: T, i: nat)
    requires 0 < i < |s|
    ensures [s[0]] + (s[1..][..i - 1] + [x] + s[1..][i..]) == s[..i] + [x] + s[i + 1..]
  {
  }
}
