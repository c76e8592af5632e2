/**
 * Decoded JSON values as the Python runtime holds them after `json.loads`:
 * an object is a `dict`, which keeps its keys in insertion order, so it is
 * modelled as an association list.  The dictionary operations the socket
 * server uses (`get`/`[...]`, `pop`, item assignment) and Python truthiness
 * are defined here.
 */
module Json {
  import opened Wrappers
  import opened Sequences

  datatype Json =
    | JNull
    | JBool(b: bool)
    // the number as Python holds it after decoding, mantissa * 10^exponent:
    // a literal that underflows to 0.0, such as 1e-400, is JNumber(0, _)
    | JNumber(mantissa: int, exponent: int)
    | JString(str: string)
    | JArray(items: seq<Json>)
    | JObject(members: seq<Member>)

  datatype Member = Member(key: string, value: Json)

  /** The contents of a dict, in insertion order. */
  type Object = seq<Member>

  /** Python's truth value of a decoded JSON value (`if x:`). */
  predicate Truthy(j: Json): (r: bool)
    ensures j == JNull || j == JBool(false) ==> !r
    ensures j.JObject? ==> (r <==> Keys(j.members) != {})
    ensures j.JArray? ==> (r <==> |j.items| > 0)
  {
    match j
    case JNull => false
    case JBool(b) => b
    case JNumber(m, _) => m != 0
    case JString(s) => s != ""
    case JArray(items) => items != []
    case JObject(members) => members != []
  }

  function Keys(o: Object): set<string> {
    if o == [] then {} else {o[0].key} + Keys(o[1..])
  }

  /** A dict never holds a key twice. */
  predicate UniqueKeys(o: Object) {
    o == [] || (o[0].key !in Keys(o[1..]) && UniqueKeys(o[1..]))
  }

  /** `d.get(k)`, and `d[k]` where `None` stands for the raised KeyError. */
  function Get(o: Object, k: string): (r: Option<Json>)
    ensures r.Some? <==> k in Keys(o)
    ensures r.Some? ==> Member(k, r.value) in o
  {
    if o == [] then None
    else if o[0].key == k then Some(o[0].value)
    else Get(o[1..], k)
  }

  /** `d.pop(k, default)` with its return value discarded: the key is gone, nothing else changes. */
  function Pop(o: Object, k: string): (r: Object)
    ensures Keys(r) == Keys(o) - {k}
    ensures Get(r, k) == None
    ensures forall j | j != k :: Get(r, j) == Get(o, j)
    ensures k !in Keys(o) ==> r == o
    ensures UniqueKeys(o) ==> UniqueKeys(r)
  {
    if o == [] then []
    else if o[0].key == k then Pop(o[1..], k)
    else [o[0]] + Pop(o[1..], k)
  }

  /**
   * `d[k] = v`: the value of an existing key is replaced where it stands,
   * a new key goes at the end.
   */
  function Assign(o: Object, k: string, v: Json): (r: Object)
    ensures Keys(r) == Keys(o) + {k}
    ensures Get(r, k) == Some(v)
    ensures forall j | j != k :: Get(r, j) == Get(o, j)
    ensures k !in Keys(o) ==> r == o + [Member(k, v)]
    ensures UniqueKeys(o) ==> UniqueKeys(r)
  {
    if o == [] then [Member(k, v)]
    else if o[0].key == k then [Member(k, v)] + o[1..]
    else
      var rest := Assign(o[1..], k, v);
      assert [o[0]] + (o[1..] + [Member(k, v)]) == o + [Member(k, v)];
      [o[0]] + rest
  }

  /** The position of key `k` in the dict's order. */
  function IndexOf(o: Object, k: string): (i: nat)
    requires k in Keys(o)
    ensures i < |o| && o[i].key == k
    ensures k !in Keys(o[..i])
  {
    if o[0].key == k then 0
    else
      var i := IndexOf(o[1..], k) + 1;
      assert o[..i] == [o[0]] + o[1..][..i - 1];
      i
  }

  /** On a dict, `pop` of a present key removes exactly its one member and keeps the order of the rest. */
  lemma {:induction false} PopRemovesOneMember(o: Object, k: string)
    requires UniqueKeys(o) && k in Keys(o)
    ensures Pop(o, k) == o[..IndexOf(o, k)] + o[IndexOf(o, k) + 1..]
  {
    if o[0].key != k {
      PopRemovesOneMember(o[1..], k);
      assert IndexOf(o, k) == IndexOf(o[1..], k) + 1;
      ConsDelete(o, IndexOf(o, k));
    }
  }

  /** Assigning to a present key replaces its member where it stands. */
  lemma {:induction false} AssignReplacesInPlace(o: Object, k: string, v: Json)
    requires k in Keys(o)
    ensures Assign(o, k, v) == o[..IndexOf(o, k)] + [Member(k, v)] + o[IndexOf(o, k) + 1..]
  {
    if o[0].key != k {
      AssignReplacesInPlace(o[1..], k, v);
      assert IndexOf(o, k) == IndexOf(o[1..], k) + 1;
      ConsSplice(o, Member(k, v), IndexOf(o, k));
    }
  }
}
