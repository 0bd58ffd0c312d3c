/** A JavaScript object used as a dictionary: its own string keys with their
    values, in insertion order. Assigning `obj[k] = v` updates an existing key
    where it stands and appends a new key at the end. */
module Dicts {
  import opened Wrappers

  type Dict<V> = seq<(string, V)>

  /** `obj[k]`: the value stored under `k`, or `undefined`. */
  function Get<V>(d: Dict<V>, k: string): Option<V>
  {
    if d == [] then None
    else if d[0].0 == k then Some(d[0].1)
    else Get(d[1..], k)
  }

  /** `Object.keys(obj)`, in order. */
  function KeyList<V>(d: Dict<V>): (ks: seq<string>)
    ensures |ks| == |d|
    ensures forall i :: 0 <= i < |d| ==> ks[i] == d[i].0
  {
    if d == [] then [] else [d[0].0] + KeyList(d[1..])
  }

  function Keys<V>(d: Dict<V>): set<string>
  {
    set i | 0 <= i < |d| :: d[i].0
  }

  lemma {:induction false} GetDefinedIff<V>(d: Dict<V>, k: string)
    ensures Get(d, k).Some? <==> k in Keys(d)
  {
    if d != [] {
      GetDefinedIff(d[1..], k);
      assert Keys(d) == {d[0].0} + Keys(d[1..]) by {
        forall x | x in Keys(d) ensures x in {d[0].0} + Keys(d[1..]) {
          var i :| 0 <= i < |d| && d[i].0 == x;
          if i > 0 { assert d[1..][i - 1].0 == x; }
        }
        forall x | x in Keys(d[1..]) ensures x in Keys(d) {
          var i :| 0 <= i < |d[1..]| && d[1..][i].0 == x;
          assert d[i + 1].0 == x;
        }
      }
    }
  }

  /** `obj[k] = v`. */
  function Put<V>(d: Dict<V>, k: string, v: V): (r: Dict<V>)
    ensures Get(r, k) == Some(v)
    ensures forall k' :: k' != k ==> Get(r, k') == Get(d, k')
  {
    if d == [] then [(k, v)]
    else if d[0].0 == k then [(k, v)] + d[1..]
    else [d[0]] + Put(d[1..], k, v)
  }

  /** An existing key keeps its place; a new key goes last. */
  lemma {:induction false} PutKeyList<V>(d: Dict<V>, k: string, v: V)
    ensures KeyList(Put(d, k, v)) == if k in KeyList(d) then KeyList(d) else KeyList(d) + [k]
  {
    if d != [] && d[0].0 != k {
      var rest := Put(d[1..], k, v);
      PutKeyList(d[1..], k, v);
      assert KeyList(d) == [d[0].0] + KeyList(d[1..]);
      assert KeyList([d[0]] + rest) == [d[0].0] + KeyList(rest);
      assert k in KeyList(d) <==> k in KeyList(d[1..]);
    }
  }

  /** Assigning a key the object does not have yet appends it. */
  lemma {:induction false} PutAbsent<V>(d: Dict<V>, k: string, v: V)
    requires forall i :: 0 <= i < |d| ==> d[i].0 != k
    ensures Put(d, k, v) == d + [(k, v)]
  {
    if d != [] {
      PutAbsent(d[1..], k, v);
      assert [d[0]] + (d[1..] + [(k, v)]) == d + [(k, v)];
    }
  }

  /** Every key `Put` leaves behind: the old keys and `k`. */
  lemma PutKeys<V>(d: Dict<V>, k: string, v: V)
    ensures Keys(Put(d, k, v)) == Keys(d) + {k}
  {
    var r := Put(d, k, v);
    forall x ensures x in Keys(r) <==> x in Keys(d) + {k} {
      GetDefinedIff(r, x);
      GetDefinedIff(d, x);
    }
  }

  /** Storing `undefined` under `k`: the key no longer shows in JSON.stringify. */
  function Delete<V>(d: Dict<V>, k: string): (r: Dict<V>)
    ensures Get(r, k) == None
    ensures forall k' :: k' != k ==> Get(r, k') == Get(d, k')
  {
    if d == [] then []
    else if d[0].0 == k then Delete(d[1..], k)
    else [d[0]] + Delete(d[1..], k)
  }
}
