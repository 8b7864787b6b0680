/** JavaScript plain objects as ordered entry lists. A property write keeps the
    position of an existing key and appends a new key at the end, so
    `Object.keys`, `Object.values` and `Object.entries` see insertion order. */
module JsObject {
  import opened JsValue

  type Entries<V> = seq<(string, V)>

  /** Position of the first entry with key `k`, or -1. */
  function IndexOf<V>(o: Entries<V>, k: string): (r: int)
    ensures -1 <= r < |o|
    ensures r >= 0 ==> o[r].0 == k && forall j :: 0 <= j < r ==> o[j].0 != k
    ensures r < 0 ==> forall j :: 0 <= j < |o| ==> o[j].0 != k
  {
    if o == [] then -1
    else if o[0].0 == k then 0
    else
      var i := IndexOf(o[1..], k);
      if i < 0 then -1 else i + 1
  }

  predicate Has<V>(o: Entries<V>, k: string) {
    IndexOf(o, k) >= 0
  }

  /** `o[k]`, with `None` for a missing key. */
  function Get<V>(o: Entries<V>, k: string): Option<V> {
    var i := IndexOf(o, k);
    if i < 0 then None else Some(o[i].1)
  }

  /** `o[k]` read as a JavaScript value: a missing key reads as `undefined`. */
  function Prop(o: Entries<Value>, k: string): (r: Value)
    ensures Get(o, k).Some? ==> r == Get(o, k).value
    ensures Get(o, k).None? ==> r == Undefined
  {
    Get(o, k).GetOr(Undefined)
  }

  /** The string property `o[k]`, or "" when it is missing or not a string. */
  function Text(o: Entries<Value>, k: string): string {
    AsText(Prop(o, k))
  }

  function Keys<V>(o: Entries<V>): (r: seq<string>)
    ensures |r| == |o| && forall i :: 0 <= i < |o| ==> r[i] == o[i].0
  {
    if o == [] then [] else [o[0].0] + Keys(o[1..])
  }

  function Values<V>(o: Entries<V>): (r: seq<V>)
    ensures |r| == |o| && forall i :: 0 <= i < |o| ==> r[i] == o[i].1
  {
    if o == [] then [] else [o[0].1] + Values(o[1..])
  }

  /** No key occurs twice, as in every JavaScript object. */
  predicate UniqueKeys<V>(o: Entries<V>) {
    forall i, j :: 0 <= i < j < |o| ==> o[i].0 != o[j].0
  }

  /** `o[k] = v` (equivalently `{...o, [k]: v}`): an existing key keeps its
      position and takes the new value; a new key goes to the end. */
  function Put<V>(o: Entries<V>, k: string, v: V): (r: Entries<V>)
    ensures Get(r, k) == Some(v)
    ensures forall k' :: k' != k ==> Get(r, k') == Get(o, k')
    ensures Has(o, k) ==> |r| == |o| && Keys(r) == Keys(o)
    ensures !Has(o, k) ==> r == o + [(k, v)]
    ensures UniqueKeys(o) ==> UniqueKeys(r)
  {
    var i := IndexOf(o, k);
    if i < 0 then
      var r := o + [(k, v)];
      assert IndexOf(r, k) == |o| by { IndexOfAppend(o, k, v, k); }
      forall k' | k' != k ensures Get(r, k') == Get(o, k') {
        IndexOfAppend(o, k, v, k');
      }
      assert UniqueKeys(o) ==> UniqueKeys(r) by {
        assert forall j :: 0 <= j < |o| ==> r[j] == o[j] && o[j].0 != k;
      }
      r
    else
      var r := o[i := (k, v)];
      assert IndexOf(r, k) == i by { IndexOfReplace(o, i, v, k); }
      forall k' | k' != k ensures Get(r, k') == Get(o, k') {
        IndexOfReplace(o, i, v, k');
      }
      assert forall j :: 0 <= j < |o| ==> r[j].0 == o[j].0;
      assert Keys(r) == Keys(o);
      r
  }

  lemma {:induction false} IndexOfAppend<V>(o: Entries<V>, k: string, v: V, q: string)
    requires IndexOf(o, k) < 0
    ensures IndexOf(o + [(k, v)], q) == (if q == k then |o| else IndexOf(o, q))
  {
    var r := o + [(k, v)];
    var a := IndexOf(r, q);
    var b := IndexOf(o, q);
    if q == k {
      assert r[|o|].0 == q;
    } else if b >= 0 {
      assert r[b].0 == q;
    } else {
      assert forall j :: 0 <= j < |r| ==> r[j].0 != q by {
        forall j | 0 <= j < |r| ensures r[j].0 != q {
          if j < |o| { assert r[j] == o[j]; }
        }
      }
    }
  }

  lemma {:induction false} IndexOfReplace<V>(o: Entries<V>, i: int, v: V, q: string)
    requires 0 <= i < |o| && IndexOf(o, o[i].0) == i
    ensures IndexOf(o[i := (o[i].0, v)], q) == IndexOf(o, q)
  {
    var r := o[i := (o[i].0, v)];
    var b := IndexOf(o, q);
    assert forall j :: 0 <= j < |o| ==> r[j].0 == o[j].0;
    if b >= 0 {
      assert r[b].0 == q;
    }
  }

  /** In an object without repeated keys, each key is found where it is. */
  lemma {:induction false} IndexOfUnique<V>(o: Entries<V>, i: int)
    requires UniqueKeys(o) && 0 <= i < |o|
    ensures IndexOf(o, o[i].0) == i
  {
  }

  /** The first entry with a key is the one `o[k]` reads. */
  lemma {:induction false} GetFirst<V>(o: Entries<V>, i: int)
    requires 0 <= i < |o| && forall j :: 0 <= j < i ==> o[j].0 != o[i].0
    ensures Get(o, o[i].0) == Some(o[i].1)
  {
  }

  /** Every key of the object is a key of `Keys`. */
  lemma {:induction false} HasIffInKeys<V>(o: Entries<V>, k: string)
    ensures Has(o, k) <==> k in Keys(o)
  {
    if Has(o, k) {
      assert Keys(o)[IndexOf(o, k)] == k;
    }
  }

  lemma {:induction false} KeysAppend<V>(a: Entries<V>, b: Entries<V>)
    ensures Keys(a + b) == Keys(a) + Keys(b)
  {
  }

  /** A key `a` does not hold is read from `b` in `a + b`. */
  lemma {:induction false} GetAppendMissing<V>(a: Entries<V>, b: Entries<V>, k: string)
    requires k !in Keys(a)
    ensures Get(a + b, k) == Get(b, k)
  {
    var r := a + b;
    assert forall j :: 0 <= j < |a| ==> r[j].0 != k by {
      assert forall j :: 0 <= j < |a| ==> Keys(a)[j] == a[j].0;
    }
    var i := IndexOf(b, k);
    if i >= 0 {
      assert r[|a| + i] == b[i];
      assert forall j :: |a| <= j < |a| + i ==> r[j] == b[j - |a|];
      assert IndexOf(r, k) == |a| + i;
    } else {
      assert forall j :: |a| <= j < |r| ==> r[j] == b[j - |a|];
    }
  }

  /** `{...a, ...b}`: the properties of `b` written onto `a` in `b`'s order. */
  function Merge<V>(a: Entries<V>, b: Entries<V>): (r: Entries<V>)
    requires UniqueKeys(b)
    ensures forall k :: Get(r, k) == if Get(b, k).Some? then Get(b, k) else Get(a, k)
    ensures UniqueKeys(a) ==> UniqueKeys(r)
    decreases |b|
  {
    if b == [] then a
    else
      var front := b[..|b| - 1];
      var last := b[|b| - 1];
      assert b == front + [last];
      var m := Merge(a, front);
      var r := Put(m, last.0, last.1);
      forall k ensures Get(r, k) == if Get(b, k).Some? then Get(b, k) else Get(a, k) {
        GetSnoc(front, last, k);
        if k == last.0 {
          assert IndexOf(front, k) < 0 by {
            assert forall j :: 0 <= j < |front| ==> front[j].0 != b[|b| - 1].0;
          }
        }
      }
      r
  }

  /** Reading a key of `o + [e]`: the first occurrence in `o` wins. */
  lemma GetSnoc<V>(o: Entries<V>, e: (string, V), k: string)
    ensures Get(o + [e], k) == (if Get(o, k).Some? then Get(o, k) else if e.0 == k then Some(e.1) else None)
  {
    var r := o + [e];
    var b := IndexOf(o, k);
    if b >= 0 {
      assert r[b] == o[b];
      assert forall j :: 0 <= j < b ==> r[j] == o[j];
    } else if e.0 == k {
      assert r[|o|] == e;
      assert forall j :: 0 <= j < |o| ==> r[j] == o[j];
    } else {
      assert forall j :: 0 <= j < |r| ==> r[j].0 != k by {
        forall j | 0 <= j < |r| ensures r[j].0 != k {
          if j < |o| { assert r[j] == o[j]; }
        }
      }
    }
  }
}
