/** The JSON values and objects that records are built from and serialised to. */
module Json {
  import opened Results

  /** The JSON values the catalog handles; arrays are arrays of strings. */
  datatype Value = Null | Bool(b: bool) | Num(n: real) | Str(s: string) | Strings(items: seq<string>)

  /**
   * A JSON object as its key/value pairs in insertion order. When a key
   * occurs twice its last value is the one read, as with `JSON.parse` and
   * object literals.
   */
  type Object = seq<(string, Value)>

  predicate HasKey(o: Object, k: string) {
    exists i :: 0 <= i < |o| && o[i].0 == k
  }

  /** `o[k]`: the last value stored under `k`, or `None` for `undefined`. */
  function Get(o: Object, k: string): Option<Value> {
    if o == [] then None
    else if o[|o| - 1].0 == k then Some(o[|o| - 1].1)
    else Get(o[..|o| - 1], k)
  }

  /** `Get` finds a key exactly when it is present, and then reads its last pair. */
  lemma {:induction false} GetMeaning(o: Object, k: string)
    ensures Get(o, k).None? <==> !HasKey(o, k)
    ensures Get(o, k).Some? ==> exists i: nat :: i < |o| && o[i] == (k, Get(o, k).value) && LastWith(o, k, i)
  {
    if o != [] && o[|o| - 1].0 != k {
      var o' := o[..|o| - 1];
      GetMeaning(o', k);
      assert forall i :: 0 <= i < |o'| ==> o'[i] == o[i];
      if HasKey(o, k) {
        var i :| 0 <= i < |o| && o[i].0 == k;
        assert o'[i].0 == k;
      }
      if Get(o, k).Some? {
        var i: nat :| i < |o'| && o'[i] == (k, Get(o', k).value) && LastWith(o', k, i);
        assert LastWith(o, k, i);
      }
    } else if o != [] {
      assert o[|o| - 1].0 == k;
      assert LastWith(o, k, |o| - 1);
    }
  }

  /** No pair after position `i` has key `k`. */
  predicate LastWith(o: Object, k: string, i: nat) {
    forall j :: i < j < |o| ==> o[j].0 != k
  }

  /** JavaScript truthiness of a possibly `undefined` value. */
  predicate Truthy(v: Option<Value>) {
    match v
    case None => false
    case Some(Null) => false
    case Some(Bool(b)) => b
    case Some(Num(n)) => n != 0.0
    case Some(Str(s)) => s != ""
    case Some(Strings(_)) => true
  }

  /**
   * `{ ...target, ...source }` and `Object.assign(target, source)`: every key
   * of `source` reads its value from `source`, every other key from `target`.
   */
  function Assign(target: Object, source: Object): (r: Object)
    ensures forall k :: Get(r, k) == if HasKey(source, k) then Get(source, k) else Get(target, k)
  {
    forall k ensures Get(target + source, k) == if HasKey(source, k) then Get(source, k) else Get(target, k) {
      GetConcat(target, source, k);
    }
    target + source
  }

  lemma {:induction false} GetConcat(a: Object, b: Object, k: string)
    ensures Get(a + b, k) == if HasKey(b, k) then Get(b, k) else Get(a, k)
    decreases |b|
  {
    if b == [] {
      assert a + b == a;
    } else {
      var b' := b[..|b| - 1];
      assert (a + b)[..|a + b| - 1] == a + b';
      if b[|b| - 1].0 != k {
        GetConcat(a, b', k);
        assert Get(a + b, k) == Get(a + b', k);
        assert HasKey(b, k) <==> HasKey(b', k) by {
          if HasKey(b, k) {
            var i :| 0 <= i < |b| && b[i].0 == k;
            assert b'[i].0 == k;
          }
          if HasKey(b', k) {
            var i :| 0 <= i < |b'| && b'[i].0 == k;
            assert b[i].0 == k;
          }
        }
      } else {
        assert b[|b| - 1].0 == k;
      }
    }
  }

  /** When the keys of `o` are pairwise distinct, `Get` finds each pair's own value. */
  lemma GetDistinct(o: Object, i: nat)
    requires i < |o|
    requires forall m, n :: 0 <= m < n < |o| ==> o[m].0 != o[n].0
    ensures Get(o, o[i].0) == Some(o[i].1)
  {
    var r := Get(o, o[i].0);
    assert HasKey(o, o[i].0);
    GetMeaning(o, o[i].0);
    var m: nat :| m < |o| && o[m] == (o[i].0, r.value) && LastWith(o, o[i].0, m);
    assert m == i;
  }
}
