/** The balance object of the page (a plain JS object from name to number), as an
    association list in insertion order with get and set semantics. */
module Ledger {
  import opened Types

  /** A number as the page's arithmetic produces it. `NaN` is what `undefined + x`
      yields when `+=` is applied to a key that the object does not hold. */
  datatype Value = Num(v: real) | NaN

  /** One own property of the balance object. */
  datatype Slot = Slot(key: string, value: Value)

  function Keys(obj: seq<Slot>): set<string> {
    if obj == [] then {} else {obj[0].key} + Keys(obj[1..])
  }

  /** The keys in insertion order, the order in which `Object.entries` lists them. */
  function KeySeq(obj: seq<Slot>): (r: seq<string>)
    ensures |r| == |obj|
  {
    if obj == [] then [] else [obj[0].key] + KeySeq(obj[1..])
  }

  /** The ordered keys are the keys. */
  lemma {:induction false} KeySeqKeys(obj: seq<Slot>, k: string)
    ensures k in KeySeq(obj) <==> k in Keys(obj)
  {
    if obj != [] {
      KeySeqKeys(obj[1..], k);
    }
  }

  /** A JS object never holds the same key twice. */
  predicate DistinctKeys(obj: seq<Slot>) {
    obj == [] || (obj[0].key !in Keys(obj[1..]) && DistinctKeys(obj[1..]))
  }

  /** `obj[k]`: the value stored under `k`, or None for `undefined`. */
  function Lookup(obj: seq<Slot>, k: string): (r: Option<Value>)
    ensures r.Some? <==> k in Keys(obj)
  {
    if obj == [] then None
    else if obj[0].key == k then Some(obj[0].value)
    else Lookup(obj[1..], k)
  }

  /** `obj[k] = v`: overwrites the value of an existing key in place, or appends a new key. */
  function Put(obj: seq<Slot>, k: string, v: Value): (r: seq<Slot>)
    ensures Keys(r) == Keys(obj) + {k}
    ensures Lookup(r, k) == Some(v)
    ensures forall k' :: k' != k ==> Lookup(r, k') == Lookup(obj, k')
    ensures DistinctKeys(obj) ==> DistinctKeys(r)
    ensures |r| == if k in Keys(obj) then |obj| else |obj| + 1
  {
    if obj == [] then [Slot(k, v)]
    else if obj[0].key == k then [Slot(k, v)] + obj[1..]
    else [obj[0]] + Put(obj[1..], k, v)
  }

  /** A write keeps the key order: an existing key stays where it is, a new key goes last. */
  lemma {:induction false} PutOrder(obj: seq<Slot>, k: string, v: Value)
    ensures KeySeq(Put(obj, k, v)) == if k in KeySeq(obj) then KeySeq(obj) else KeySeq(obj) + [k]
  {
    if obj != [] {
      KeySeqKeys(obj, k);
      KeySeqKeys(obj[1..], k);
      if obj[0].key != k {
        PutOrder(obj[1..], k, v);
      }
      assert ([Slot(k, v)] + obj[1..])[1..] == obj[1..];
      assert ([obj[0]] + Put(obj[1..], k, v))[1..] == Put(obj[1..], k, v);
    }
  }

  /** In an object with distinct keys, a stored slot is what a lookup of its key finds. */
  lemma {:induction false} LookupSlot(obj: seq<Slot>, s: Slot)
    requires DistinctKeys(obj) && s in obj
    ensures Lookup(obj, s.key) == Some(s.value)
  {
    if obj[0] != s {
      assert s in obj[1..];
      LookupSlot(obj[1..], s);
      assert s.key in Keys(obj[1..]);
    }
  }

  /** Every stored key is among the keys. */
  lemma {:induction false} SlotKeyInKeys(obj: seq<Slot>, s: Slot)
    requires s in obj
    ensures s.key in Keys(obj)
  {
    if obj[0] != s {
      assert s in obj[1..];
      SlotKeyInKeys(obj[1..], s);
    }
  }

  /** An object with distinct keys has as many slots as keys. */
  lemma {:induction false} KeyCount(obj: seq<Slot>)
    requires DistinctKeys(obj)
    ensures |Keys(obj)| == |obj|
  {
    if obj != [] {
      KeyCount(obj[1..]);
    }
  }

  /** Two objects with distinct keys that list the same keys in the same order and agree on
      every read are the same object. */
  lemma {:induction false} SameObject(a: seq<Slot>, b: seq<Slot>)
    requires DistinctKeys(a) && DistinctKeys(b) && KeySeq(a) == KeySeq(b)
    requires forall k :: Lookup(a, k) == Lookup(b, k)
    ensures a == b
  {
    if a != [] {
      assert KeySeq(a)[0] == KeySeq(b)[0];
      assert Lookup(a, a[0].key) == Some(a[0].value) && Lookup(b, b[0].key) == Some(b[0].value);
      assert KeySeq(a[1..]) == KeySeq(a)[1..] == KeySeq(b)[1..] == KeySeq(b[1..]);
      forall k ensures Lookup(a[1..], k) == Lookup(b[1..], k) {
        if k != a[0].key {
          assert Lookup(a, k) == Lookup(a[1..], k) && Lookup(b, k) == Lookup(b[1..], k);
        }
      }
      SameObject(a[1..], b[1..]);
      assert a == [a[0]] + a[1..] && b == [b[0]] + b[1..];
    }
  }

  /** The sum of the numeric values; NaN entries are skipped. */
  function NumericSum(obj: seq<Slot>): real {
    if obj == [] then 0.0
    else (if obj[0].value.Num? then obj[0].value.v else 0.0) + NumericSum(obj[1..])
  }

  predicate AllNumbers(obj: seq<Slot>) {
    forall s :: s in obj ==> s.value.Num?
  }
}
