/** The own enumerable string-keyed properties of a JavaScript object, kept
    in insertion order. `Object.values` lists such properties in that order
    when no key is an array index (as for the keys the factory assigns);
    array-index keys, which JavaScript lists first in ascending order, are
    not modelled. */
module PropertyList {
  import opened JsValues

  datatype Property = Property(key: string, value: string)

  /** `obj[key] = value`: an existing property keeps its place and takes the
      new value; a new one goes at the end. */
  function Assign(ps: seq<Property>, key: string, value: string): (r: seq<Property>)
    ensures |r| == |ps| || r == ps + [Property(key, value)]
    ensures |r| == |ps| <==> ValueAt(ps, key).Some?
  {
    if ps == [] then [Property(key, value)]
    else if ps[0].key == key then [Property(key, value)] + ps[1..]
    else [ps[0]] + Assign(ps[1..], key, value)
  }

  /** `obj[key]`, `None` standing for `undefined`. */
  function ValueAt(ps: seq<Property>, key: string): (r: Option<string>)
    ensures r.Some? ==> Property(key, r.value) in ps
    ensures r.None? ==> forall i :: 0 <= i < |ps| ==> ps[i].key != key
  {
    if ps == [] then None
    else if ps[0].key == key then Some(ps[0].value)
    else ValueAt(ps[1..], key)
  }

  function Keys(ps: seq<Property>): (ks: seq<string>)
    ensures |ks| == |ps|
    ensures forall i :: 0 <= i < |ps| ==> ks[i] == ps[i].key
  {
    if ps == [] then [] else [ps[0].key] + Keys(ps[1..])
  }

  /** `Object.values(obj)`. */
  function Values(ps: seq<Property>): (vs: seq<string>)
    ensures |vs| == |ps|
    ensures forall i :: 0 <= i < |ps| ==> vs[i] == ps[i].value
  {
    if ps == [] then [] else [ps[0].value] + Values(ps[1..])
  }

  /** Reading a property back after assigning it gives the assigned value,
      and leaves every other property as it was. */
  lemma {:induction false} AssignThenRead(ps: seq<Property>, key: string, value: string, other: string)
    ensures ValueAt(Assign(ps, key, value), key) == Some(value)
    ensures other != key ==> ValueAt(Assign(ps, key, value), other) == ValueAt(ps, other)
  {
    if ps != [] && ps[0].key != key {
      AssignThenRead(ps[1..], key, value, other);
    }
  }

  /** Assignment keeps the insertion order of the keys and adds a new key
      at the end. */
  lemma {:induction false} AssignKeepsOrder(ps: seq<Property>, key: string, value: string)
    ensures Keys(Assign(ps, key, value)) == if key in Keys(ps) then Keys(ps) else Keys(ps) + [key]
  {
    if ps != [] && ps[0].key != key {
      AssignKeepsOrder(ps[1..], key, value);
      assert Keys(ps) == [ps[0].key] + Keys(ps[1..]);
    }
  }

  /** Assignment at the first index holding the key replaces that entry. */
  lemma {:induction false} AssignAtFirst(ps: seq<Property>, key: string, value: string, i: nat)
    requires i < |ps| && ps[i].key == key
    requires forall j :: 0 <= j < i ==> ps[j].key != key
    ensures Assign(ps, key, value) == ps[i := Property(key, value)]
  {
    if i > 0 {
      AssignAtFirst(ps[1..], key, value, i - 1);
      assert ps[i := Property(key, value)] == [ps[0]] + ps[1..][i - 1 := Property(key, value)];
    }
  }

  /** Assignment of a key that is not there appends it. */
  lemma {:induction false} AssignAbsent(ps: seq<Property>, key: string, value: string)
    requires forall j :: 0 <= j < |ps| ==> ps[j].key != key
    ensures Assign(ps, key, value) == ps + [Property(key, value)]
  {
    if ps != [] {
      AssignAbsent(ps[1..], key, value);
      assert ps + [Property(key, value)] == [ps[0]] + (ps[1..] + [Property(key, value)]);
    }
  }

  /** The value read is that of the first entry holding the key. */
  lemma {:induction false} ValueAtFirst(ps: seq<Property>, key: string, i: nat)
    requires i <= |ps|
    requires forall j :: 0 <= j < i ==> ps[j].key != key
    ensures i < |ps| && ps[i].key == key ==> ValueAt(ps, key) == Some(ps[i].value)
    ensures i == |ps| ==> ValueAt(ps, key) == None
  {
    if i > 0 {
      ValueAtFirst(ps[1..], key, i - 1);
    }
  }
}
