/**
 * The completion registry shared by both plugin packages: an immutable map from
 * a namespace key to an ordered list of completion entries, with its two
 * accessors, a defaulting lookup and the flattening of every list.
 */
module Registry {

  /** The priority every entry is created with. */
  const PRIORITY: int := 1000

  /** One completion entry; icon and bold styling are presentation only. */
  datatype Element = Element(name: string, typeText: string, priority: int)

  type LookupMap = map<string, seq<Element>>

  /** An entry built the way every registry entry is built. */
  function CreateElement(name: string, typeText: string): Element {
    Element(name, typeText, PRIORITY)
  }

  /** Every entry of `s` carries type text `typeText` and the common priority. */
  predicate Typed(s: seq<Element>, typeText: string) {
    forall e :: e in s ==> e.typeText == typeText && e.priority == PRIORITY
  }

  /** One entry per name, all with the same type text, in the order of `names`. */
  function CreateElements(names: seq<string>, typeText: string): seq<Element> {
    seq(|names|, i requires 0 <= i < |names| => CreateElement(names[i], typeText))
  }

  /** A created list carries its names in order. */
  lemma CreatedNames()
    ensures forall names, typeText :: Names(CreateElements(names, typeText)) == names
  {
    forall names, typeText ensures Names(CreateElements(names, typeText)) == names {
      assert Names(CreateElements(names, typeText)) == names;
    }
  }

  /** A created list carries its type text and the common priority throughout. */
  lemma CreatedTyped()
    ensures forall names, typeText :: Typed(CreateElements(names, typeText), typeText)
  {
  }

  /** The display names of a list of entries, in order. */
  function Names(s: seq<Element>): seq<string> {
    seq(|s|, i requires 0 <= i < |s| => s[i].name)
  }

  /** `getOrDefault(key, emptyList)`: the list under `key`, or nothing for an unknown key. */
  function Lookup(m: LookupMap, key: string): (r: seq<Element>)
    ensures key in m ==> r == m[key]
    ensures key !in m ==> r == []
  {
    if key in m then m[key] else []
  }

  /** `order` lists every key of `m` exactly once: one possible iteration order of the map. */
  predicate IsEnumeration(order: seq<string>, m: LookupMap) {
    multiset(order) == multiset(m.Keys)
  }

  /** The lists under `order`'s keys, concatenated in that order. */
  function Flatten(m: LookupMap, order: seq<string>): (r: seq<Element>)
    requires forall k :: k in order ==> k in m
  {
    if order == [] then [] else m[order[0]] + Flatten(m, order[1..])
  }

  /** The sum of the lengths of the lists under `order`'s keys from position `from` on. */
  function SizeSum(m: LookupMap, order: seq<string>, from: nat): nat
    decreases |order| - from
  {
    if from >= |order| then 0 else |Lookup(m, order[from])| + SizeSum(m, order, from + 1)
  }

  lemma EnumerationKeys(order: seq<string>, m: LookupMap)
    requires IsEnumeration(order, m)
    ensures forall k :: k in order <==> k in m
  {
    forall k ensures k in order <==> k in m {
      assert k in order <==> multiset(order)[k] > 0;
      assert k in m <==> multiset(m.Keys)[k] > 0;
    }
  }

  /**
   * `getAllElements()`: every list of the map, flattened, in the map's iteration
   * order, which the caller supplies because the map promises none.
   */
  function GetAllElements(m: LookupMap, order: seq<string>): (r: seq<Element>)
    requires IsEnumeration(order, m)
  {
    EnumerationKeys(order, m);
    Flatten(m, order)
  }

  /** The flattening holds an entry exactly when one of the listed keys' lists holds it. */
  lemma {:induction false} FlattenMembership(m: LookupMap, order: seq<string>, e: Element)
    requires forall k :: k in order ==> k in m
    ensures e in Flatten(m, order) <==> exists k :: k in order && e in m[k]
  {
    if order != [] {
      FlattenMembership(m, order[1..], e);
      assert forall k :: k in order <==> k == order[0] || k in order[1..];
    }
  }

  /** The flattening is as long as its lists together. */
  lemma {:induction false} FlattenLength(m: LookupMap, order: seq<string>, from: nat)
    requires forall k :: k in order ==> k in m
    requires from <= |order|
    ensures forall k :: k in order[from..] ==> k in m
    ensures |Flatten(m, order[from..])| == SizeSum(m, order, from)
    decreases |order| - from
  {
    if from < |order| {
      FlattenLength(m, order, from + 1);
      assert order[from..][1..] == order[from + 1..];
    }
  }

  /** Taking one key's list out of the middle of the order leaves the rest as a bag. */
  lemma {:induction false} FlattenExtract(m: LookupMap, order: seq<string>, i: nat)
    requires forall k :: k in order ==> k in m
    requires i < |order|
    ensures forall k :: k in order[..i] + order[i + 1..] ==> k in m
    ensures multiset(Flatten(m, order)) ==
            multiset(m[order[i]]) + multiset(Flatten(m, order[..i] + order[i + 1..]))
  {
    var rest := order[..i] + order[i + 1..];
    assert forall k :: k in rest ==> k in order;
    if i > 0 {
      FlattenExtract(m, order[1..], i - 1);
      assert order[1..][..i - 1] + order[1..][i..] == rest[1..];
      assert rest[0] == order[0];
    } else {
      assert rest == order[1..];
    }
  }

  /** Removing the same key from two orders with the same keys keeps them alike. */
  lemma RemoveMatching(o1: seq<string>, o2: seq<string>, i: nat)
    requires o1 != [] && i < |o2| && o2[i] == o1[0]
    requires multiset(o1) == multiset(o2)
    ensures multiset(o1[1..]) == multiset(o2[..i] + o2[i + 1..])
  {
    assert o1 == [o1[0]] + o1[1..];
    assert o2 == o2[..i] + [o2[i]] + o2[i + 1..];
    calc {
      multiset(o1[1..]) + multiset{o1[0]};
      multiset(o1);
      multiset(o2);
      multiset(o2[..i]) + multiset{o2[i]} + multiset(o2[i + 1..]);
      multiset(o2[..i] + o2[i + 1..]) + multiset{o1[0]};
    }
    var a, b := multiset(o1[1..]), multiset(o2[..i] + o2[i + 1..]);
    var x := multiset{o1[0]};
    assert a + x == b + x;
    assert a == (a + x) - x;
    assert b == (b + x) - x;
  }

  /** Two orders that list the same keys flatten to the same bag of entries. */
  lemma {:induction false} FlattenPermutation(m: LookupMap, o1: seq<string>, o2: seq<string>)
    requires forall k :: k in o1 ==> k in m
    requires multiset(o1) == multiset(o2)
    ensures forall k :: k in o2 ==> k in m
    ensures multiset(Flatten(m, o1)) == multiset(Flatten(m, o2))
  {
    assert forall k :: k in o2 ==> k in multiset(o1);
    if o1 != [] {
      assert o1[0] in multiset(o2);
      var i :| 0 <= i < |o2| && o2[i] == o1[0];
      RemoveMatching(o1, o2, i);
      FlattenPermutation(m, o1[1..], o2[..i] + o2[i + 1..]);
      FlattenExtract(m, o2, i);
    } else {
      assert o2 == [];
    }
  }

  /** Whatever the iteration order, the same entries come out, each as often. */
  lemma AllElementsOrderIrrelevant(m: LookupMap, o1: seq<string>, o2: seq<string>)
    requires IsEnumeration(o1, m) && IsEnumeration(o2, m)
    ensures multiset(GetAllElements(m, o1)) == multiset(GetAllElements(m, o2))
    ensures |GetAllElements(m, o1)| == |GetAllElements(m, o2)|
  {
    EnumerationKeys(o1, m);
    FlattenPermutation(m, o1, o2);
    assert |multiset(GetAllElements(m, o1))| == |GetAllElements(m, o1)|;
    assert |multiset(GetAllElements(m, o2))| == |GetAllElements(m, o2)|;
  }

  /** `getAllElements()` holds an entry exactly when some registered list holds it. */
  lemma AllElementsMembership(m: LookupMap, order: seq<string>, e: Element)
    requires IsEnumeration(order, m)
    ensures e in GetAllElements(m, order) <==> exists k :: k in m && e in Lookup(m, k)
  {
    EnumerationKeys(order, m);
    FlattenMembership(m, order, e);
  }

  /** `getAllElements()` is as long as all registered lists together. */
  lemma AllElementsLength(m: LookupMap, order: seq<string>)
    requires IsEnumeration(order, m)
    ensures forall k :: k in order ==> k in m
    ensures |GetAllElements(m, order)| == SizeSum(m, order, 0)
  {
    EnumerationKeys(order, m);
    FlattenLength(m, order, 0);
    assert order[0..] == order;
  }
}
