/**
 * Reference models of the java.util pieces the workspace machine leans on:
 * mutable list and map objects (so that copying versus sharing a collection
 * can be told apart) and the combining step of java.util.Objects.hash.
 */
module JavaUtil {
  import opened Wrappers

  /** A java.util.List<String> object; `elems` is what it holds now. */
  class JavaList {
    var elems: seq<string>

    /** new ArrayList<>(e): a fresh list holding the elements of e. */
    constructor (e: seq<string>)
      ensures elems == e
    {
      elems := e;
    }

    /** List.add(x): appends x at the end. */
    method Add(x: string)
      modifies this
      ensures elems == old(elems) + [x]
    {
      elems := elems + [x];
    }
  }

  /** A java.util.Map<String, V> object; `entries` is what it maps now. */
  class JavaMap<V> {
    var entries: map<string, V>

    /** new HashMap<>(e): a fresh map holding the entries of e. */
    constructor (e: map<string, V>)
      ensures entries == e
    {
      entries := e;
    }

    /** Map.put(k, v): binds k to v, replacing any earlier binding of k. */
    method Put(k: string, v: V)
      modifies this
      ensures entries == old(entries)[k := v]
    {
      entries := entries[k := v];
    }
  }

  /** The contents of a possibly-null list reference. */
  function ListValue(l: JavaList?): (r: Option<seq<string>>)
    reads l
  {
    if l == null then None else Some(l.elems)
  }

  /** The contents of a possibly-null map reference. */
  function MapValue<V>(m: JavaMap?<V>): (r: Option<map<string, V>>)
    reads m
  {
    if m == null then None else Some(m.entries)
  }

  /**
   * Objects.equals(a, b) on two list references: both null, the same object,
   * or two lists with the same elements in the same order (List.equals).
   */
  predicate ListsEqual(a: JavaList?, b: JavaList?)
    reads a, b
    ensures ListsEqual(a, b) <==> ListValue(a) == ListValue(b)
  {
    a == b || (a != null && b != null && a.elems == b.elems)
  }

  /**
   * Objects.equals(a, b) on two map references: both null, the same object,
   * or two maps with the same key set and equal values (Map.equals).
   */
  predicate MapsEqual<V(==)>(a: JavaMap?<V>, b: JavaMap?<V>)
    reads a, b
    ensures MapsEqual(a, b) <==> MapValue(a) == MapValue(b)
  {
    a == b || (a != null && b != null && a.entries == b.entries)
  }

  const Two32: int := 0x1_0000_0000
  const MinInt32: int := -0x8000_0000
  const MaxInt32: int := 0x7fff_ffff

  predicate IsInt32(x: int) { MinInt32 <= x <= MaxInt32 }

  /** The Java `int` that x wraps around to: the value in int32 range congruent to x modulo 2^32. */
  function Int32(x: int): (r: int)
    ensures IsInt32(r)
    ensures (x - r) % Two32 == 0
    ensures IsInt32(x) ==> r == x
  {
    var m := x % Two32;
    assert x == (x / Two32) * Two32 + m;
    if m <= MaxInt32 then m else m - Two32
  }

  /**
   * Objects.hash(e0, ..., en), which is Arrays.hashCode over the arguments:
   * start from 1 and fold in each element as 31 * result + hash, in int
   * arithmetic, a null element contributing 0. `hs` holds each argument's
   * hashCode, None for a null argument.
   */
  function ObjectsHash(hs: seq<Option<int>>): (r: int)
    ensures IsInt32(r)
    ensures hs == [] ==> r == 1
  {
    if hs == [] then 1
    else
      var last := hs[|hs| - 1];
      Int32(31 * ObjectsHash(hs[..|hs| - 1]) + (if last.None? then 0 else last.value))
  }

  /** Objects.hash(null, null, null) == 31 * 31 * 31. */
  lemma AllNullObjectsHash()
    ensures ObjectsHash([None, None, None]) == 29791
  {
    var hs: seq<Option<int>> := [None, None, None];
    assert hs[..0] == [];
    assert ObjectsHash(hs[..1]) == 31 by { assert hs[..1][..0] == []; }
    assert ObjectsHash(hs[..2]) == 961 by { assert hs[..2][..1] == hs[..1]; }
    assert hs[..3][..2] == hs[..2];
  }
}
