/**
 The decoded form of a YAML document, as the merge sees it: an ordered
 mapping (a `MapSlice`, a sequence of key/value items) whose values are
 scalars, sequences or further ordered mappings. This replaces the
 run-time type inspection of blend.go with an explicit variant tag.
 */
module YamlTree {

  /** The scalars a YAML decoder produces. The merge never looks inside them. */
  datatype Scalar =
    | Null
    | Bool(b: bool)
    | Int(i: int)
    | Float(literal: string)
    | Str(s: string)

  /** A decoded YAML value. `Mapping` is the only variant the merge recurses into. */
  datatype Value<K> =
    | Leaf(scalar: Scalar)
    | Sequence(elements: seq<Value<K>>)
    | Mapping(entries: seq<MapItem<K>>)

  /** One key/value pair of an ordered mapping. */
  datatype MapItem<K> = MapItem(key: K, value: Value<K>)

  /** An ordered mapping; keys are compared for equality only and may repeat. */
  type MapSlice<K> = seq<MapItem<K>>

  /** Two ordered mappings with the same keys in the same positions. */
  predicate SameKeys<K(==)>(a: MapSlice<K>, b: MapSlice<K>)
  {
    |a| == |b| && forall i :: 0 <= i < |a| ==> a[i].key == b[i].key
  }

  /** Does `key` occur at this level of `s`? */
  predicate HasKey<K(==)>(s: MapSlice<K>, key: K)
  {
    exists i :: 0 <= i < |s| && s[i].key == key
  }

  /**
   The number of nodes reachable from `v` through mappings only (a sequence
   counts as one node, since the merge never enters it). The merge recurses
   into the override's mappings, so this measure of the override bounds it.
   */
  function Size<K>(v: Value<K>): (n: nat)
  {
    match v
    case Mapping(entries) => 1 + SliceSize(entries)
    case _ => 1
  }

  function ItemSize<K>(item: MapItem<K>): (n: nat)
    ensures item.value.Mapping? ==> SliceSize(item.value.entries) < n
  {
    1 + Size(item.value)
  }

  function SliceSize<K>(s: MapSlice<K>): (n: nat)
    ensures forall i :: 0 <= i < |s| ==> ItemSize(s[i]) <= n
  {
    if s == [] then 0 else SliceSize(s[..|s| - 1]) + ItemSize(s[|s| - 1])
  }

  /**
   Keys are distinct at this level and, recursively, inside every value that
   is itself a mapping: what well-formed YAML input looks like.
   */
  ghost predicate UniqueKeys<K>(s: MapSlice<K>)
    decreases SliceSize(s)
  {
    && (forall i, j :: 0 <= i < j < |s| ==> s[i].key != s[j].key)
    && (forall i :: 0 <= i < |s| && s[i].value.Mapping? ==> UniqueKeys(s[i].value.entries))
  }
}
