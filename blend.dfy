/**
 The merge as blend.go runs it: the items of the base mapping sit in an
 array that nested loops overwrite in place, and nested mappings are merged
 by the same loops, called recursively through `GetValue`. Each method is
 proved to compute the pure merge of module `Merge`.
 */
module Blend {
  import opened YamlTree
  import opened Merge

  type Bytes = seq<bv8>

  /** Either a value or the error a collaborator reported. */
  datatype Result<T, E> = Success(value: T) | Failure(error: E)

  /** `getValue`: recurse when both values are mappings, otherwise take the override item. */
  method GetValue<K(==)>(value: MapItem<K>, override: MapItem<K>) returns (r: MapItem<K>)
    ensures r == Resolve(value, override)
    decreases ItemSize(override), 0
  {
    r := override;
    if override.value.Mapping? && value.value.Mapping? {
      var merged := GetMapSliceValue(value.value.entries, override.value.entries);
      r := MapItem(override.key, Mapping(merged));
    }
  }

  /**
   The two nested loops of `getMapSliceValue` (and of `Blend`): for each
   override item in order, overwrite every base item with an equal key.
   */
  method MergeInPlace<K(==)>(valueSlice: array<MapItem<K>>, overrideSlice: MapSlice<K>)
    modifies valueSlice
    ensures valueSlice[..] == MergeMapping(old(valueSlice[..]), overrideSlice)
    decreases SliceSize(overrideSlice), 1
  {
    ghost var base := valueSlice[..];
    for i := 0 to |overrideSlice|
      invariant valueSlice[..] == MergeMapping(base, overrideSlice[..i])
    {
      var overrideItem := overrideSlice[i];
      ghost var before := valueSlice[..];
      ghost var after := ApplyOverride(before, overrideItem);
      for k := 0 to valueSlice.Length
        invariant valueSlice[..k] == after[..k]
        invariant valueSlice[k..] == before[k..]
      {
        var valueItem := valueSlice[k];
        assert valueItem == before[k];
        if overrideItem.key == valueItem.key {
          var resolved := GetValue(valueItem, overrideItem);
          valueSlice[k] := resolved;
        }
        assert valueSlice[k] == after[k];
        assert valueSlice[..k + 1] == after[..k] + [after[k]] == after[..k + 1];
      }
      assert valueSlice[..] == valueSlice[..valueSlice.Length];
      MergeMappingPrefixStep(base, overrideSlice, i);
    }
    assert overrideSlice[..|overrideSlice|] == overrideSlice;
  }

  /** `getMapSliceValue` on a copy of the base items; returns the merged mapping. */
  method GetMapSliceValue<K(==)>(valueSlice: MapSlice<K>, overrideSlice: MapSlice<K>) returns (r: MapSlice<K>)
    ensures r == MergeMapping(valueSlice, overrideSlice)
    decreases SliceSize(overrideSlice), 2
  {
    var items := new MapItem<K>[|valueSlice|](k requires 0 <= k < |valueSlice| => valueSlice[k]);
    assert items[..] == valueSlice;
    MergeInPlace(items, overrideSlice);
    r := items[..];
  }

  /**
   `Blend`: decode both documents, merge the override into the base, encode
   the result. The codec is a parameter; its errors are passed on unchanged.
   */
  method Blend<K(==), E>(value: Bytes, override: Bytes,
                         decode: Bytes -> Result<MapSlice<K>, E>,
                         encode: MapSlice<K> -> Result<Bytes, E>)
    returns (r: Result<Bytes, E>)
    ensures decode(value).Failure? ==> r == Failure(decode(value).error)
    ensures decode(value).Success? && decode(override).Failure? ==> r == Failure(decode(override).error)
    ensures decode(value).Success? && decode(override).Success? ==>
              r == encode(MergeMapping(decode(value).value, decode(override).value))
  {
    var valueResult := decode(value);
    if valueResult.Failure? {
      return Failure(valueResult.error);
    }
    var overrideResult := decode(override);
    if overrideResult.Failure? {
      return Failure(overrideResult.error);
    }
    var valueSlice := valueResult.value;
    var items := new MapItem<K>[|valueSlice|](k requires 0 <= k < |valueSlice| => valueSlice[k]);
    assert items[..] == valueSlice;
    MergeInPlace(items, overrideResult.value);
    r := encode(items[..]);
  }
}
