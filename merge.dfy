/**
 The order-preserving merge of an override mapping into a base mapping, as
 pure functions. `Resolve` is `getValue`, `ApplyOverride` is one pass of the
 outer loop of `getMapSliceValue` (one override item against every base item),
 and `MergeMapping` is the whole of `getMapSliceValue`: the override items
 applied one after another, in override order, each pass reading the slice
 the previous passes left.
 */
module Merge {
  import opened YamlTree

  /** The one case in which the merge recurses instead of replacing. */
  predicate BothMappings<K>(value: MapItem<K>, override: MapItem<K>)
  {
    value.value.Mapping? && override.value.Mapping?
  }

  /**
   `getValue`: when base and override values are both mappings, their merge
   (under the override's key); otherwise the override item itself, wholesale.
   */
  function Resolve<K(==)>(value: MapItem<K>, override: MapItem<K>): (r: MapItem<K>)
    ensures r.key == override.key
    ensures !BothMappings(value, override) ==> r == override
    ensures BothMappings(value, override) ==>
              r.value.Mapping? && SameKeys(r.value.entries, value.value.entries)
    decreases ItemSize(override), 0, 0
  {
    if BothMappings(value, override) then
      MapItem(override.key, Mapping(MergeMapping(value.value.entries, override.value.entries)))
    else
      override
  }

  /**
   One iteration of the outer loop: every base item whose key equals the
   override item's key is resolved against it, all others are left alone.
   */
  function ApplyOverride<K(==)>(valueSlice: MapSlice<K>, overrideItem: MapItem<K>): (r: MapSlice<K>)
    ensures SameKeys(r, valueSlice)
    ensures forall k :: 0 <= k < |r| && valueSlice[k].key == overrideItem.key ==>
              r[k] == Resolve(valueSlice[k], overrideItem)
    ensures forall k :: 0 <= k < |r| && valueSlice[k].key != overrideItem.key ==>
              r[k] == valueSlice[k]
    decreases ItemSize(overrideItem), 1, |valueSlice|
  {
    if valueSlice == [] then
      []
    else
      var head := valueSlice[0];
      [if head.key == overrideItem.key then Resolve(head, overrideItem) else head]
        + ApplyOverride(valueSlice[1..], overrideItem)
  }

  /**
   `getMapSliceValue`: the override items applied in order. Written as "all
   but the last, then the last" so that it follows the loop's progress.
   */
  function MergeMapping<K(==)>(valueSlice: MapSlice<K>, overrideSlice: MapSlice<K>): (r: MapSlice<K>)
    ensures SameKeys(r, valueSlice)
    decreases SliceSize(overrideSlice), 2, 0
  {
    if overrideSlice == [] then
      valueSlice
    else
      var n := |overrideSlice| - 1;
      ApplyOverride(MergeMapping(valueSlice, overrideSlice[..n]), overrideSlice[n])
  }

  /** Extending the applied override items by one more is one more pass of the outer loop. */
  lemma MergeMappingPrefixStep<K>(valueSlice: MapSlice<K>, overrideSlice: MapSlice<K>, i: int)
    requires 0 <= i < |overrideSlice|
    ensures MergeMapping(valueSlice, overrideSlice[..i + 1])
         == ApplyOverride(MergeMapping(valueSlice, overrideSlice[..i]), overrideSlice[i])
  {
    assert overrideSlice[..i + 1][..i] == overrideSlice[..i];
  }

  // ---------------------------------------------------------------------
  // A reference description of the merge, one base item at a time
  // ---------------------------------------------------------------------

  /** The override items with the given key, in override order. */
  function Matching<K(==)>(overrideSlice: MapSlice<K>, key: K): (m: MapSlice<K>)
    ensures |m| <= |overrideSlice|
    ensures forall j :: 0 <= j < |m| ==> m[j].key == key
    ensures !HasKey(overrideSlice, key) ==> m == []
  {
    if overrideSlice == [] then
      []
    else
      var n := |overrideSlice| - 1;
      Matching(overrideSlice[..n], key) + (if overrideSlice[n].key == key then [overrideSlice[n]] else [])
  }

  /** A base item resolved against a list of override items, one after another. */
  function ResolveAll<K(==)>(value: MapItem<K>, overrides: MapSlice<K>): (r: MapItem<K>)
    requires forall j :: 0 <= j < |overrides| ==> overrides[j].key == value.key
    ensures r.key == value.key
  {
    if overrides == [] then
      value
    else
      var n := |overrides| - 1;
      Resolve(ResolveAll(value, overrides[..n]), overrides[n])
  }

  /**
   Each base item is transformed independently of every other one: by the
   override items carrying its key, in override order, and by nothing else.
   In particular every base item with a matching key is treated, not just
   the first.
   */
  lemma {:induction false} MergeMappingAt<K>(valueSlice: MapSlice<K>, overrideSlice: MapSlice<K>, i: int)
    requires 0 <= i < |valueSlice|
    ensures MergeMapping(valueSlice, overrideSlice)[i]
         == ResolveAll(valueSlice[i], Matching(overrideSlice, valueSlice[i].key))
  {
    if overrideSlice != [] {
      var n := |overrideSlice| - 1;
      var prefix, last := overrideSlice[..n], overrideSlice[n];
      var key := valueSlice[i].key;
      MergeMappingAt(valueSlice, prefix, i);
      var earlier := Matching(prefix, key);
      if last.key == key {
        assert Matching(overrideSlice, key) == earlier + [last];
        assert (earlier + [last])[..|earlier|] == earlier;
      } else {
        assert Matching(overrideSlice, key) == earlier;
      }
    }
  }

  lemma {:induction false} MatchingAppend<K>(a: MapSlice<K>, b: MapSlice<K>, key: K)
    ensures Matching(a + b, key) == Matching(a, key) + Matching(b, key)
  {
    if b == [] {
      assert a + b == a;
    } else {
      var n := |b| - 1;
      assert (a + b)[..|a + b| - 1] == a + b[..n];
      MatchingAppend(a, b[..n], key);
    }
  }

  // ---------------------------------------------------------------------
  // Properties of the merge
  // ---------------------------------------------------------------------

  /** A base item whose key no override item carries comes out unchanged. */
  lemma UnmatchedBaseItemKept<K>(valueSlice: MapSlice<K>, overrideSlice: MapSlice<K>, i: int)
    requires 0 <= i < |valueSlice|
    requires !HasKey(overrideSlice, valueSlice[i].key)
    ensures MergeMapping(valueSlice, overrideSlice)[i] == valueSlice[i]
  {
    MergeMappingAt(valueSlice, overrideSlice, i);
  }

  /**
   Base items sharing a key are all treated, and alike: each one is resolved,
   on its own, against the same list of override items (those carrying the
   key, in override order), whatever values the two hold. Two base items that
   are wholly equal therefore come out equal.
   */
  lemma DuplicateBaseItemsTreatedAlike<K>(valueSlice: MapSlice<K>, overrideSlice: MapSlice<K>, i: int, i': int)
    requires 0 <= i < |valueSlice| && 0 <= i' < |valueSlice|
    requires valueSlice[i].key == valueSlice[i'].key
    ensures var m := Matching(overrideSlice, valueSlice[i].key);
            && MergeMapping(valueSlice, overrideSlice)[i] == ResolveAll(valueSlice[i], m)
            && MergeMapping(valueSlice, overrideSlice)[i'] == ResolveAll(valueSlice[i'], m)
    ensures valueSlice[i] == valueSlice[i'] ==>
              MergeMapping(valueSlice, overrideSlice)[i] == MergeMapping(valueSlice, overrideSlice)[i']
  {
    MergeMappingAt(valueSlice, overrideSlice, i);
    MergeMappingAt(valueSlice, overrideSlice, i');
  }

  /**
   When the last override item carrying a key holds a scalar or a sequence,
   every base item with that key becomes exactly that override item: no
   element-wise merge of sequences, whatever came before.
   */
  lemma LastNonMappingOverrideWins<K>(valueSlice: MapSlice<K>, overrideSlice: MapSlice<K>, j: int)
    requires 0 <= j < |overrideSlice|
    requires !overrideSlice[j].value.Mapping?
    requires !HasKey(overrideSlice[j + 1..], overrideSlice[j].key)
    ensures forall i :: 0 <= i < |valueSlice| && valueSlice[i].key == overrideSlice[j].key ==>
              MergeMapping(valueSlice, overrideSlice)[i] == overrideSlice[j]
  {
    var key := overrideSlice[j].key;
    var front, back := overrideSlice[..j + 1], overrideSlice[j + 1..];
    assert overrideSlice == front + back;
    assert front[..j] + [front[j]] == front;
    MatchingAppend(front, back, key);
    MatchingAppend(front[..j], [front[j]], key);
    var m := Matching(front[..j], key) + [overrideSlice[j]];
    assert Matching(overrideSlice, key) == m;
    forall i | 0 <= i < |valueSlice| && valueSlice[i].key == key
      ensures MergeMapping(valueSlice, overrideSlice)[i] == overrideSlice[j]
    {
      MergeMappingAt(valueSlice, overrideSlice, i);
      assert m[..|m| - 1] == Matching(front[..j], key);
    }
  }

  /**
   With a single override item for a key (the well-formed case), every base
   item with that key is resolved against it: replaced by it unless both are
   mappings, and merged with it recursively when both are.
   */
  lemma SoleOverrideResolves<K>(valueSlice: MapSlice<K>, overrideSlice: MapSlice<K>, j: int)
    requires 0 <= j < |overrideSlice|
    requires forall j' :: 0 <= j' < |overrideSlice| && j' != j ==> overrideSlice[j'].key != overrideSlice[j].key
    ensures forall i :: 0 <= i < |valueSlice| && valueSlice[i].key == overrideSlice[j].key ==>
              var r := MergeMapping(valueSlice, overrideSlice)[i];
              && (!BothMappings(valueSlice[i], overrideSlice[j]) ==> r == overrideSlice[j])
              && (BothMappings(valueSlice[i], overrideSlice[j]) ==>
                    r == MapItem(valueSlice[i].key,
                                 Mapping(MergeMapping(valueSlice[i].value.entries, overrideSlice[j].value.entries))))
  {
    var key := overrideSlice[j].key;
    var front, back := overrideSlice[..j], overrideSlice[j + 1..];
    assert overrideSlice == front + [overrideSlice[j]] + back;
    MatchingAppend(front + [overrideSlice[j]], back, key);
    MatchingAppend(front, [overrideSlice[j]], key);
    assert !HasKey(front, key) by {
      forall j' | 0 <= j' < |front| ensures front[j'].key != key {
        assert front[j'] == overrideSlice[j'];
      }
    }
    assert !HasKey(back, key) by {
      forall j' | 0 <= j' < |back| ensures back[j'].key != key {
        assert back[j'] == overrideSlice[j + 1 + j'];
      }
    }
    assert Matching(overrideSlice, key) == [overrideSlice[j]];
    forall i | 0 <= i < |valueSlice| && valueSlice[i].key == key
      ensures MergeMapping(valueSlice, overrideSlice)[i] == Resolve(valueSlice[i], overrideSlice[j])
    {
      MergeMappingAt(valueSlice, overrideSlice, i);
      assert [overrideSlice[j]][..0] == [];
    }
  }

  /** A single override item whose key occurs once in the base updates that position and nothing else. */
  lemma SingleMatchUpdatesInPlace<K>(valueSlice: MapSlice<K>, item: MapItem<K>, j: int)
    requires 0 <= j < |valueSlice| && valueSlice[j].key == item.key
    requires forall i :: 0 <= i < |valueSlice| && i != j ==> valueSlice[i].key != item.key
    ensures MergeMapping(valueSlice, [item]) == valueSlice[j := Resolve(valueSlice[j], item)]
  {
    assert [item][..0] == [];
    assert MergeMapping(valueSlice, [item]) == ApplyOverride(valueSlice, item);
  }

  /** Override items are applied one after another: merging with `a + b` is merging with `a`, then with `b`. */
  lemma {:induction false} MergeMappingAppend<K>(valueSlice: MapSlice<K>, a: MapSlice<K>, b: MapSlice<K>)
    ensures MergeMapping(valueSlice, a + b) == MergeMapping(MergeMapping(valueSlice, a), b)
    decreases |b|
  {
    if b == [] {
      assert a + b == a;
    } else {
      var n := |b| - 1;
      assert (a + b)[..|a + b| - 1] == a + b[..n];
      assert (a + b)[|a + b| - 1] == b[n];
      MergeMappingAppend(valueSlice, a, b[..n]);
    }
  }

  /** An override item whose key is absent from this level of the base has no effect: it is never inserted. */
  lemma ForeignOverrideIgnored<K>(valueSlice: MapSlice<K>, a: MapSlice<K>, item: MapItem<K>, b: MapSlice<K>)
    requires !HasKey(valueSlice, item.key)
    ensures MergeMapping(valueSlice, a + [item] + b) == MergeMapping(valueSlice, a + b)
  {
    MergeMappingAppend(valueSlice, a + [item], b);
    MergeMappingAppend(valueSlice, a, [item]);
    MergeMappingAppend(valueSlice, a, b);
    var m := MergeMapping(valueSlice, a);
    assert [item][..0] == [];
    assert MergeMapping(m, [item]) == ApplyOverride(m, item);
    assert ApplyOverride(m, item) == m;
  }

  /** An override that shares no key with the base leaves it unchanged. */
  lemma {:induction false} DisjointOverrideIsIdentity<K>(valueSlice: MapSlice<K>, overrideSlice: MapSlice<K>)
    requires forall j :: 0 <= j < |overrideSlice| ==> !HasKey(valueSlice, overrideSlice[j].key)
    ensures MergeMapping(valueSlice, overrideSlice) == valueSlice
  {
    if overrideSlice != [] {
      var n := |overrideSlice| - 1;
      DisjointOverrideIsIdentity(valueSlice, overrideSlice[..n]);
      assert ApplyOverride(valueSlice, overrideSlice[n]) == valueSlice;
    }
  }

  /** The edge cases: an empty override changes nothing, and an empty base stays empty. */
  lemma EmptyOverrideOrBase<K>(valueSlice: MapSlice<K>, overrideSlice: MapSlice<K>)
    ensures MergeMapping(valueSlice, []) == valueSlice
    ensures MergeMapping([], overrideSlice) == []
  {
  }

  /** On well-formed input (distinct keys at every mapping level) merging a mapping with itself changes nothing. */
  lemma {:induction false} SelfMergeIsIdentity<K>(x: MapSlice<K>)
    requires UniqueKeys(x)
    ensures MergeMapping(x, x) == x
    decreases SliceSize(x)
  {
    var r := MergeMapping(x, x);
    forall i | 0 <= i < |x| ensures r[i] == x[i] {
      SoleOverrideResolves(x, x, i);
      if x[i].value.Mapping? {
        SelfMergeIsIdentity(x[i].value.entries);
      }
    }
  }

  /** Without distinct keys the self-merge is not the identity: the last duplicate wins in every copy. */
  lemma SelfMergeWithDuplicateKeys<K>(key: K)
    ensures var x := [MapItem(key, Leaf(Int(1))), MapItem(key, Leaf(Int(2)))];
            MergeMapping(x, x) == [x[1], x[1]]
  {
    var x := [MapItem(key, Leaf(Int(1))), MapItem(key, Leaf(Int(2)))];
    LastNonMappingOverrideWins(x, x, 1);
  }
}
