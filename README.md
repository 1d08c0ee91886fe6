# blend: an order-preserving YAML merge, modelled in Dafny

`blend` layers an override YAML document onto a base document. Both are
decoded into ordered mappings (`yaml.MapSlice`: a list of key/value items).
Each override item, in override order, is matched against every item of the
base at the same level. A base item whose key is equal is overwritten in
place. When both values are mappings, the merge recurses into them.
Otherwise the override item replaces the base item whole. At every level
the merge compares (the top level, and below it wherever both values are
mappings), keys the base lacks are never added and the base's key order is
kept. Where the override replaces a value whole, its subtree comes with it,
keys included. Sequences are never merged element by element.

The project has four modules, one per file:

- `YamlTree` (`yaml_tree.dfy`): the decoded tree. `Value` is `Leaf(Scalar)`,
  `Sequence(seq<Value>)` or `Mapping(seq<MapItem>)`, and `MapSlice` is a
  sequence of `MapItem(key, value)`. The key type `K` is any type with
  equality. The module also holds a size measure, which bounds the recursion
  because it decreases along the override, and `UniqueKeys` (distinct keys at
  every mapping level).
- `Merge` (`merge.dfy`): the merge as pure functions, plus the lemmas.
  `Resolve` is `getValue`. `ApplyOverride` is one pass of the outer loop
  of `getMapSliceValue` (one override item against every base item). `MergeMapping` is the whole of `getMapSliceValue`:
  the override items applied one after another, each pass reading what the
  previous ones left. `Matching` and `ResolveAll` give a second, per-item
  description of the same result. `MergeMappingAt` proves the two agree.
- `Blend` (`blend.dfy`): the merge as blend.go runs it. The base items
  sit in an array, nested `for` loops overwrite it in place, and nested
  levels go through the same loops recursively via `GetValue`. Each method
  is proved to compute `MergeMapping` or `Resolve`. `Blend` gets the codec as
  two function parameters, `decode` and `encode`.
- `Fixture` (`fixture.dfy`): the repository's kubeadm test case in decoded
  form, with a proof that the merge yields exactly the expected document.

## Model

| member | source | states |
|---|---|---|
| `Merge.Resolve` | blend.go:35-41 | The result carries the override's key. Unless both values are mappings, the result is the override item itself, so scalars, sequences and mismatched shapes are replaced whole. When both are mappings, the result is a mapping with the base mapping's keys, in the base's order (key order kept at the nested level). |
| `Merge.ApplyOverride` | blend.go:45-49 | One override item applied to a slice. Same length and same key at every index. EVERY base item whose key equals the override key is resolved against it, not only the first. Every other item is unchanged. |
| `Merge.MergeMapping` | blend.go:43-52 | The merged mapping has exactly as many items as the base and the base's key at every index. So no key is added, removed or reordered. |
| `Merge.MergeMappingAt` | blend.go:44-50 | Each base item is transformed on its own, by the override items that carry its key, applied in override order. A later duplicate override key acts on the result of the earlier one. |
| `Merge.UnmatchedBaseItemKept` | blend.go:46-47 | A base item whose key no override item carries comes out unchanged. |
| `Merge.DuplicateBaseItemsTreatedAlike` | blend.go:45-48 | Base items that share a key, whatever their values, are each resolved on their own against the same list: the override items with that key, in override order. So every duplicate is treated, not only the first, and position plays no part. Base items that are wholly equal come out equal. |
| `Merge.LastNonMappingOverrideWins` | blend.go:35-50 | If the last override item for a key holds a scalar or a sequence, every base item with that key becomes that override item. There is no element-wise merge. |
| `Merge.SoleOverrideResolves` | blend.go:35-50 | When an override key occurs once, every base item with that key becomes the override item, unless both values are mappings. In that case it becomes the recursive merge of the two mappings under that key. |
| `Merge.SingleMatchUpdatesInPlace` | blend.go:45-48 | A one-item override whose key occurs once in the base updates exactly that position. The rest of the slice is untouched. |
| `Merge.MergeMappingAppend` | blend.go:44-50 | Override items are applied in order, one after another: merging with `a + b` equals merging with `a` and then with `b`. |
| `Merge.ForeignOverrideIgnored` | blend.go:44-50 | An override item whose key is absent from the base at that level has no effect. Removing it from the override does not change the result. |
| `Merge.DisjointOverrideIsIdentity` | blend.go:44-51 | An override that shares no key with the base returns the base unchanged. |
| `Merge.EmptyOverrideOrBase` | blend.go:44-51 | An empty override returns the base unchanged. An empty base yields an empty mapping. |
| `Merge.SelfMergeIsIdentity` | blend.go:35-52 | If the base has distinct keys at every mapping level, merging it with itself returns it unchanged. |
| `Merge.SelfMergeWithDuplicateKeys` | blend.go:44-50 | Without distinct keys, the self-merge is not the identity. In `[k: 1, k: 2]` merged with itself, both items become `k: 2`. |
| `Blend.GetValue` | blend.go:35-41 | The method (recursing through `GetMapSliceValue` when both values are mappings) returns exactly `Resolve(value, override)`. |
| `Blend.MergeInPlace` | blend.go:44-50 | The two nested loops (also copied inline in `Blend`, blend.go:20-26) leave the array holding `MergeMapping` of its old contents and the override. The outer loop's invariant says the array holds the merge with the first `i` override items. |
| `Blend.GetMapSliceValue` | blend.go:43-52 | The method returns `MergeMapping(valueSlice, overrideSlice)`. |
| `Blend.Blend` | blend.go:9-33 | The base's decode error is returned if it has one. Otherwise the override's decode error is returned if it has one. Otherwise the result is the encoding of `MergeMapping(base, override)`. |
| `Fixture.SecurePortOverride` | blend_test.go:10-165 | Overriding only `kubeadmconfig.apiServer.extraArgs.secure-port` with "6666" gives exactly the expected document. Every sibling key keeps its value and position, including the sequence-valued `extraVolumes`, `files`, `preKubeadmCommands` and `postKubeadmCommands`. |

## Left out

- YAML decoding and encoding (`yaml.Unmarshal`, `yaml.Marshal`, blend.go:11, 16, 28) belong to a foreign library. `Blend` takes them as the parameters `decode` and `encode`.
- Scalar formatting and quoting (`True` against `true`, quoted against plain strings) is decided by the codec. The fixture is stated on decoded values, where these differences do not exist. The test removes them too, by re-encoding both sides before comparing.
- Floating-point scalars are kept as their literal text (`Float(literal)`). The merge never looks inside a scalar.
- Go's run-time comparison of `interface{}` keys, including the panic on keys that cannot be compared, is replaced by a key type with equality.
- Go's aliasing is not modelled. `getMapSliceValue` overwrites the caller's backing array, so nested base mappings are changed in place, and a base item replaced by an override mapping shares that mapping's storage. Here every level is a value, and `GetMapSliceValue` works on a fresh array copied from its argument. The difference can be seen. It needs duplicate keys in both documents at one level, and duplicate keys again in the override two or more levels further down. Take the base `[k: s, k: s]` and the override `[k: {x: t}, k: {x: {y: 1, y: 2}}]`. In Go both base items end up sharing the backing array of the first override item's mapping. The second override item then merges into that array twice. On the second pass, blend.go:38 calls `getMapSliceValue` with the value and the override sharing one array, so blend.go:44-47 reads the already overwritten `y: 1` as the second override item. Go gives `{x: {y: 1, y: 1}}` under both keys. The model gives `{x: {y: 1, y: 2}}`.
- The test harness of blend_test.go is not modelled. That file declares `package main`, while blend.go is `package blend`, so its data serves only as the fixture.
- Error kinds that name the failing phase (decode of the base, decode of the override, encode) are not modelled. The code returns the codec's error unchanged, and the model follows the code.
