# osmquadtree bindings: a verified model of the local logic

The Python bindings of `osmquadtree` are mostly thin wrappers around a Rust
library. A few pieces of real logic live in the binding layer itself, and
this project models them in Dafny and proves what they do:

- **`IdSetSet`** (`idsetset.dfy`, module `IdSetFilter`). It is the spatial
  filter builder. It grows four id sets (`nodes`, `ways`, `relations`, and
  the boundary set `exnodes`) block by block. A full insertion takes every
  id. A box insertion makes three ordered passes:
  - nodes inside the box;
  - ways touching a kept node, whose other references become boundary nodes;
  - relations with a member already in the sets, checked in one sequential pass.

  The class keeps the four sets as fields. Each of its methods is proved
  equal to a specification function on an `IdSets` value. The lemmas
  characterise the node and way passes without reference to iteration
  order. The relation pass depends on order, and its lemmas characterise
  it by the prefix of relations before each relation.
- **The batched emission buffer** (`collect.dfy`, module `Collect`). It
  stands for both `CollectBlocksCall` and `CollectBlocksMinimalCall`, which
  differ only in block type and name. The Python callback is a ghost log of
  emitted batches. The class keeps the buffer bound, order preservation,
  the batch sizes and the count as proved invariants. The direct read
  produces exactly the cutting of the input into `groupby`-sized batches.
- **Element codecs** (`elements.dfy`, module `Elements`). These are
  Python-style index normalisation, the changetype and element-type string
  codecs, and the partition of loose elements into a block.
- **Reader decisions** (`readpbf.dfy`, module `ReadPbf`). These are the
  compression-type codec, the classification of the `filter` and `ids`
  arguments, the tile-index check, and the parameters of the sorted merge.
- **Quadtree tree** (`sortblocks.dfy`, module `SortBlocks`). This is the
  u32 sentinel decoder, the item-to-tuple mapping, and the wrapper object
  whose tree is consumed by `find_tree_groups` and `sort_blocks`.

`common.dfy` (module `Common`) holds the result and error types, ASCII
lower-casing and decimal rendering.

Library operations are parameters of the functions and methods that use
them:
- `Bbox::contains_point` and `Bbox::is_planet`;
- `IdSet::contains` (the membership test the relation pass uses);
- `ElementType::from_int`;
- `Poly::bounds`;
- the tree-grouping and block-sorting steps, and `next`.

## Model

| member | source | states |
|---|---|---|
| Common.NatToString | src/elements.rs:85 | Decimal rendering as `{}` formats it: only digits, no leading zero, and the digits read back as the number. |
| Common.IntToString | src/elements.rs:85 | A leading minus exactly for negative numbers, then the rendering of the magnitude. |
| Common.ToLower | src/elements.rs:592 | Lower-casing keeps the length and lowers each character on its own. |
| Common.ToLowerIdempotent | src/elements.rs:592 | A lowered string has no capitals, and lowering it again changes nothing. |
| Elements.DecodeMembers | src/elements.rs:934-937 | The members of a minimal relation are type codes zipped with refs: as many as the shorter list, pairwise in order. |
| Elements.DecodeRelations | src/elements.rs:934-946 | Each minimal relation keeps its id and gets its zipped members, in order. |
| Elements.PrepWhich | src/elements.rs:82-95 | Succeeds exactly when -len <= which < len. The result is below len: `which` itself when non-negative, `which + len` otherwise. Both error messages are given, the second with the adjusted index. |
| Elements.ElementAt | src/elements.rs:170-187 | Indexing with `prep_which` gives the element at the normalised position, and an `IndexError` outside -len..len. |
| Elements.PrepWhichEmpty | src/elements.rs:82-95 | Every index errors on an empty list. |
| Elements.PrepWhichWraps | src/elements.rs:82-95 | `which - len` and `which` select the same position. |
| Elements.ChangetypeStr | src/elements.rs:579-589 | Every name is lower case and at least six letters long. |
| Elements.ChangetypeFromStr | src/elements.rs:591-601 | An accepted input lower-cases to the name, its first letter, or "" for Normal. Anything else is `unknown changetype <input>`. |
| Elements.ChangetypeAccepts | src/elements.rs:591-601 | Every spelling of a changetype, in any case, decodes to it: name, one-letter alias, "" for Normal. |
| Elements.ChangetypeRoundTrip | src/elements.rs:579-601 | Decoding the name of every changetype gives it back. |
| Elements.ChangetypeCaseInsensitive | src/elements.rs:591-592 | Decoding depends only on the lower-case form of the input. |
| Elements.MemRoleStr | src/elements.rs:561-568 | The fallback variant, and only it, renders as "???". No name has capitals. |
| Elements.ElementTypeFromStr | src/elements.rs:570-577 | An accepted input lower-cases to "node"/"way"/"relation" or a first letter, and never yields the fallback variant. Anything else is `unknown elementtype <input>`. |
| Elements.ElementTypeAccepts | src/elements.rs:570-577 | Each name and each first letter, in any case, decodes to its kind. |
| Elements.ElementTypeRoundTrip | src/elements.rs:561-577 | Rendering then decoding gives back node, way and relation; "???" does not decode. |
| Elements.AliasRDiffers | src/elements.rs:570-601 | "r" is a relation to the element-type codec and Remove to the changetype codec. |
| Elements.PartitionSizes | src/elements.rs:101-129 | The three per-kind lists together are as long as the input when every element has a known kind. |
| Elements.NodesOfMembers | src/elements.rs:101-129 | A node is in the node list exactly when it was one of the elements. |
| Elements.FromElements | src/elements.rs:101-129 | Succeeds exactly when every element has a known kind, and then holds the per-kind lists in input order plus the header fields. Otherwise the error is "unexpected type". |
| IdSetFilter.AddKindThenContains | src/elements.rs:831-836 | Adding an id of a kind makes exactly that (kind, id) newly present, and leaves the boundary set alone. |
| IdSetFilter.FullStepTakesAll | src/elements.rs:841-852 | After a full insertion every id of the block is in its kind's set, no set shrinks, and `exnodes` is untouched. |
| IdSetFilter.InsideIdsMembers | src/elements.rs:857-861 | The node pass adds exactly the ids of nodes whose position the box contains. |
| IdSetFilter.OutsideMembers | src/elements.rs:871-875 | The boundary candidates of a way are exactly its refs that are not kept nodes. |
| IdSetFilter.WayStageExact | src/elements.rs:862-878 | A way is kept iff one of its refs is a kept node. `exnodes` gains exactly the unkept refs of kept ways. Nodes and relations do not change. |
| IdSetFilter.WayStageComplete | src/elements.rs:862-878 | Every kept way has all its refs among the nodes or the boundary nodes afterwards. |
| IdSetFilter.RelationStageExact | src/elements.rs:880-891 | Only the relation set changes, and it only grows. A relation is added iff some member passes the test against the sets as they stood when its turn came. |
| IdSetFilter.RelationStagePrefixGrows | src/elements.rs:880-891 | Along the pass the relation set only grows. |
| IdSetFilter.EarlierRelationCounts | src/elements.rs:880-891 | A relation added earlier in the pass makes a later relation naming it be added. |
| IdSetFilter.BoxStepGrows | src/elements.rs:855-894 | A box insertion never removes an id. The node set gains exactly the nodes inside the box. |
| IdSetFilter.BoxPassExample | src/elements.rs:855-894 | One block through the three passes keeps the inside node, the way with its outside node as boundary, and the relation on the way. It does not keep the relation that named it before it was added. |
| IdSetFilter.IdSetSet.constructor | src/elements.rs:827-829 | A new builder has four empty sets. |
| IdSetFilter.IdSetSet.Insert | src/elements.rs:831-839 | A known kind string (any case) adds the id to exactly its set. Otherwise the result is `unexpected type <t> <id>` and no set changes. |
| IdSetFilter.IdSetSet.Contains | src/elements.rs:960-968 | Per-kind membership for a known kind string; the boundary set is never consulted; unknown kinds error. |
| IdSetFilter.IdSetSet.AddBlockFull | src/elements.rs:841-852 | The new sets are the old ones united with the block's node, way and relation ids; `exnodes` is unchanged. |
| IdSetFilter.IdSetSet.AddMinimalBlockFull | src/elements.rs:895-906 | The same as `AddBlockFull`, over a minimal block. |
| IdSetFilter.IdSetSet.AddIds | src/elements.rs:841-852 | The three insertion loops give exactly that union. |
| IdSetFilter.IdSetSet.AddBlockBox | src/elements.rs:855-894 | The new sets are the node pass, then the way pass, then the relation pass applied to the old sets. |
| IdSetFilter.IdSetSet.AddMinimalBlockBox | src/elements.rs:909-949 | The same three passes, over relations whose members are the zipped type codes and refs. |
| IdSetFilter.IdSetSet.AddInsideNodes | src/elements.rs:857-861 | The node loop gives the node pass. |
| IdSetFilter.IdSetSet.AddTouchingWays | src/elements.rs:862-878 | The way loop, with its inner boundary loop, gives the way pass. |
| IdSetFilter.IdSetSet.AddMatchingRelations | src/elements.rs:880-891 | The relation loop tests each relation against the current sets, as the relation pass does. |
| IdSetFilter.AnyRefKept | src/elements.rs:863-870 | The early-return search is true iff some ref is a kept node. |
| IdSetFilter.AnyMemberMatches | src/elements.rs:881-888 | The early-return search is true iff some member passes the membership test. |
| Collect.FlattenAppend | src/readpbf.rs:260-284 | Emitting one more batch extends the concatenation by that batch. |
| Collect.ChunksFlatten | src/readpbf.rs:292-303 | Cutting into batches loses and reorders nothing. |
| Collect.ChunksShape | src/readpbf.rs:292-303 | There are ceil(L/k) batches, none empty, all of size at most k, and all but the last of size k. |
| Collect.ChunksOfBatches | src/readpbf.rs:292-303 | Full batches followed by a short remainder are the cutting of their concatenation. |
| Collect.CollectBlocks.constructor | src/readpbf.rs:257-259 | A new collector has an empty buffer, count 0 and nothing emitted. |
| Collect.CollectBlocks.ClearPending | src/readpbf.rs:260-284 | A non-empty buffer is emitted as one batch and the count grows by its size. An empty buffer emits nothing. |
| Collect.CollectBlocks.Call | src/readpbf.rs:292-300 | The block is appended. When the buffer reaches `groupby` it is emitted as a batch of exactly max(groupby, 1) blocks. Between calls the buffer stays below max(groupby, 1). Order and count are preserved. |
| Collect.CollectBlocks.Finish | src/readpbf.rs:302-308 | Flushes the remainder and reports (name, total submitted). With only full batches before, the emitted batches are the cutting of the input. |
| Collect.FinishTwice | src/readpbf.rs:302-308 | A second finish emits nothing and reports the same count. |
| Collect.ReadAllDirect | src/readpbf.rs:80-123 | Feeding the blocks through `call` and `finish` reports L blocks and emits exactly the cutting of the input into batches of max(groupby, 1). |
| Collect.BatchLaw | src/readpbf.rs:292-308 | There are ceil(L/max(groupby,1)) batches, none empty, and their concatenation is the input. |
| ReadPbf.CompressionTypeString | src/readpbf.rs:53-63 | The variant name, with the level in brackets for the levelled variants. |
| ReadPbf.CompressionTypeFromString | src/readpbf.rs:64-72 | Accepts exactly "Uncompressed" (level ignored) and the three "...Level" names (level kept). Otherwise the error is the `Debug` form of the pair followed by "not an appropiate CompressionType input". |
| ReadPbf.CompressionArgsRoundTrip | src/readpbf.rs:53-72 | Every type but the bare Zlib/Brotli/Lzma decodes back from its (name, level) pair. The bare ones' strings never decode. |
| ReadPbf.CompressionStringNotDecodable | src/readpbf.rs:53-72 | The display string decodes only for Uncompressed: the two functions are not a round trip. |
| ReadPbf.LastCharOfString | src/readpbf.rs:53-63 | Exactly the levelled variants display with a closing bracket. |
| ReadPbf.CompressionStringInjective | src/readpbf.rs:53-63 | Distinct compression types display differently. |
| ReadPbf.ReadFilter | src/readpbf.rs:374-412 | Absent or None gives the planet. A 4-int list gives (is_planet(box), box, no poly); another length errors. A Poly gives (false, bounds, poly). Anything else, including an int beyond i32, errors. |
| ReadPbf.ReadFilterFlagAgrees | src/readpbf.rs:374-412 | Without a polygon the planet flag is what the box says; with one the flag is false and the box is its bounds. |
| ReadPbf.ReadFilterRangeBeforeLength | src/readpbf.rs:388-411 | A list with an int beyond i32 is "can't handle filter" whatever its length. |
| ReadPbf.GetIdset | src/readpbf.rs:432-453 | None accepts all, an `IdSet` is shared, an `IdSetSet` is copied, anything else is a `TypeError`. |
| ReadPbf.TileIndexCheck | src/readpbf.rs:609-616 | The index is shifted by len when negative. It passes exactly when 0 <= shifted <= len, and the message shows the shifted index. |
| ReadPbf.IndexAt | src/readpbf.rs:607-619 | Panics (raised as `PanicException`) exactly at idx == len. Otherwise it agrees with `prep_which`'s acceptance and position. |
| ReadPbf.TileIndexOffByOne | src/readpbf.rs:607-617 | idx == len, and 0 on an empty index, pass the check and panic (raised to Python as `PanicException`), where `prep_which` raises IndexError. |
| ReadPbf.TileIndexCheckFixed | src/readpbf.rs:609-616 | The corrected check only returns positions below len. |
| ReadPbf.IndexAtFixed | src/readpbf.rs:607-619 | The corrected lookup never panics. |
| ReadPbf.TileIndexFixedMatchesPrepWhich | src/readpbf.rs:549-558 | The corrected check accepts exactly what `prep_which` accepts, at the same position. |
| ReadPbf.SortSplit | src/readpbf.rs:696-700 | The split count is 128 or 0: 128 iff the filter is the planet or the input exceeds 4 GiB. |
| ReadPbf.TempFileName | src/readpbf.rs:694 | Panics (raised as `PanicException`) iff the output name is shorter than 4. Otherwise the result is the name without its last four characters followed by "-temp": one longer, the stem kept, the tail exactly "-temp". |
| ReadPbf.TempFileNameOf | src/readpbf.rs:694 | For any name "base" + a four-character extension (such as "base.pbf") the temporary prefix is "base-temp". |
| ReadPbf.TempFileNameDiffers | src/readpbf.rs:694 | The temporary prefix never equals the output name. |
| ReadPbf.WriteMergedPlan | src/readpbf.rs:675-682 | The ids argument is checked before the compression type, and both must decode. |
| ReadPbf.WriteMergedSortPlan | src/readpbf.rs:684-705 | Ids, then compression type, then (on disk only) the temporary name. The plan holds the decoded ids and compression type. On disk the temporary prefix is `TempFileName(outfn)`, ending in "-temp" and never the output name, the limit is 1500000 and the split follows `SortSplit`; a name shorter than 4 panics. |
| SortBlocks.CheckTreeIdx | src/sortblocks.rs:23-29 | None iff the value is 4294967295, otherwise the value itself. |
| SortBlocks.UncheckTreeIdx | src/sortblocks.rs:23-29 | The inverse: None is stored as the sentinel. |
| SortBlocks.TreeIdxRoundTrip | src/sortblocks.rs:23-29 | Decoding then encoding is the identity, and so is encoding then decoding for options other than Some(sentinel). |
| SortBlocks.ItemAsTuple | src/sortblocks.rs:31-37 | qt, weight and total pass unchanged. The parent and each of the four children are None exactly when they hold the sentinel. |
| SortBlocks.ItemTupleLossless | src/sortblocks.rs:31-37 | The tuple keeps the whole item. |
| SortBlocks.ItemAsTupleInjective | src/sortblocks.rs:31-37 | Distinct items give distinct tuples. |
| SortBlocks.QuadtreeTree.constructor | src/sortblocks.rs:62-66 | A new wrapper holds a tree. |
| SortBlocks.QuadtreeTree.GetInner | src/sortblocks.rs:45-57 | Errors with "null QuadtreeTree" exactly when the tree has been taken. |
| SortBlocks.QuadtreeTree.Len | src/sortblocks.rs:115-117 | The number of items, or the null-tree error. |
| SortBlocks.QuadtreeTree.GetItem | src/sortblocks.rs:119-133 | Accepts exactly 0 <= idx < len with no wrap-around, and returns exactly `ItemAsTuple` of the item, so a missing parent or child is `None`, never the sentinel. Otherwise the error is `?? <idx>`, or the null-tree error. |
| SortBlocks.QuadtreeTree.Next | src/sortblocks.rs:82-87 | The library's answer, None exactly when it is the sentinel; the null-tree error when taken. |
| SortBlocks.QuadtreeTree.Repr | src/sortblocks.rs:102-108 | "QuadtreeTree Null" exactly when the tree has been taken. |
| SortBlocks.QuadtreeTree.Take | src/sortblocks.rs:147 | Hands the tree over and leaves none. Panics (raised as `PanicException`) when none is left. |
| SortBlocks.FindTreeGroups | src/sortblocks.rs:144-152 | The tree is always taken from its wrapper. The result is a fresh wrapper around the grouped tree, or the library's error. A taken tree panics (raised as `PanicException`). |
| SortBlocks.SortBlocks | src/sortblocks.rs:155-169 | A bad compression type errors before the tree is touched. Otherwise the tree is taken and sorted with the decoded type. |
| SortBlocks.ConsumeOnce | src/sortblocks.rs:144-152 | After one grouping step the old wrapper reports a null tree, and a second step panics (raised as `PanicException`). |

## Left out

- Parallel dispatch: `CallbackSync`, `Callback`, `CallbackMerge` and the `numchan` split are thread and channel machinery. The model feeds blocks to one collector in order, as the single-channel path does.
- File and container I/O: seeking, reading file blocks, headers, protobuf decoding and decompression. Blocks are opaque values or already-decoded records.
- Library internals stay abstract as parameters: `Bbox::contains_point`, `Bbox::is_planet`, `Bbox::planet`, `IdSet::contains`, `ElementType::from_int`, `Poly::bounds`, delta-packed int decoding, `find_tree_groups`, `sort_blocks`, and the tree's `next`. The tree's `at` and `len` are modelled concretely as indexing and length of the item sequence in `TreeData`.
- The tree operations `num_entries`, `total_weight`, `find`, `remove` and `add` only forward to the library after `get_inner`; they are not modelled beyond `GetInner`.
- `IdSetSet::is_exnode`, `__str__` and `__repr__`, and the `IdSet` wrapper's `__contains__`, forward to library code.
- Geometry, counting, messaging, the Python package, getters and the build wiring are not part of this model.
- Common.ToLower: Rust's `to_lowercase` is Unicode-aware, and the model lowers ASCII only. The only characters outside ASCII whose lower case contains ASCII are the Kelvin sign (to 'k') and capital I with dot above (to "i" plus a combining dot). Neither makes any of the accepted keywords, so acceptance and the decoded value agree.
- ReadPbf.DebugStr: the `Debug` escaping in the compression error message covers quote, backslash, newline, carriage return, tab and NUL. Other non-printable or grapheme-extending characters, which Rust shows as `\u{..}`, are not modelled.
- ReadPbf.TempFileName: Rust slices the output name by bytes and panics off a character boundary. The model counts characters, which agrees for ASCII names.
- Integer widths: ids, coordinates and counts are unbounded integers. Python ints that do not fit `i32` in a filter list are modelled explicitly; the `i64` index arithmetic cannot overflow for real lengths.
- Collect.CollectBlocks.Finish: the cutting law is stated for collectors whose earlier batches were all full, which is every run through `Call`. Python callback errors panic through `expect` and are not modelled.
- The `elements` and `ids` arguments are modelled by their recognised shapes (`Element`, `FilterArg`, `IdsArg`); Python's extraction machinery is not.
- `ReadFileBlocksParallel.new` parses its timestamp and file locations with `unwrap`, in library code, and is not modelled beyond `ReadFilter`.

## Findings

| source | as written | input that shows it | evidently intended | confidence | as-written member | corrected member |
|---|---|---|---|---|---|---|
| src/readpbf.rs:549-558 and src/readpbf.rs:607-617 | After shifting a negative index by the length, only `idx < 0 \|\| idx > len` is refused, so `idx == len` passes and the following `pfilelocs.1[idx]` indexes out of bounds and panics (raised as `PanicException`) | `index_at(n)` where `n == num_blocks()`, or `index_at(0)` on a reader with no blocks | Refuse `idx >= len` with an `IndexError`, as `prep_which` does | not executed | ReadPbf.TileIndexOffByOne | ReadPbf.TileIndexFixedMatchesPrepWhich |
