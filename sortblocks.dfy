/** The quadtree tree handed between the sorting steps: its u32 sentinel for
    "no index", the tuple an item is shown as, and the wrapper object whose
    tree is consumed by the steps that take it. */
module SortBlocks {
  import opened Common
  import opened ReadPbf

  /** The value the library stores for a missing parent or child. */
  const NullIdx: U32 := 0xFFFF_FFFF

  /** `check_tree_idx`: the sentinel becomes `None`, every other value is kept. */
  function CheckTreeIdx(i: U32): (r: Option<U32>)
    ensures r.None? <==> i == NullIdx
    ensures r.Some? ==> r.value == i && r.value != NullIdx
  {
    if i == NullIdx then None else Some(i)
  }

  /** The inverse direction: `None` is stored as the sentinel. */
  function UncheckTreeIdx(o: Option<U32>): (i: U32)
    ensures i == NullIdx <==> o.None? || o == Some(NullIdx)
    ensures o.Some? ==> i == o.value
  {
    match o
    case None => NullIdx
    case Some(v) => v
  }

  /** Decoding loses nothing, and encoding is undone by decoding for every
      option that does not hold the sentinel itself. */
  lemma TreeIdxRoundTrip(i: U32, o: Option<U32>)
    ensures UncheckTreeIdx(CheckTreeIdx(i)) == i
    ensures o != Some(NullIdx) ==> CheckTreeIdx(UncheckTreeIdx(o)) == o
  {
  }

  /** One entry of the library tree. `weight` is a u32 count of objects and
      `total` the weight of the subtree. */
  datatype QuadtreeTreeItem = QuadtreeTreeItem(
    qt: int, parent: U32, weight: U32, total: int, children: (U32, U32, U32, U32))

  /** The Python tuple an item is shown as. */
  datatype ItemTuple = ItemTuple(
    qt: int, parent: Option<U32>, weight: U32, total: int,
    children: (Option<U32>, Option<U32>, Option<U32>, Option<U32>))

  /** `quadtreetreeitem_tuple`. */
  function ItemAsTuple(ii: QuadtreeTreeItem): (t: ItemTuple)
    ensures t.qt == ii.qt && t.weight == ii.weight && t.total == ii.total
    ensures t.parent.None? <==> ii.parent == NullIdx
    ensures t.children.0.None? <==> ii.children.0 == NullIdx
    ensures t.children.1.None? <==> ii.children.1 == NullIdx
    ensures t.children.2.None? <==> ii.children.2 == NullIdx
    ensures t.children.3.None? <==> ii.children.3 == NullIdx
  {
    ItemTuple(ii.qt, CheckTreeIdx(ii.parent), ii.weight, ii.total,
              (CheckTreeIdx(ii.children.0), CheckTreeIdx(ii.children.1),
               CheckTreeIdx(ii.children.2), CheckTreeIdx(ii.children.3)))
  }

  function ItemFromTuple(t: ItemTuple): QuadtreeTreeItem {
    QuadtreeTreeItem(t.qt, UncheckTreeIdx(t.parent), t.weight, t.total,
                     (UncheckTreeIdx(t.children.0), UncheckTreeIdx(t.children.1),
                      UncheckTreeIdx(t.children.2), UncheckTreeIdx(t.children.3)))
  }

  /** The tuple keeps all of an item: two items with the same tuple are equal. */
  lemma ItemTupleLossless(ii: QuadtreeTreeItem)
    ensures ItemFromTuple(ItemAsTuple(ii)) == ii
  {
    TreeIdxRoundTrip(ii.parent, None);
    TreeIdxRoundTrip(ii.children.0, None);
    TreeIdxRoundTrip(ii.children.1, None);
    TreeIdxRoundTrip(ii.children.2, None);
    TreeIdxRoundTrip(ii.children.3, None);
  }

  lemma ItemAsTupleInjective(a: QuadtreeTreeItem, b: QuadtreeTreeItem)
    requires ItemAsTuple(a) == ItemAsTuple(b)
    ensures a == b
  {
    ItemTupleLossless(a);
    ItemTupleLossless(b);
  }

  /** The library tree, seen through the accessors the wrapper uses: its
      items in index order. */
  datatype TreeData = TreeData(items: seq<QuadtreeTreeItem>)

  const NullTreeMessage := "null QuadtreeTree"

  /** The Python `QuadtreeTree`: a tree that is present until a step takes it. */
  class QuadtreeTree {
    var inner: Option<TreeData>

    /** Wraps a tree, as `new` and `prepare_quadtree_tree` do. */
    constructor (t: TreeData)
      ensures inner == Some(t)
    {
      inner := Some(t);
    }

    /** `get_inner` and `get_inner_mut`: the tree, or an error once taken. */
    function GetInner(): (r: Result<TreeData>)
      reads this
      ensures r.Err? <==> inner.None?
      ensures r.Err? ==> r.error == ValueError(NullTreeMessage)
      ensures r.Ok? ==> inner == Some(r.value)
    {
      match inner
      case Some(t) => Ok(t)
      case None => Err(ValueError(NullTreeMessage))
    }

    /** `__len__`. */
    function Len(): (r: Result<nat>)
      reads this
      ensures r.Err? <==> inner.None?
      ensures r.Ok? ==> r.value == |inner.value.items|
    {
      match GetInner()
      case Err(e) => Err(e)
      case Ok(t) => Ok(|t.items|)
    }

    /** `__getitem__`: no wrap-around of negative indices. */
    function GetItem(idx: int): (r: Result<ItemTuple>)
      reads this
      ensures inner.None? ==> r == Err(ValueError(NullTreeMessage))
      ensures inner.Some? ==> (r.Ok? <==> 0 <= idx < |inner.value.items|)
      ensures inner.Some? && r.Err? ==> r.error == IndexError("?? " + IntToString(idx))
      ensures r.Ok? ==> r.value == ItemAsTuple(inner.value.items[idx])
    ensures r.Ok? ==> ItemFromTuple(r.value) == inner.value.items[idx]
    {
      match GetInner()
      case Err(e) => Err(e)
      case Ok(t) =>
        if idx < 0 || idx >= |t.items| then Err(IndexError("?? " + IntToString(idx)))
        else
          ItemTupleLossless(t.items[idx]);
          Ok(ItemAsTuple(t.items[idx]))
    }

    /** `next` and `next_sibling`: the library's answer, with the sentinel
        turned into `None`. */
    function Next(i: U32, libNext: (TreeData, U32) -> U32): (r: Result<Option<U32>>)
      reads this
      ensures r.Err? <==> inner.None?
      ensures r.Ok? ==> (r.value.None? <==> libNext(inner.value, i) == NullIdx)
      ensures r.Ok? && r.value.Some? ==> r.value.value == libNext(inner.value, i)
    {
      match GetInner()
      case Err(e) => Err(e)
      case Ok(t) => Ok(CheckTreeIdx(libNext(t, i)))
    }

    /** `__repr__`. */
    function Repr(): (s: string)
      reads this
      ensures inner.None? <==> s == "QuadtreeTree Null"
    {
      match inner
      case None => "QuadtreeTree Null"
      case Some(t) => "QuadtreeTree with " + NatToString(|t.items|) + " entries"
    }

    /** `inner.take().unwrap()`: hands the tree over and leaves nothing
        behind; panics when there is no tree. */
    method Take() returns (r: Result<TreeData>)
      modifies this
      ensures inner == None
      ensures old(inner).None? ==> r == Err(Panic)
      ensures old(inner).Some? ==> r == Ok(old(inner).value)
    {
      match inner {
        case None =>
          r := Err(Panic);
        case Some(t) =>
          inner := None;
          r := Ok(t);
      }
    }
  }

  /** `find_tree_groups`: the tree is taken from its wrapper even when the
      library step (`group`, with the targets) then fails. */
  method FindTreeGroups(treePy: QuadtreeTree, target: int, minTarget: int,
                        group: (TreeData, int, int) -> Result<TreeData>)
    returns (r: Result<QuadtreeTree>)
    modifies treePy
    ensures treePy.inner == None
    ensures old(treePy.inner).None? ==> r == Err(Panic)
    ensures old(treePy.inner).Some? ==>
              match group(old(treePy.inner).value, target, minTarget)
              case Err(e) => r == Err(e)
              case Ok(res) => r.Ok? && fresh(r.value) && r.value.inner == Some(res)
  {
    var taken := treePy.Take();
    match taken {
      case Err(e) =>
        r := Err(e);
      case Ok(tree) =>
        match group(tree, target, minTarget) {
          case Err(e) =>
            r := Err(e);
          case Ok(res) =>
            var out := new QuadtreeTree(res);
            r := Ok(out);
        }
    }
  }

  /** `sort_blocks`: the compression type is decoded first, and a bad one
      leaves the groups tree in place; otherwise the tree is taken and the
      library sort (`sorter`) produces the log messages. */
  method SortBlocks(groupsObj: QuadtreeTree, ctName: string, ctLevel: U32,
                    sorter: (TreeData, CompressionType) -> Result<seq<string>>)
    returns (r: Result<seq<string>>)
    modifies groupsObj
    ensures !KnownCompressionName(ctName) ==>
              r == Err(CompressionTypeFromString(ctName, ctLevel).error)
              && groupsObj.inner == old(groupsObj.inner)
    ensures KnownCompressionName(ctName) ==> groupsObj.inner == None
    ensures KnownCompressionName(ctName) && old(groupsObj.inner).None? ==> r == Err(Panic)
    ensures KnownCompressionName(ctName) && old(groupsObj.inner).Some? ==>
              r == sorter(old(groupsObj.inner).value, CompressionTypeFromString(ctName, ctLevel).value)
  {
    match CompressionTypeFromString(ctName, ctLevel) {
      case Err(e) =>
        r := Err(e);
      case Ok(ct) =>
        var taken := groupsObj.Take();
        match taken {
          case Err(e) =>
            r := Err(e);
          case Ok(groups) =>
            r := sorter(groups, ct);
        }
    }
  }

  /** A tree can be consumed once: after a grouping step every accessor on
      the old wrapper reports a null tree, and a second step panics. */
  method ConsumeOnce(treePy: QuadtreeTree, group: (TreeData, int, int) -> Result<TreeData>)
    returns (first: Result<QuadtreeTree>, second: Result<QuadtreeTree>)
    requires treePy.inner.Some?
    modifies treePy
    ensures treePy.GetInner() == Err(ValueError(NullTreeMessage))
    ensures treePy.Repr() == "QuadtreeTree Null"
    ensures second == Err(Panic)
  {
    first := FindTreeGroups(treePy, 1, 0, group);
    second := FindTreeGroups(treePy, 1, 0, group);
  }
}
