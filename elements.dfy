/** Element records, Python-style index normalisation, the changetype and
    element-type string codecs, and the assembly of a block from a list of
    loose elements. */
module Elements {
  import opened Common

  // ---------------------------------------------------------------------
  // Records of a block. Only the fields the filter builder reads are kept.

  /** A point with its fixed-point coordinates. */
  datatype Node = Node(id: int, lon: int, lat: int)

  /** A line, by the ordered ids of the nodes it references. */
  datatype Way = Way(id: int, refs: seq<int>)

  /** The element kinds; `OtherType` stands for any further variant of the
      library's enumeration (the fallback of an unknown member-type code). */
  datatype ElementType = NodeType | WayType | RelationType | OtherType

  datatype Member = Member(memType: ElementType, memRef: int)

  /** A grouping of other elements, by (type, id) members. */
  datatype Relation = Relation(id: int, members: seq<Member>)

  /** A relation of a minimal block: member type codes and member ids are
      stored as two separate (already decoded) lists, paired up by position. */
  datatype MinimalRelation = MinimalRelation(id: int, types: seq<int>, refs: seq<int>)

  /** An axis-aligned box in fixed-point coordinates. */
  datatype Bbox = Bbox(minlon: int, minlat: int, maxlon: int, maxlat: int)

  /** A decoded block: its header values and the three per-kind lists. */
  datatype Block = Block(
    index: int, location: nat, quadtree: int, startDate: int, endDate: int,
    nodes: seq<Node>, ways: seq<Way>, relations: seq<Relation>)

  /** A block decoded in the minimal form used for filtering. */
  datatype MinimalBlock = MinimalBlock(
    index: int, location: nat, quadtree: int, startDate: int, endDate: int,
    nodes: seq<Node>, ways: seq<Way>, relations: seq<MinimalRelation>)

  /** The members of a minimal relation: type codes and ids zipped, so the
      shorter list decides how many there are. */
  function DecodeMembers(fromInt: int -> ElementType, mr: MinimalRelation): (ms: seq<Member>)
    ensures |ms| == if |mr.types| <= |mr.refs| then |mr.types| else |mr.refs|
    ensures forall i :: 0 <= i < |ms| ==> ms[i] == Member(fromInt(mr.types[i]), mr.refs[i])
  {
    var n := if |mr.types| <= |mr.refs| then |mr.types| else |mr.refs|;
    seq(n, i requires 0 <= i < n => Member(fromInt(mr.types[i]), mr.refs[i]))
  }

  function DecodeRelations(fromInt: int -> ElementType, rs: seq<MinimalRelation>): (out: seq<Relation>)
    ensures |out| == |rs|
    ensures forall i :: 0 <= i < |rs| ==> out[i] == Relation(rs[i].id, DecodeMembers(fromInt, rs[i]))
  {
    seq(|rs|, i requires 0 <= i < |rs| => Relation(rs[i].id, DecodeMembers(fromInt, rs[i])))
  }

  // ---------------------------------------------------------------------
  // Negative-index normalisation used by node_at, way_at, relation_at and
  // their tuple and minimal-block counterparts.

  /** Index normalisation as Python does it: a negative index counts from
      the end. The second error message reports the already adjusted index. */
  function PrepWhich(len: nat, which: int): (r: Result<nat>)
    ensures r.Ok? <==> -(len as int) <= which < len
    ensures r.Ok? ==> r.value < len
    ensures r.Ok? && which >= 0 ==> r.value == which
    ensures r.Ok? && which < 0 ==> r.value == which + len
    ensures which >= len ==> r == Err(IndexError(IntToString(which) + " >= " + IntToString(len)))
    ensures which < -(len as int) ==> r == Err(IndexError(IntToString(which + len) + " >= " + IntToString(len)))
  {
    if which >= len then Err(IndexError(IntToString(which) + " >= " + IntToString(len)))
    else
      var w := if which < 0 then which + len else which;
      if w < 0 then Err(IndexError(IntToString(w) + " >= " + IntToString(len)))
      else Ok(w)
  }

  /** The element at a Python-style index of a per-kind list. */
  function ElementAt<T>(vv: seq<T>, which: int): (r: Result<T>)
    ensures r.Ok? <==> -(|vv| as int) <= which < |vv|
    ensures r.Ok? ==> r.value in vv
    ensures r.Ok? ==> r.value == vv[if which >= 0 then which else which + |vv|]
    ensures r.Err? ==> r.error.IndexError?
  {
    match PrepWhich(|vv|, which)
    case Ok(i) => Ok(vv[i])
    case Err(e) => Err(e)
  }

  /** No index, however negative, is accepted on an empty list. */
  lemma PrepWhichEmpty(which: int)
    ensures PrepWhich(0, which).Err?
  {
  }

  /** Indices that differ by the length select the same position. */
  lemma PrepWhichWraps(len: nat, which: int)
    requires 0 <= which < len
    ensures PrepWhich(len, which - len) == PrepWhich(len, which) == Ok(which)
  {
  }

  // ---------------------------------------------------------------------
  // Changetype codec.

  datatype Changetype = Normal | Delete | Remove | Modify | Unchanged | Create

  function ChangetypeStr(c: Changetype): (s: string)
    ensures |s| >= 6 && NoUpper(s)
  {
    match c
    case Normal => "normal"
    case Delete => "delete"
    case Remove => "remove"
    case Modify => "modify"
    case Unchanged => "unchanged"
    case Create => "create"
  }

  /** Accepts, ignoring case, the full name, its first letter as an alias,
      or the empty string for `Normal`. */
  function ChangetypeFromStr(ct: string): (r: Result<Changetype>)
    ensures r.Ok? ==> var l := ToLower(ct);
      l == ChangetypeStr(r.value) || l == ChangetypeStr(r.value)[..1] || (l == "" && r.value == Normal)
    ensures r.Err? ==> r == Err(ValueError("unknown changetype " + ct))
  {
    var l := ToLower(ct);
    if l == "" || l == "normal" || l == "n" then Ok(Normal)
    else if l == "delete" || l == "d" then Ok(Delete)
    else if l == "remove" || l == "r" then Ok(Remove)
    else if l == "modify" || l == "m" then Ok(Modify)
    else if l == "unchanged" || l == "u" then Ok(Unchanged)
    else if l == "create" || l == "c" then Ok(Create)
    else Err(ValueError("unknown changetype " + ct))
  }

  /** Every spelling of a changetype, in any case, decodes to it: the full
      name, its one-letter alias, and (for Normal) the empty string. */
  lemma ChangetypeAccepts(s: string, c: Changetype)
    requires ToLower(s) == ChangetypeStr(c) || ToLower(s) == ChangetypeStr(c)[..1]
             || (ToLower(s) == "" && c == Normal)
    ensures ChangetypeFromStr(s) == Ok(c)
  {
    var l := ToLower(s);
    match c {
      case Normal => assert ChangetypeStr(c)[..1] == "n";
      case Delete => assert ChangetypeStr(c)[..1] == "d";
      case Remove => assert ChangetypeStr(c)[..1] == "r";
      case Modify => assert ChangetypeStr(c)[..1] == "m";
      case Unchanged => assert ChangetypeStr(c)[..1] == "u";
      case Create => assert ChangetypeStr(c)[..1] == "c";
    }
  }

  lemma ChangetypeRoundTrip(c: Changetype)
    ensures ChangetypeFromStr(ChangetypeStr(c)) == Ok(c)
  {
    ToLowerFixes(ChangetypeStr(c));
    ChangetypeAccepts(ChangetypeStr(c), c);
  }

  /** Decoding depends only on the lower-case form of the input. */
  lemma ChangetypeCaseInsensitive(s: string)
    ensures ChangetypeFromStr(s).Ok? <==> ChangetypeFromStr(ToLower(s)).Ok?
    ensures ChangetypeFromStr(s).Ok? ==> ChangetypeFromStr(s) == ChangetypeFromStr(ToLower(s))
  {
    ToLowerIdempotent(s);
  }

  // ---------------------------------------------------------------------
  // Element-type codec (relation member types).

  function MemRoleStr(e: ElementType): (s: string)
    ensures e == OtherType <==> s == "???"
    ensures NoUpper(s)
  {
    match e
    case NodeType => "node"
    case WayType => "way"
    case RelationType => "relation"
    case OtherType => "???"
  }

  /** Accepts, ignoring case, "node", "way", "relation" or their first letters;
      "r" names a relation here, not the Remove changetype. */
  function ElementTypeFromStr(et: string): (r: Result<ElementType>)
    ensures r.Ok? ==> r.value != OtherType
    ensures r.Ok? ==> var l := ToLower(et);
      l == MemRoleStr(r.value) || l == MemRoleStr(r.value)[..1]
    ensures r.Err? ==> r == Err(ValueError("unknown elementtype " + et))
  {
    var l := ToLower(et);
    if l == "node" || l == "n" then Ok(NodeType)
    else if l == "way" || l == "w" then Ok(WayType)
    else if l == "relation" || l == "r" then Ok(RelationType)
    else Err(ValueError("unknown elementtype " + et))
  }

  lemma ElementTypeAccepts(s: string, e: ElementType)
    requires e != OtherType
    requires ToLower(s) == MemRoleStr(e) || ToLower(s) == MemRoleStr(e)[..1]
    ensures ElementTypeFromStr(s) == Ok(e)
  {
    var l := ToLower(s);
    match e {
      case NodeType =>
        assert MemRoleStr(e)[..1] == "n";
        assert l == "node" || l == "n";
      case WayType =>
        assert MemRoleStr(e)[..1] == "w";
        assert l == "way" || l == "w";
        assert l != "node" && l != "n";
      case RelationType =>
        assert MemRoleStr(e)[..1] == "r";
        assert l == "relation" || l == "r";
        assert l != "node" && l != "n" && l != "way" && l != "w";
    }
  }

  /** Rendering then parsing gives back the three real kinds; the fallback
      renders as "???", which does not parse. */
  lemma ElementTypeRoundTrip(e: ElementType)
    ensures e != OtherType ==> ElementTypeFromStr(MemRoleStr(e)) == Ok(e)
    ensures e == OtherType ==> ElementTypeFromStr(MemRoleStr(e)).Err?
  {
    ToLowerFixes(MemRoleStr(e));
    if e != OtherType {
      ElementTypeAccepts(MemRoleStr(e), e);
    }
  }

  /** The same letter means different things to the two codecs. */
  lemma AliasRDiffers()
    ensures ElementTypeFromStr("r") == Ok(RelationType)
    ensures ChangetypeFromStr("r") == Ok(Remove)
  {
    ToLowerFixes("r");
  }

  // ---------------------------------------------------------------------
  // Building a block from loose Python objects.

  /** A Python object handed to the block constructor: one of the three
      element wrappers, or anything else. */
  datatype Element = NodeElem(n: Node) | WayElem(w: Way) | RelationElem(r: Relation) | OtherElem

  function NodesOf(es: seq<Element>): seq<Node> {
    if es == [] then []
    else NodesOf(es[..|es| - 1]) + (match es[|es| - 1] case NodeElem(n) => [n] case _ => [])
  }

  function WaysOf(es: seq<Element>): seq<Way> {
    if es == [] then []
    else WaysOf(es[..|es| - 1]) + (match es[|es| - 1] case WayElem(w) => [w] case _ => [])
  }

  function RelationsOf(es: seq<Element>): seq<Relation> {
    if es == [] then []
    else RelationsOf(es[..|es| - 1]) + (match es[|es| - 1] case RelationElem(r) => [r] case _ => [])
  }

  predicate AllKnown(es: seq<Element>) {
    forall i :: 0 <= i < |es| ==> !es[i].OtherElem?
  }

  /** Every known element lands in exactly one per-kind list, so the three
      lists together are as long as the input. */
  lemma {:induction false} PartitionSizes(es: seq<Element>)
    requires AllKnown(es)
    ensures |NodesOf(es)| + |WaysOf(es)| + |RelationsOf(es)| == |es|
    decreases |es|
  {
    if es != [] {
      PartitionSizes(es[..|es| - 1]);
    }
  }

  /** A node is in the node list exactly when it was one of the elements. */
  lemma {:induction false} NodesOfMembers(es: seq<Element>, n: Node)
    ensures n in NodesOf(es) <==> NodeElem(n) in es
    decreases |es|
  {
    if es != [] {
      var init := es[..|es| - 1];
      NodesOfMembers(init, n);
      assert es == init + [es[|es| - 1]];
    }
  }

  /** Partitions the elements by kind, keeping their order within each kind;
      the first element of no known kind stops it with a ValueError
      "unexpected type". */
  method FromElements(index: int, location: nat, quadtree: int, startDate: int, endDate: int,
                      elements: seq<Element>)
    returns (r: Result<Block>)
    ensures r.Ok? <==> AllKnown(elements)
    ensures r.Ok? ==> r.value == Block(index, location, quadtree, startDate, endDate,
                                       NodesOf(elements), WaysOf(elements), RelationsOf(elements))
    ensures r.Err? ==> r.error == ValueError("unexpected type")
  {
    var nodes: seq<Node> := [];
    var ways: seq<Way> := [];
    var relations: seq<Relation> := [];
    var i := 0;
    while i < |elements|
      invariant 0 <= i <= |elements|
      invariant AllKnown(elements[..i])
      invariant nodes == NodesOf(elements[..i])
      invariant ways == WaysOf(elements[..i])
      invariant relations == RelationsOf(elements[..i])
    {
      assert elements[..i + 1][..i] == elements[..i];
      match elements[i] {
        case NodeElem(n) => nodes := nodes + [n];
        case WayElem(w) => ways := ways + [w];
        case RelationElem(rel) => relations := relations + [rel];
        case OtherElem => return Err(ValueError("unexpected type"));
      }
      i := i + 1;
    }
    assert elements[..i] == elements;
    r := Ok(Block(index, location, quadtree, startDate, endDate, nodes, ways, relations));
  }
}
