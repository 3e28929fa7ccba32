/** The spatial id-set filter builder: four id sets (nodes, ways, relations
    and the boundary nodes "exnodes") grown block by block, either by taking
    every id of a block or by three ordered passes against a box.

    The pure functions below specify each pass; the class `IdSetSet`
    performs them in place and is proved to agree with them. */
module IdSetFilter {
  import opened Common
  import opened Elements

  /** A snapshot of the four sets, as the library's membership test sees it. */
  datatype IdSets = IdSets(nodes: set<int>, ways: set<int>, relations: set<int>, exnodes: set<int>)

  const EmptySets := IdSets({}, {}, {}, {})

  // ---------------------------------------------------------------------
  // Per-kind insertion and membership (the kind-string interface).

  /** `s` with `id` added to the set of kind `k`. */
  function AddKind(s: IdSets, k: ElementType, id: int): IdSets {
    match k
    case NodeType => s.(nodes := s.nodes + {id})
    case WayType => s.(ways := s.ways + {id})
    case RelationType => s.(relations := s.relations + {id})
    case OtherType => s
  }

  /** Membership in the set of kind `k`; the boundary set is not consulted. */
  predicate PerKindContains(s: IdSets, k: ElementType, id: int) {
    match k
    case NodeType => id in s.nodes
    case WayType => id in s.ways
    case RelationType => id in s.relations
    case OtherType => false
  }

  /** Adding an id of a real kind makes exactly that (kind, id) pair newly
      present, and leaves the boundary set alone. */
  lemma AddKindThenContains(s: IdSets, k: ElementType, id: int, k': ElementType, id': int)
    requires k != OtherType
    ensures PerKindContains(AddKind(s, k, id), k', id')
            <==> PerKindContains(s, k', id') || (k' == k && id' == id)
    ensures AddKind(s, k, id).exnodes == s.exnodes
  {
  }

  // ---------------------------------------------------------------------
  // Ids of a list of records.

  function NodeIdOf(n: Node): int { n.id }
  function WayIdOf(w: Way): int { w.id }
  function RelationIdOf(r: Relation): int { r.id }
  function MinimalRelationIdOf(r: MinimalRelation): int { r.id }

  function IdsOf<T>(xs: seq<T>, id: T -> int): set<int> {
    if xs == [] then {} else IdsOf(xs[..|xs| - 1], id) + {id(xs[|xs| - 1])}
  }

  lemma {:induction false} IdsOfMembers<T>(xs: seq<T>, id: T -> int, x: int)
    ensures x in IdsOf(xs, id) <==> exists i :: 0 <= i < |xs| && id(xs[i]) == x
    decreases |xs|
  {
    if xs != [] {
      var init := xs[..|xs| - 1];
      IdsOfMembers(init, id, x);
      if x in IdsOf(init, id) {
        var i :| 0 <= i < |init| && id(init[i]) == x;
        assert id(xs[i]) == x;
      }
      if exists i :: 0 <= i < |xs| && id(xs[i]) == x {
        var i :| 0 <= i < |xs| && id(xs[i]) == x;
        if i < |init| {
          assert id(init[i]) == x;
        }
      }
    }
  }

  /** Bulk insertion: every given id joins its kind's set; nothing else moves. */
  function FullStep(s: IdSets, nodeIds: set<int>, wayIds: set<int>, relationIds: set<int>): IdSets {
    s.(nodes := s.nodes + nodeIds, ways := s.ways + wayIds, relations := s.relations + relationIds)
  }

  /** After a bulk insertion every node, way and relation id of the block is
      in its kind's set, an id is there only if it was before or came from
      the block, and the boundary set is untouched. */
  lemma FullStepTakesAll<R>(s: IdSets, ns: seq<Node>, ws: seq<Way>, rs: seq<R>, relId: R -> int)
    ensures var t := FullStep(s, IdsOf(ns, NodeIdOf), IdsOf(ws, WayIdOf), IdsOf(rs, relId));
      && (forall i :: 0 <= i < |ns| ==> ns[i].id in t.nodes)
      && (forall i :: 0 <= i < |ws| ==> ws[i].id in t.ways)
      && (forall i :: 0 <= i < |rs| ==> relId(rs[i]) in t.relations)
      && (forall x :: x in t.nodes ==> x in s.nodes || exists i :: 0 <= i < |ns| && ns[i].id == x)
      && s.nodes <= t.nodes && s.ways <= t.ways && s.relations <= t.relations
      && t.exnodes == s.exnodes
  {
    forall x | true
      ensures x in IdsOf(ns, NodeIdOf) <==> exists i :: 0 <= i < |ns| && NodeIdOf(ns[i]) == x
    {
      IdsOfMembers(ns, NodeIdOf, x);
    }
    forall i | 0 <= i < |ws|
      ensures ws[i].id in IdsOf(ws, WayIdOf)
    {
      IdsOfMembers(ws, WayIdOf, ws[i].id);
    }
    forall i | 0 <= i < |rs|
      ensures relId(rs[i]) in IdsOf(rs, relId)
    {
      IdsOfMembers(rs, relId, relId(rs[i]));
    }
  }

  // ---------------------------------------------------------------------
  // Stage 1: nodes inside the box.

  function InsideIds(ns: seq<Node>, bx: Bbox, containsPoint: (Bbox, int, int) -> bool): set<int> {
    if ns == [] then {}
    else
      var n := ns[|ns| - 1];
      InsideIds(ns[..|ns| - 1], bx, containsPoint)
        + (if containsPoint(bx, n.lon, n.lat) then {n.id} else {})
  }

  lemma {:induction false} InsideIdsMembers(ns: seq<Node>, bx: Bbox, containsPoint: (Bbox, int, int) -> bool, x: int)
    ensures x in InsideIds(ns, bx, containsPoint)
            <==> exists i :: 0 <= i < |ns| && ns[i].id == x && containsPoint(bx, ns[i].lon, ns[i].lat)
    decreases |ns|
  {
    if ns != [] {
      var init := ns[..|ns| - 1];
      InsideIdsMembers(init, bx, containsPoint, x);
      if exists i :: 0 <= i < |ns| && ns[i].id == x && containsPoint(bx, ns[i].lon, ns[i].lat) {
        var i :| 0 <= i < |ns| && ns[i].id == x && containsPoint(bx, ns[i].lon, ns[i].lat);
        if i < |init| {
          assert init[i] == ns[i];
        }
      }
      if x in InsideIds(init, bx, containsPoint) {
        var i :| 0 <= i < |init| && init[i].id == x && containsPoint(bx, init[i].lon, init[i].lat);
        assert ns[i] == init[i];
      }
    }
  }

  function NodeStage(s: IdSets, ns: seq<Node>, bx: Bbox, containsPoint: (Bbox, int, int) -> bool): IdSets {
    s.(nodes := s.nodes + InsideIds(ns, bx, containsPoint))
  }

  // ---------------------------------------------------------------------
  // Stage 2: ways touching a kept node, and their other nodes as boundary.

  /** Some reference of the way is a kept node. */
  predicate Touches(kept: set<int>, refs: seq<int>) {
    exists k :: 0 <= k < |refs| && refs[k] in kept
  }

  /** The references that are not kept nodes. */
  function Outside(kept: set<int>, refs: seq<int>): set<int> {
    if refs == [] then {}
    else Outside(kept, refs[..|refs| - 1]) + (if refs[|refs| - 1] in kept then {} else {refs[|refs| - 1]})
  }

  lemma {:induction false} OutsideMembers(kept: set<int>, refs: seq<int>, x: int)
    ensures x in Outside(kept, refs) <==> x in refs && x !in kept
    decreases |refs|
  {
    if refs != [] {
      var init := refs[..|refs| - 1];
      OutsideMembers(kept, init, x);
      assert refs == init + [refs[|refs| - 1]];
    }
  }

  function WayStep(s: IdSets, w: Way): IdSets {
    if Touches(s.nodes, w.refs)
    then s.(ways := s.ways + {w.id}, exnodes := s.exnodes + Outside(s.nodes, w.refs))
    else s
  }

  function WayStage(s: IdSets, ws: seq<Way>): IdSets {
    if ws == [] then s else WayStep(WayStage(s, ws[..|ws| - 1]), ws[|ws| - 1])
  }

  /** The way stage, characterised without reference to iteration order:
      a way is kept iff one of its references is a kept node; the boundary
      gains exactly the unkept references of kept ways; nodes and relations
      do not change. */
  lemma {:induction false} WayStageExact(s: IdSets, ws: seq<Way>)
    ensures WayStage(s, ws).nodes == s.nodes
    ensures WayStage(s, ws).relations == s.relations
    ensures s.ways <= WayStage(s, ws).ways && s.exnodes <= WayStage(s, ws).exnodes
    ensures forall id :: id in WayStage(s, ws).ways
              <==> id in s.ways || exists i :: 0 <= i < |ws| && ws[i].id == id && Touches(s.nodes, ws[i].refs)
    ensures forall x :: x in WayStage(s, ws).exnodes
              <==> x in s.exnodes
                   || (x !in s.nodes && exists i :: 0 <= i < |ws| && Touches(s.nodes, ws[i].refs) && x in ws[i].refs)
    decreases |ws|
  {
    if ws != [] {
      var init := ws[..|ws| - 1];
      var w := ws[|ws| - 1];
      WayStageExact(s, init);
      var t := WayStage(s, init);
      forall x | true
        ensures x in Outside(t.nodes, w.refs) <==> x in w.refs && x !in s.nodes
      {
        OutsideMembers(t.nodes, w.refs, x);
      }
      forall id | true
        ensures id in WayStage(s, ws).ways
                <==> id in s.ways || exists i :: 0 <= i < |ws| && ws[i].id == id && Touches(s.nodes, ws[i].refs)
      {
        if exists i :: 0 <= i < |ws| && ws[i].id == id && Touches(s.nodes, ws[i].refs) {
          var i :| 0 <= i < |ws| && ws[i].id == id && Touches(s.nodes, ws[i].refs);
          if i < |init| { assert init[i] == ws[i]; }
        }
        if id in t.ways && id !in s.ways {
          var i :| 0 <= i < |init| && init[i].id == id && Touches(s.nodes, init[i].refs);
          assert ws[i] == init[i];
        }
      }
      forall x | true
        ensures x in WayStage(s, ws).exnodes
                <==> x in s.exnodes
                     || (x !in s.nodes && exists i :: 0 <= i < |ws| && Touches(s.nodes, ws[i].refs) && x in ws[i].refs)
      {
        if x !in s.nodes && exists i :: 0 <= i < |ws| && Touches(s.nodes, ws[i].refs) && x in ws[i].refs {
          var i :| 0 <= i < |ws| && Touches(s.nodes, ws[i].refs) && x in ws[i].refs;
          if i < |init| { assert init[i] == ws[i]; }
        }
        if x in t.exnodes && x !in s.exnodes {
          var i :| 0 <= i < |init| && Touches(s.nodes, init[i].refs) && x in init[i].refs;
          assert ws[i] == init[i];
        }
      }
    }
  }

  /** Referential completeness: every way the stage keeps has each of its
      references among the kept nodes or the boundary nodes afterwards. */
  lemma WayStageComplete(s: IdSets, ws: seq<Way>, i: int)
    requires 0 <= i < |ws| && Touches(s.nodes, ws[i].refs)
    ensures ws[i].id in WayStage(s, ws).ways
    ensures forall x :: x in ws[i].refs ==> x in WayStage(s, ws).nodes + WayStage(s, ws).exnodes
  {
    WayStageExact(s, ws);
  }

  // ---------------------------------------------------------------------
  // Stage 3: relations with a member already in the sets, in one pass.

  /** Some member passes the membership test against the sets `s`. */
  predicate Fires(s: IdSets, members: seq<Member>, contains: (IdSets, ElementType, int) -> bool) {
    exists k :: 0 <= k < |members| && contains(s, members[k].memType, members[k].memRef)
  }

  function RelationStep(s: IdSets, r: Relation, contains: (IdSets, ElementType, int) -> bool): IdSets {
    if Fires(s, r.members, contains) then s.(relations := s.relations + {r.id}) else s
  }

  /** The single sequential pass: each relation is checked against the sets
      as left by the relations before it, and never checked again. */
  function RelationStage(s: IdSets, rs: seq<Relation>, contains: (IdSets, ElementType, int) -> bool): IdSets {
    if rs == [] then s else RelationStep(RelationStage(s, rs[..|rs| - 1], contains), rs[|rs| - 1], contains)
  }

  /** The relation stage changes only the relation set, which grows along
      the pass, and a relation id is added exactly when that relation fired
      against the sets as they stood when its turn came. */
  lemma {:induction false} RelationStageExact(s: IdSets, rs: seq<Relation>, contains: (IdSets, ElementType, int) -> bool)
    ensures RelationStage(s, rs, contains) == s.(relations := RelationStage(s, rs, contains).relations)
    ensures s.relations <= RelationStage(s, rs, contains).relations
    ensures forall id :: id in RelationStage(s, rs, contains).relations
              <==> id in s.relations
                   || exists k :: 0 <= k < |rs| && rs[k].id == id && Fires(RelationStage(s, rs[..k], contains), rs[k].members, contains)
    decreases |rs|
  {
    if rs != [] {
      var init := rs[..|rs| - 1];
      RelationStageExact(s, init, contains);
      assert forall k :: 0 <= k < |init| ==> init[..k] == rs[..k] && init[k] == rs[k];
      assert rs[..|rs| - 1] == init;
    }
  }

  /** Along the pass the relation set only grows. */
  lemma {:induction false} RelationStagePrefixGrows(s: IdSets, rs: seq<Relation>, contains: (IdSets, ElementType, int) -> bool, j: nat)
    requires j <= |rs|
    ensures RelationStage(s, rs[..j], contains).relations <= RelationStage(s, rs, contains).relations
    decreases |rs|
  {
    if j < |rs| {
      var init := rs[..|rs| - 1];
      assert init[..j] == rs[..j];
      RelationStagePrefixGrows(s, init, contains, j);
    } else {
      assert rs[..j] == rs;
    }
  }

  /** With per-kind membership, a relation added earlier in the same pass
      counts for the relations after it. */
  lemma EarlierRelationCounts(s: IdSets, rs: seq<Relation>, j: nat, k: nat, m: nat)
    requires j < k < |rs|
    requires Fires(RelationStage(s, rs[..j], PerKindContains), rs[j].members, PerKindContains)
    requires m < |rs[k].members| && rs[k].members[m] == Member(RelationType, rs[j].id)
    ensures rs[k].id in RelationStage(s, rs, PerKindContains).relations
  {
    var before := rs[..j + 1];
    assert before[..j] == rs[..j];
    assert rs[j].id in RelationStage(s, before, PerKindContains).relations;
    assert rs[..k][..j + 1] == before;
    RelationStagePrefixGrows(s, rs[..k], PerKindContains, j + 1);
    assert Fires(RelationStage(s, rs[..k], PerKindContains), rs[k].members, PerKindContains);
    RelationStageExact(s, rs, PerKindContains);
  }

  // ---------------------------------------------------------------------
  // The three stages together.

  function BoxStep(s: IdSets, ns: seq<Node>, ws: seq<Way>, rs: seq<Relation>, bx: Bbox,
                   containsPoint: (Bbox, int, int) -> bool,
                   contains: (IdSets, ElementType, int) -> bool): IdSets
  {
    RelationStage(WayStage(NodeStage(s, ns, bx, containsPoint), ws), rs, contains)
  }

  /** A box pass never removes an id from any set; the node set gains
      exactly the ids of nodes inside the box, whatever the ways and
      relations of the block. */
  lemma BoxStepGrows(s: IdSets, ns: seq<Node>, ws: seq<Way>, rs: seq<Relation>, bx: Bbox,
                     containsPoint: (Bbox, int, int) -> bool,
                     contains: (IdSets, ElementType, int) -> bool)
    ensures var t := BoxStep(s, ns, ws, rs, bx, containsPoint, contains);
      && t.nodes == s.nodes + InsideIds(ns, bx, containsPoint)
      && s.ways <= t.ways && s.relations <= t.relations && s.exnodes <= t.exnodes
  {
    var n := NodeStage(s, ns, bx, containsPoint);
    WayStageExact(n, ws);
    var w := WayStage(n, ws);
    RelationStageExact(w, rs, contains);
    var t := RelationStage(w, rs, contains);
  }

  /** A worked example: box (0,0,1000,1000), node 1 inside at
      (500,500), node 2 outside at (2000,2000), way 10 over [1, 2], relation 21
      whose only member is relation 20, then relation 20 whose member is way
      10. The way is kept with node 2 as boundary; relation 20 is kept;
      relation 21, checked before 20 was added, is not. */
  lemma BoxPassExample()
    ensures var bx := Bbox(0, 0, 1000, 1000);
      var cp := (b: Bbox, lon: int, lat: int) => b.minlon <= lon <= b.maxlon && b.minlat <= lat <= b.maxlat;
      var rs := [Relation(21, [Member(RelationType, 20)]), Relation(20, [Member(WayType, 10)])];
      BoxStep(EmptySets, [Node(1, 500, 500), Node(2, 2000, 2000)], [Way(10, [1, 2])], rs, bx, cp, PerKindContains)
        == IdSets({1}, {10}, {20}, {2})
  {
    var bx := Bbox(0, 0, 1000, 1000);
    var cp := (b: Bbox, lon: int, lat: int) => b.minlon <= lon <= b.maxlon && b.minlat <= lat <= b.maxlat;
    var ns := [Node(1, 500, 500), Node(2, 2000, 2000)];
    assert ns[..1] == [Node(1, 500, 500)] && ns[..1][..0] == [];
    assert InsideIds(ns[..1], bx, cp) == {1};
    assert InsideIds(ns, bx, cp) == {1};
    var n := NodeStage(EmptySets, ns, bx, cp);
    assert n == IdSets({1}, {}, {}, {});
    var w := Way(10, [1, 2]);
    assert [w][..0] == [];
    assert Touches(n.nodes, w.refs) by { assert w.refs[0] in n.nodes; }
    assert w.refs[..1] == [1] && w.refs[..1][..0] == [];
    assert Outside(n.nodes, w.refs[..1]) == {};
    assert Outside(n.nodes, w.refs) == {2};
    assert WayStage(n, [w][..0]) == n;
    var t := WayStage(n, [w]);
    assert t == IdSets({1}, {10}, {}, {2});
    var rs := [Relation(21, [Member(RelationType, 20)]), Relation(20, [Member(WayType, 10)])];
    assert rs[..1] == [rs[0]] && rs[..1][..0] == [];
    assert !Fires(t, rs[0].members, PerKindContains);
    assert RelationStage(t, rs[..1], PerKindContains) == t;
    assert Fires(t, rs[1].members, PerKindContains) by {
      assert PerKindContains(t, rs[1].members[0].memType, rs[1].members[0].memRef);
    }
  }

  // ---------------------------------------------------------------------
  // The stateful builder.

  class IdSetSet {
    var nodes: set<int>
    var ways: set<int>
    var relations: set<int>
    var exnodes: set<int>

    function Sets(): IdSets
      reads this
    {
      IdSets(nodes, ways, relations, exnodes)
    }

    constructor ()
      ensures Sets() == EmptySets
    {
      nodes, ways, relations, exnodes := {}, {}, {}, {};
    }

    /** Adds `id` to the one set named, in any case, by "n"/"node",
        "w"/"way" or "r"/"relation"; any other kind is an error that leaves
        every set as it was. */
    method Insert(t: string, id: int) returns (r: Result<()>)
      modifies this
      ensures r.Ok? <==> ElementTypeFromStr(t).Ok?
      ensures r.Ok? ==> Sets() == AddKind(old(Sets()), ElementTypeFromStr(t).value, id)
      ensures r.Err? ==> Sets() == old(Sets())
      ensures r.Err? ==> r.error == ValueError("unexpected type " + t + " " + IntToString(id))
    {
      match ElementTypeFromStr(t) {
        case Ok(k) =>
          match k {
            case NodeType => nodes := nodes + {id};
            case WayType => ways := ways + {id};
            case RelationType => relations := relations + {id};
            case OtherType =>
          }
          r := Ok(());
        case Err(_) =>
          r := Err(ValueError("unexpected type " + t + " " + IntToString(id)));
      }
    }

    /** Python's `(kind, id) in idsetset`: per-kind membership, the boundary
        set excluded; an unknown kind is an error. */
    function Contains(t: string, id: int): (r: Result<bool>)
      reads this
      ensures r.Ok? <==> ElementTypeFromStr(t).Ok?
      ensures r.Ok? ==> (r.value <==> PerKindContains(Sets(), ElementTypeFromStr(t).value, id))
      ensures r.Err? ==> r.error == ValueError("unexpected type " + t + " " + IntToString(id))
    {
      match ElementTypeFromStr(t)
      case Ok(k) => Ok(PerKindContains(Sets(), k, id))
      case Err(_) => Err(ValueError("unexpected type " + t + " " + IntToString(id)))
    }

    /** Takes every node, way and relation id of the block. */
    method AddBlockFull(bl: Block)
      modifies this
      ensures Sets() == FullStep(old(Sets()), IdsOf(bl.nodes, NodeIdOf), IdsOf(bl.ways, WayIdOf),
                                 IdsOf(bl.relations, RelationIdOf))
    {
      AddIds(bl.nodes, bl.ways, bl.relations, RelationIdOf);
    }

    method AddMinimalBlockFull(bl: MinimalBlock)
      modifies this
      ensures Sets() == FullStep(old(Sets()), IdsOf(bl.nodes, NodeIdOf), IdsOf(bl.ways, WayIdOf),
                                 IdsOf(bl.relations, MinimalRelationIdOf))
    {
      AddIds(bl.nodes, bl.ways, bl.relations, MinimalRelationIdOf);
    }

    /** The three loops of the bulk insertion; `relId` reads the id of
        either relation representation. */
    method AddIds<R>(ns: seq<Node>, ws: seq<Way>, rs: seq<R>, relId: R -> int)
      modifies this
      ensures Sets() == FullStep(old(Sets()), IdsOf(ns, NodeIdOf), IdsOf(ws, WayIdOf), IdsOf(rs, relId))
    {
      var i := 0;
      while i < |ns|
        invariant 0 <= i <= |ns|
        invariant Sets() == FullStep(old(Sets()), IdsOf(ns[..i], NodeIdOf), {}, {})
      {
        assert ns[..i + 1][..i] == ns[..i];
        nodes := nodes + {ns[i].id};
        i := i + 1;
      }
      assert ns[..i] == ns;
      i := 0;
      while i < |ws|
        invariant 0 <= i <= |ws|
        invariant Sets() == FullStep(old(Sets()), IdsOf(ns, NodeIdOf), IdsOf(ws[..i], WayIdOf), {})
      {
        assert ws[..i + 1][..i] == ws[..i];
        ways := ways + {ws[i].id};
        i := i + 1;
      }
      assert ws[..i] == ws;
      i := 0;
      while i < |rs|
        invariant 0 <= i <= |rs|
        invariant Sets() == FullStep(old(Sets()), IdsOf(ns, NodeIdOf), IdsOf(ws, WayIdOf), IdsOf(rs[..i], relId))
      {
        assert rs[..i + 1][..i] == rs[..i];
        relations := relations + {relId(rs[i])};
        i := i + 1;
      }
      assert rs[..i] == rs;
    }

    /** The three ordered passes of a box filter over one block. */
    method AddBlockBox(bx: Bbox, bl: Block, containsPoint: (Bbox, int, int) -> bool,
                       contains: (IdSets, ElementType, int) -> bool)
      modifies this
      ensures Sets() == BoxStep(old(Sets()), bl.nodes, bl.ways, bl.relations, bx, containsPoint, contains)
    {
      AddInsideNodes(bl.nodes, bx, containsPoint);
      AddTouchingWays(bl.ways);
      AddMatchingRelations(bl.relations, contains);
    }

    /** The same passes over a minimal block, whose relation members are
        the type codes (through `fromInt`) zipped with the member ids. */
    method AddMinimalBlockBox(bx: Bbox, bl: MinimalBlock, containsPoint: (Bbox, int, int) -> bool,
                              contains: (IdSets, ElementType, int) -> bool, fromInt: int -> ElementType)
      modifies this
      ensures Sets() == BoxStep(old(Sets()), bl.nodes, bl.ways, DecodeRelations(fromInt, bl.relations),
                                bx, containsPoint, contains)
    {
      AddInsideNodes(bl.nodes, bx, containsPoint);
      AddTouchingWays(bl.ways);
      AddMatchingRelations(DecodeRelations(fromInt, bl.relations), contains);
    }

    method AddInsideNodes(ns: seq<Node>, bx: Bbox, containsPoint: (Bbox, int, int) -> bool)
      modifies this
      ensures Sets() == NodeStage(old(Sets()), ns, bx, containsPoint)
    {
      var i := 0;
      while i < |ns|
        invariant 0 <= i <= |ns|
        invariant Sets() == NodeStage(old(Sets()), ns[..i], bx, containsPoint)
      {
        assert ns[..i + 1][..i] == ns[..i];
        if containsPoint(bx, ns[i].lon, ns[i].lat) {
          nodes := nodes + {ns[i].id};
        }
        i := i + 1;
      }
      assert ns[..i] == ns;
    }

    method AddTouchingWays(ws: seq<Way>)
      modifies this
      ensures Sets() == WayStage(old(Sets()), ws)
    {
      var i := 0;
      while i < |ws|
        invariant 0 <= i <= |ws|
        invariant Sets() == WayStage(old(Sets()), ws[..i])
      {
        assert ws[..i + 1][..i] == ws[..i];
        var w := ws[i];
        var touches := AnyRefKept(w.refs, nodes);
        if touches {
          ways := ways + {w.id};
          ghost var s0 := Sets();
          var k := 0;
          while k < |w.refs|
            invariant 0 <= k <= |w.refs|
            invariant Sets() == s0.(exnodes := s0.exnodes + Outside(s0.nodes, w.refs[..k]))
          {
            assert w.refs[..k + 1][..k] == w.refs[..k];
            if w.refs[k] !in nodes {
              exnodes := exnodes + {w.refs[k]};
            }
            k := k + 1;
          }
          assert w.refs[..k] == w.refs;
        }
        i := i + 1;
      }
      assert ws[..i] == ws;
    }

    method AddMatchingRelations(rs: seq<Relation>, contains: (IdSets, ElementType, int) -> bool)
      modifies this
      ensures Sets() == RelationStage(old(Sets()), rs, contains)
    {
      var i := 0;
      while i < |rs|
        invariant 0 <= i <= |rs|
        invariant Sets() == RelationStage(old(Sets()), rs[..i], contains)
      {
        assert rs[..i + 1][..i] == rs[..i];
        var fires := AnyMemberMatches(rs[i].members, Sets(), contains);
        if fires {
          relations := relations + {rs[i].id};
        }
        i := i + 1;
      }
      assert rs[..i] == rs;
    }
  }

  /** Whether some reference is a kept node, stopping at the first one. */
  method AnyRefKept(refs: seq<int>, kept: set<int>) returns (found: bool)
    ensures found <==> Touches(kept, refs)
  {
    var k := 0;
    while k < |refs|
      invariant 0 <= k <= |refs|
      invariant forall j :: 0 <= j < k ==> refs[j] !in kept
    {
      if refs[k] in kept {
        return true;
      }
      k := k + 1;
    }
    return false;
  }

  /** Whether some member passes the membership test, stopping at the first. */
  method AnyMemberMatches(members: seq<Member>, s: IdSets, contains: (IdSets, ElementType, int) -> bool)
    returns (found: bool)
    ensures found <==> Fires(s, members, contains)
  {
    var k := 0;
    while k < |members|
      invariant 0 <= k <= |members|
      invariant forall j :: 0 <= j < k ==> !contains(s, members[j].memType, members[j].memRef)
    {
      if contains(s, members[k].memType, members[k].memRef) {
        return true;
      }
      k := k + 1;
    }
    return false;
  }
}
