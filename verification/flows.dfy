/** The survey-flow tree of qualtrics/flows.py: five kinds of node, the
    compiler that numbers every node in pre-order and turns the tree into the
    nested flow document, and the traversal that lists the block flows. */
module Flows {
  import opened Base

  /** Blocks are keyed by object identity; a handle stands for one block object. */
  type BlockHandle = int

  /** The block-id map handed to `compile`: block object to the platform's block id. */
  type BlockIdMap = map<BlockHandle, string>

  /** A flow tree. Root, Group and BlockRandomizer own an ordered list of
      children; EndSurvey and BlockRef are leaves. */
  datatype Flow =
    | Root(children: seq<Flow>)
    | Group(description: string, children: seq<Flow>)
    | BlockRandomizer(subSet: int, evenPresentation: bool, children: seq<Flow>)
    | EndSurvey
    | BlockRef(block: BlockHandle)

  /** The fixed configuration fields a node contributes to its document
      (`Type` and the node's own keys). */
  datatype Config =
    | RootConfig
    | GroupConfig(description: string)
    | RandomizerConfig(subSet: int, evenPresentation: bool)
    | EndSurveyConfig
    | BlockConfig(id: string, autofill: seq<string>)

  /** `Properties` of the root document: `Count` and the always-empty `RemovedFieldsets`. */
  datatype Properties = Properties(count: int, removedFieldsets: seq<string>)

  /** A compiled flow document: `FlowID`, the configuration fields, the
      `Flow` array of child documents when the key is present and, on the
      root document only, the optional `Properties`. */
  datatype Doc = Doc(flowId: string, config: Config, flow: FlowKey, properties: Option<Properties>)

  /** The `Flow` key of a document: absent, or present with the child documents. */
  datatype FlowKey = Absent | Present(docs: seq<Doc>)

  /** The value of the document's `Type` key. */
  function TypeTag(c: Config): string
  {
    match c
    case RootConfig => "Root"
    case GroupConfig(_) => "Group"
    case RandomizerConfig(_, _) => "BlockRandomizer"
    case EndSurveyConfig => "EndSurvey"
    case BlockConfig(_, _) => "Block"
  }

  /** Root, Group and BlockRandomizer carry a `children` list; the leaves do not. */
  predicate HasChildList(f: Flow)
  {
    f.Root? || f.Group? || f.BlockRandomizer?
  }

  /** The children of a node; the leaves have none. */
  function Children(f: Flow): seq<Flow>
  {
    if HasChildList(f) then f.children else []
  }

  // ---------------------------------------------------------------------
  // Decimal rendering of flow ids

  function Digit(d: nat): (c: char)
    requires d < 10
  {
    (48 + d) as char
  }

  /** `str(n)` for a non-negative integer. */
  function NatToString(n: nat): (s: string)
    ensures 0 < |s|
    ensures n >= 10 ==> 2 <= |s|
  {
    if n < 10 then [Digit(n)] else NatToString(n / 10) + [Digit(n % 10)]
  }

  /** `f"FL_{n}"`. */
  function FlowId(n: nat): string
  {
    "FL_" + NatToString(n)
  }

  lemma {:induction false} NatToStringInjective(a: nat, b: nat)
    requires NatToString(a) == NatToString(b)
    ensures a == b
  {
    var sa, sb := NatToString(a), NatToString(b);
    if a < 10 && b < 10 {
      assert Digit(a) == sa[0] == sb[0] == Digit(b);
      assert Digit(a) as int == 48 + a;
      assert Digit(b) as int == 48 + b;
    } else if a < 10 || b < 10 {
      assert false;
    } else {
      var pa, pb := NatToString(a / 10), NatToString(b / 10);
      assert sa == pa + [Digit(a % 10)];
      assert sb == pb + [Digit(b % 10)];
      assert |pa| == |pb|;
      assert pa == sa[..|sa| - 1] == sb[..|sb| - 1] == pb;
      assert Digit(a % 10) == sa[|sa| - 1] == sb[|sb| - 1] == Digit(b % 10);
      assert Digit(a % 10) as int == 48 + a % 10;
      assert Digit(b % 10) as int == 48 + b % 10;
      NatToStringInjective(a / 10, b / 10);
    }
  }

  /** Different numbers give different flow ids. */
  lemma {:induction false} FlowIdInjective(a: nat, b: nat)
    requires FlowId(a) == FlowId(b)
    ensures a == b
  {
    assert NatToString(a) == FlowId(a)[3..] == FlowId(b)[3..] == NatToString(b);
    NatToStringInjective(a, b);
  }

  // ---------------------------------------------------------------------
  // Size, pre-order enumeration and the block flows

  /** Number of nodes in a tree, the node itself included. */
  function Size(f: Flow): nat
    decreases f
  {
    1 + (if HasChildList(f) then SizeSeq(f.children) else 0)
  }

  function SizeSeq(cs: seq<Flow>): nat
    decreases cs
  {
    if |cs| == 0 then 0 else SizeSeq(cs[..|cs| - 1]) + Size(cs[|cs| - 1])
  }

  /** Every node of the tree, each before its descendants, children left to right. */
  function PreOrder(f: Flow): (r: seq<Flow>)
    decreases f
    ensures |r| == Size(f)
    ensures r[0] == f
  {
    [f] + (if HasChildList(f) then PreOrderSeq(f.children) else [])
  }

  function PreOrderSeq(cs: seq<Flow>): (r: seq<Flow>)
    decreases cs
    ensures |r| == SizeSeq(cs)
  {
    if |cs| == 0 then [] else PreOrderSeq(cs[..|cs| - 1]) + PreOrder(cs[|cs| - 1])
  }

  /** `get_block_flows`: every block flow of the tree, left to right. */
  function BlockFlows(f: Flow): (r: seq<Flow>)
    decreases f
    ensures forall i :: 0 <= i < |r| ==> r[i].BlockRef?
  {
    if HasChildList(f) then BlockFlowsSeq(f.children) else if f.BlockRef? then [f] else []
  }

  function BlockFlowsSeq(cs: seq<Flow>): (r: seq<Flow>)
    decreases cs
    ensures forall i :: 0 <= i < |r| ==> r[i].BlockRef?
  {
    if |cs| == 0 then [] else BlockFlowsSeq(cs[..|cs| - 1]) + BlockFlows(cs[|cs| - 1])
  }

  /** The block nodes of a sequence of nodes, in order. */
  function OnlyBlocks(s: seq<Flow>): seq<Flow>
  {
    if |s| == 0 then [] else OnlyBlocks(s[..|s| - 1]) + (if s[|s| - 1].BlockRef? then [s[|s| - 1]] else [])
  }

  // ---------------------------------------------------------------------
  // Compilation

  /** The configuration fields `compile` emits for a node. */
  function ConfigOf(f: Flow, m: BlockIdMap): Config
    requires f.BlockRef? ==> f.block in m
  {
    match f
    case Root(_) => RootConfig
    case Group(d, _) => GroupConfig(d)
    case BlockRandomizer(n, e, _) => RandomizerConfig(n, e)
    case EndSurvey => EndSurveyConfig
    case BlockRef(b) => BlockConfig(m[b], [])
  }

  /** `c` is what `compile` emits for node `f`: its own configuration and,
      for a block flow, the id of its block. */
  predicate Matches(c: Config, f: Flow, m: BlockIdMap)
  {
    (f.BlockRef? ==> f.block in m) && c == ConfigOf(f, m)
  }

  /** `compile(flow_id, block_id_map)`: the document of `f` and the largest
      flow id used in it, or the KeyError of the first block flow (in
      pre-order) whose block has no id (see `CompileOkIffResolved`). */
  function Compile(f: Flow, id: nat, m: BlockIdMap): (r: Result<(Doc, nat)>)
    decreases f
    ensures r.Ok? ==> r.value.1 == id + Size(f) - 1
  {
    if f.BlockRef? then
      if f.block in m then Ok((Doc(FlowId(id), BlockConfig(m[f.block], []), Absent, None), id))
      else Err(KeyError(f.block))
    else if f.EndSurvey? then
      // an EndSurveyFlow has an empty `children` list
      Ok((Doc(FlowId(id), EndSurveyConfig, Absent, None), id))
    else
      match CompileChildren(f.children, id, m)
      case Err(e) => Err(e)
      case Ok((docs, last)) =>
        Ok((Doc(FlowId(id), ConfigOf(f, m), if |docs| > 0 then Present(docs) else Absent, None), last))
  }

  /** The loop of `compile` over the children: each child starts one past
      the previous maximum; returns the child documents in order and the
      last maximum (`prev` itself when there are no children). */
  function CompileChildren(cs: seq<Flow>, prev: nat, m: BlockIdMap): (r: Result<(seq<Doc>, nat)>)
    decreases cs
    ensures r.Ok? ==> |r.value.0| == |cs| && r.value.1 == prev + SizeSeq(cs)
  {
    if |cs| == 0 then Ok(([], prev))
    else
      match CompileChildren(cs[..|cs| - 1], prev, m)
      case Err(e) => Err(e)
      case Ok((docs, last)) =>
        match Compile(cs[|cs| - 1], last + 1, m)
        case Err(e) => Err(e)
        case Ok((d, last')) => Ok((docs + [d], last'))
  }

  /** The document `compile` returns for a node: id FL_`id`, no
      `Properties`, the node's own configuration, and a `Flow` key exactly
      when the node has children, holding one document per child; a block
      flow whose block has no id fails with the KeyError of that block. */
  lemma {:induction false} CompileDocShape(f: Flow, id: nat, m: BlockIdMap)
    ensures var r := Compile(f, id, m);
      r.Ok? ==> r.value.0.flowId == FlowId(id) && r.value.0.properties.None? && Matches(r.value.0.config, f, m) &&
                (r.value.0.flow.Present? <==> |Children(f)| > 0) &&
                (r.value.0.flow.Present? ==> |r.value.0.flow.docs| == |Children(f)|)
    ensures Compile(f, id, m).Err? && f.BlockRef? ==> Compile(f, id, m).error == KeyError(f.block)
  {
  }

  /** `flow_data(block_id_map)` of a RootFlow with these children: the root
      document compiled from id 1, with `Properties` recording the last id. */
  function FlowData(children: seq<Flow>, m: BlockIdMap): (r: Result<Doc>)
    ensures r.Ok? ==> r.value.flowId == FlowId(1) && r.value.config == RootConfig
    ensures r.Ok? ==> r.value.properties == Some(Properties(Size(Root(children)), []))
    ensures r.Ok? ==> (r.value.flow.Present? <==> |children| > 0)
  {
    match Compile(Root(children), 1, m)
    case Err(e) => Err(e)
    case Ok((d, last)) =>
      CompileDocShape(Root(children), 1, m);
      Ok(d.(properties := Some(Properties(last, []))))
  }

  /** `compile` as the source runs it: a block flow looks its block up, and
      any other node runs the loop over its children. */
  method CompileNode(f: Flow, id: nat, m: BlockIdMap) returns (r: Result<(Doc, nat)>)
    decreases f, 1
    ensures r == Compile(f, id, m)
  {
    if f.BlockRef? {
      if f.block !in m {
        return Err(KeyError(f.block));
      }
      return Ok((Doc(FlowId(id), BlockConfig(m[f.block], []), Absent, None), id));
    }
    if f.EndSurvey? {
      return Ok((Doc(FlowId(id), EndSurveyConfig, Absent, None), id));
    }
    var children := CompileChildrenLoop(f, id, m);
    if children.Err? {
      return Err(children.error);
    }
    var (childrenData, flowId) := children.value;
    var flow := if |childrenData| > 0 then Present(childrenData) else Absent;
    return Ok((Doc(FlowId(id), ConfigOf(f, m), flow, None), flowId));
  }

  /** The loop of `_FlowElement.compile`: each child is compiled from one
      past the running maximum, which then becomes the child's maximum; the
      child documents are collected in order; the first KeyError stops it. */
  method CompileChildrenLoop(f: Flow, id: nat, m: BlockIdMap) returns (r: Result<(seq<Doc>, nat)>)
    requires HasChildList(f)
    decreases f, 0
    ensures r == CompileChildren(f.children, id, m)
  {
    var children := f.children;
    var childrenData: seq<Doc> := [];
    var flowId := id;
    var i := 0;
    while i < |children|
      invariant 0 <= i <= |children|
      invariant CompileChildren(children[..i], id, m) == Ok((childrenData, flowId))
    {
      var child := CompileNode(children[i], flowId + 1, m);
      CompileChildrenStep(children, i, id, m, childrenData, flowId, child);
      if child.Err? {
        return Err(child.error);
      }
      childrenData := childrenData + [child.value.0];
      flowId := child.value.1;
      i := i + 1;
    }
    assert children[..i] == children;
    return Ok((childrenData, flowId));
  }

  /** One more turn of the loop of `compile`: the child at position `i`
      starts one past the maximum of the children before it, and its
      KeyError, if any, is the error of the whole loop. */
  lemma {:induction false} CompileChildrenStep(cs: seq<Flow>, i: nat, prev: nat, m: BlockIdMap,
                            docs: seq<Doc>, last: nat, child: Result<(Doc, nat)>)
    requires i < |cs| && CompileChildren(cs[..i], prev, m) == Ok((docs, last))
    requires child == Compile(cs[i], last + 1, m)
    ensures child.Err? ==> CompileChildren(cs, prev, m) == Err(child.error)
    ensures child.Ok? ==> CompileChildren(cs[..i + 1], prev, m) == Ok((docs + [child.value.0], child.value.1))
  {
    assert cs[..i + 1] == cs[..i] + [cs[i]];
    CompileChildrenSnoc(cs[..i], cs[i], prev, m);
    if child.Err? {
      CompileChildrenErrSticks(cs, i + 1, prev, m);
    }
  }

  /** The loop over one more child: the children before it, then the new
      child from one past their maximum. */
  lemma {:induction false} CompileChildrenSnoc(pre: seq<Flow>, c: Flow, prev: nat, m: BlockIdMap)
    ensures var rp := CompileChildren(pre, prev, m);
      CompileChildren(pre + [c], prev, m) ==
        if rp.Err? then Err(rp.error)
        else match Compile(c, rp.value.1 + 1, m)
             case Err(e) => Err(e)
             case Ok((d, last)) => Ok((rp.value.0 + [d], last))
  {
    var cs := pre + [c];
    assert cs[..|cs| - 1] == pre && cs[|cs| - 1] == c;
  }

  /** Once a prefix of the children fails, the whole loop fails with the same error. */
  lemma {:induction false} CompileChildrenErrSticks(cs: seq<Flow>, k: nat, prev: nat, m: BlockIdMap)
    requires k <= |cs| && CompileChildren(cs[..k], prev, m).Err?
    ensures CompileChildren(cs, prev, m) == CompileChildren(cs[..k], prev, m)
    decreases |cs|
  {
    if k == |cs| {
      assert cs[..k] == cs;
    } else {
      assert cs[..|cs| - 1][..k] == cs[..k];
      CompileChildrenErrSticks(cs[..|cs| - 1], k, prev, m);
    }
  }

  /** Every prefix of the children is compiled to the matching prefix of
      the documents, ending at `prev` plus the prefix's node count. */
  lemma {:induction false} CompileChildrenPrefix(cs: seq<Flow>, prev: nat, m: BlockIdMap, k: nat)
    requires CompileChildren(cs, prev, m).Ok? && k <= |cs|
    ensures CompileChildren(cs[..k], prev, m).Ok?
    ensures CompileChildren(cs[..k], prev, m).value.0 == CompileChildren(cs, prev, m).value.0[..k]
    decreases |cs|
  {
    if k < |cs| {
      var pre, c, docs, last, d, all := CompileChildrenLast(cs, prev, m);
      CompileChildrenPrefix(pre, prev, m, k);
      assert pre[..k] == cs[..k] && docs[..k] == all[..k];
    } else {
      assert cs[..k] == cs;
    }
  }

  /** Child `i` of a compiled node is compiled from one past the ids used
      by its elder siblings' subtrees, and its document sits at position `i`
      of the `Flow` array. */
  lemma {:induction false} CompileChildrenInOrder(cs: seq<Flow>, prev: nat, m: BlockIdMap, i: nat)
    requires CompileChildren(cs, prev, m).Ok? && i < |cs|
    ensures Compile(cs[i], prev + 1 + SizeSeq(cs[..i]), m).Ok?
    ensures Compile(cs[i], prev + 1 + SizeSeq(cs[..i]), m).value.0 == CompileChildren(cs, prev, m).value.0[i]
  {
    CompileChildrenPrefix(cs, prev, m, i + 1);
    var head := cs[..i + 1];
    assert head == cs[..i] + [cs[i]];
    CompileChildrenLastDoc(cs[..i], cs[i], prev, m);
    var headDocs := CompileChildren(head, prev, m).value.0;
    assert headDocs == CompileChildren(cs[..i] + [cs[i]], prev, m).value.0;
    assert headDocs[i] == CompileChildren(cs, prev, m).value.0[i];
  }

  /** The last child of a compiled list is compiled from one past the ids
      used by the children before it, into the last document. */
  lemma {:induction false} CompileChildrenLastDoc(pre: seq<Flow>, c: Flow, prev: nat, m: BlockIdMap)
    requires CompileChildren(pre + [c], prev, m).Ok?
    ensures Compile(c, prev + 1 + SizeSeq(pre), m).Ok?
    ensures Compile(c, prev + 1 + SizeSeq(pre), m).value.0 == CompileChildren(pre + [c], prev, m).value.0[|pre|]
  {
    var cs := pre + [c];
    assert cs[..|cs| - 1] == pre && cs[|cs| - 1] == c;
    var rp := CompileChildren(pre, prev, m);
    assert rp.Ok? && |rp.value.0| == |pre| && rp.value.1 == prev + SizeSeq(pre);
  }

  /** The `Flow` array of a compiled node holds its children's documents, in child order. */
  lemma {:induction false} CompileChildDocs(f: Flow, id: nat, m: BlockIdMap, i: nat)
    requires Compile(f, id, m).Ok? && Compile(f, id, m).value.0.flow.Present?
    requires i < |Children(f)|
    ensures Compile(Children(f)[i], id + 1 + SizeSeq(Children(f)[..i]), m).Ok?
    ensures Compile(f, id, m).value.0.flow.docs[i]
         == Compile(Children(f)[i], id + 1 + SizeSeq(Children(f)[..i]), m).value.0
  {
    CompileDocShape(f, id, m);
    var cs := Children(f);
    assert HasChildList(f) && cs == f.children;
    var docs := CompileListNode(f, id, m);
    CompileChildrenInOrder(cs, id, m, i);
  }

  // ---------------------------------------------------------------------
  // What compilation guarantees

  /** The document's nodes in pre-order, as (FlowID, configuration) pairs. */
  function Stamps(d: Doc): seq<(string, Config)>
    decreases d
  {
    [(d.flowId, d.config)] + (if d.flow.Present? then StampsSeq(d.flow.docs) else [])
  }

  function StampsSeq(ds: seq<Doc>): seq<(string, Config)>
    decreases ds
  {
    if |ds| == 0 then [] else StampsSeq(ds[..|ds| - 1]) + Stamps(ds[|ds| - 1])
  }

  /** `stamps` number `nodes` consecutively from `start`: position `k`
      carries the id FL_`start + k` and the configuration compile emits for
      node `k`. */
  predicate NumberedFrom(stamps: seq<(string, Config)>, nodes: seq<Flow>, start: nat, m: BlockIdMap)
  {
    |stamps| == |nodes| &&
    forall k :: 0 <= k < |stamps| ==> stamps[k].0 == FlowId(start + k) && Matches(stamps[k].1, nodes[k], m)
  }

  /** Numbering two runs of nodes one after the other numbers their
      concatenation. */
  lemma {:induction false} NumberedConcat(s1: seq<(string, Config)>, n1: seq<Flow>, s2: seq<(string, Config)>, n2: seq<Flow>,
                                          start: nat, start2: nat, m: BlockIdMap)
    requires start2 == start + |n1|
    requires NumberedFrom(s1, n1, start, m) && NumberedFrom(s2, n2, start2, m)
    ensures NumberedFrom(s1 + s2, n1 + n2, start, m)
  {
    var s, n := s1 + s2, n1 + n2;
    forall k | 0 <= k < |s|
      ensures s[k].0 == FlowId(start + k) && Matches(s[k].1, n[k], m)
    {
      if k < |s1| {
        assert s[k] == s1[k] && n[k] == n1[k];
      } else {
        assert s[k] == s2[k - |s1|] && n[k] == n2[k - |s1|];
        assert start + k == start2 + (k - |s1|);
      }
    }
  }

  lemma {:induction false} OnlyBlocksConcat(a: seq<Flow>, b: seq<Flow>)
    ensures OnlyBlocks(a + b) == OnlyBlocks(a) + OnlyBlocks(b)
    decreases |b|
  {
    if |b| > 0 {
      assert (a + b)[..|a + b| - 1] == a + b[..|b| - 1];
      OnlyBlocksConcat(a, b[..|b| - 1]);
    } else {
      assert a + b == a;
    }
  }

  /** `get_block_flows` lists exactly the block nodes of the pre-order
      enumeration, in the same order, repeated blocks included. */
  lemma {:induction false} BlockFlowsArePreOrderBlocks(f: Flow)
    ensures BlockFlows(f) == OnlyBlocks(PreOrder(f))
    decreases f
  {
    if HasChildList(f) {
      BlockFlowsSeqArePreOrderBlocks(f.children);
      OnlyBlocksConcat([f], PreOrderSeq(f.children));
      assert OnlyBlocks([f]) == [];
    } else {
      assert PreOrder(f) == [f];
      assert OnlyBlocks([f]) == OnlyBlocks([]) + (if f.BlockRef? then [f] else []);
    }
  }

  lemma {:induction false} BlockFlowsSeqArePreOrderBlocks(cs: seq<Flow>)
    ensures BlockFlowsSeq(cs) == OnlyBlocks(PreOrderSeq(cs))
    decreases cs
  {
    if |cs| > 0 {
      BlockFlowsSeqArePreOrderBlocks(cs[..|cs| - 1]);
      BlockFlowsArePreOrderBlocks(cs[|cs| - 1]);
      OnlyBlocksConcat(PreOrderSeq(cs[..|cs| - 1]), PreOrder(cs[|cs| - 1]));
    }
  }

  /** A block flow whose block has no entry in the block-id map. */
  predicate Missing(f: Flow, m: BlockIdMap)
  {
    f.BlockRef? && f.block !in m
  }

  /** The position of the first block flow of `bs` whose block has no id,
      or -1 when every block has one. */
  function FirstMissing(bs: seq<Flow>, m: BlockIdMap): (r: int)
    decreases |bs|
    ensures -1 <= r < |bs|
    ensures r >= 0 ==> Missing(bs[r], m) && forall j :: 0 <= j < r ==> !Missing(bs[j], m)
    ensures r == -1 ==> forall j :: 0 <= j < |bs| ==> !Missing(bs[j], m)
  {
    if |bs| == 0 then -1
    else if Missing(bs[0], m) then 0
    else
      var r := FirstMissing(bs[1..], m);
      assert forall j :: 1 <= j < |bs| ==> bs[j] == bs[1..][j - 1];
      if r == -1 then -1 else r + 1
  }

  /** Any position with the two defining properties is the first missing one. */
  lemma {:induction false} FirstMissingIs(bs: seq<Flow>, m: BlockIdMap, e: int)
    requires -1 <= e < |bs|
    requires e >= 0 ==> Missing(bs[e], m) && forall j :: 0 <= j < e ==> !Missing(bs[j], m)
    requires e == -1 ==> forall j :: 0 <= j < |bs| ==> !Missing(bs[j], m)
    ensures FirstMissing(bs, m) == e
  {
  }

  /** The first missing block of a concatenation is the first missing one
      of the left part, or else of the right part. */
  lemma {:induction false} FirstMissingConcat(a: seq<Flow>, b: seq<Flow>, m: BlockIdMap)
    ensures FirstMissing(a + b, m) ==
      if FirstMissing(a, m) >= 0 then FirstMissing(a, m)
      else if FirstMissing(b, m) >= 0 then |a| + FirstMissing(b, m)
      else -1
  {
    var ab, ia, ib := a + b, FirstMissing(a, m), FirstMissing(b, m);
    assert forall j :: 0 <= j < |a| ==> ab[j] == a[j];
    assert forall j :: 0 <= j < |b| ==> ab[|a| + j] == b[j];
    if ia >= 0 {
      FirstMissingIs(ab, m, ia);
    } else if ib >= 0 {
      forall j | 0 <= j < |a| + ib
        ensures !Missing(ab[j], m)
      {
        if j >= |a| {
          assert ab[j] == b[j - |a|];
        }
      }
      FirstMissingIs(ab, m, |a| + ib);
    } else {
      forall j | 0 <= j < |ab|
        ensures !Missing(ab[j], m)
      {
        if j >= |a| {
          assert ab[j] == b[j - |a|];
        }
      }
      FirstMissingIs(ab, m, -1);
    }
  }

  /** The compiled document's `Type` key names the node's kind, as each
      constructor passes it (`Root`, `BlockRandomizer`, `Group`,
      `EndSurvey`) and as the block flow writes it (`Block`). */
  lemma {:induction false} CompiledType(f: Flow, id: nat, m: BlockIdMap)
    ensures var r := Compile(f, id, m);
      r.Ok? ==> TypeTag(r.value.0.config) ==
                (match f
                 case Root(_) => "Root"
                 case Group(_, _) => "Group"
                 case BlockRandomizer(_, _, _) => "BlockRandomizer"
                 case EndSurvey => "EndSurvey"
                 case BlockRef(_) => "Block")
  {
    CompileDocShape(f, id, m);
  }

  /** `compile` succeeds exactly when every block flow of the tree has its
      block in the map; otherwise it fails with the KeyError of the first
      block flow, in `get_block_flows` order, whose block has no id. */
  lemma {:induction false} CompileOkIffResolved(f: Flow, id: nat, m: BlockIdMap)
    ensures Compile(f, id, m).Ok? <==> forall b :: b in BlockFlows(f) ==> b.block in m
    ensures Compile(f, id, m).Err? ==>
      FirstMissing(BlockFlows(f), m) >= 0 &&
      Compile(f, id, m).error == KeyError(BlockFlows(f)[FirstMissing(BlockFlows(f), m)].block)
    decreases f
  {
    if HasChildList(f) {
      CompileChildrenOkIffResolved(f.children, id, m);
    } else if f.BlockRef? {
      assert BlockFlows(f) == [f];
      assert Compile(f, id, m).Err? ==> FirstMissing([f], m) == 0;
    }
  }

  lemma {:induction false} CompileChildrenOkIffResolved(cs: seq<Flow>, prev: nat, m: BlockIdMap)
    ensures CompileChildren(cs, prev, m).Ok? <==> forall b :: b in BlockFlowsSeq(cs) ==> b.block in m
    ensures CompileChildren(cs, prev, m).Err? ==>
      FirstMissing(BlockFlowsSeq(cs), m) >= 0 &&
      CompileChildren(cs, prev, m).error == KeyError(BlockFlowsSeq(cs)[FirstMissing(BlockFlowsSeq(cs), m)].block)
    decreases cs
  {
    if |cs| > 0 {
      var pre, c := cs[..|cs| - 1], cs[|cs| - 1];
      assert BlockFlowsSeq(cs) == BlockFlowsSeq(pre) + BlockFlows(c);
      CompileChildrenOkIffResolved(pre, prev, m);
      var rp := CompileChildren(pre, prev, m);
      if rp.Ok? {
        var rc := Compile(c, rp.value.1 + 1, m);
        CompileOkIffResolved(c, rp.value.1 + 1, m);
        assert CompileChildren(cs, prev, m).Ok? == rc.Ok?;
        if rc.Err? {
          assert CompileChildren(cs, prev, m).error == rc.error;
          var bp := BlockFlowsSeq(pre);
          assert forall j :: 0 <= j < |bp| ==> bp[j] in bp;
          ChildErrorIsFirstMissing(bp, BlockFlows(c), m);
        }
      } else {
        assert CompileChildren(cs, prev, m) == rp;
        FirstMissingConcat(BlockFlowsSeq(pre), BlockFlows(c), m);
        assert FirstMissing(BlockFlowsSeq(cs), m) == FirstMissing(BlockFlowsSeq(pre), m);
      }
    }
  }

  /** When every block before is resolved, the first missing block of the
      whole list is the first missing block of the last child. */
  lemma {:induction false} ChildErrorIsFirstMissing(a: seq<Flow>, b: seq<Flow>, m: BlockIdMap)
    requires forall j :: 0 <= j < |a| ==> !Missing(a[j], m)
    requires FirstMissing(b, m) >= 0
    ensures FirstMissing(a + b, m) >= 0 && (a + b)[FirstMissing(a + b, m)] == b[FirstMissing(b, m)]
  {
    FirstMissingConcat(a, b, m);
  }

  /** The heart of the compiler: the document's nodes, read in pre-order,
      are the tree's nodes in pre-order, numbered FL_id, FL_id+1, ... with
      no gap, each carrying its own configuration. */
  lemma {:induction false} CompileNumbersPreOrder(f: Flow, id: nat, m: BlockIdMap)
    requires Compile(f, id, m).Ok?
    ensures NumberedFrom(Stamps(Compile(f, id, m).value.0), PreOrder(f), id, m)
    decreases f, 1
  {
    if HasChildList(f) {
      ListNodeNumbersPreOrder(f, id, m);
    } else {
      LeafStamps(f, id, m);
      NumberedSingle(f, id, m);
      assert PreOrder(f) == [f];
    }
  }

  /** The inductive step for a node with a child list: its own stamp comes
      first, then its children's stamps numbered from one past its id. */
  lemma {:induction false} ListNodeNumbersPreOrder(f: Flow, id: nat, m: BlockIdMap)
    requires HasChildList(f) && Compile(f, id, m).Ok?
    ensures NumberedFrom(Stamps(Compile(f, id, m).value.0), PreOrder(f), id, m)
    decreases f, 0
  {
    var docs := CompileListNode(f, id, m);
    CompileChildrenNumbersPreOrder(f.children, id, m);
    NumberedSingle(f, id, m);
    NumberedConcat([(FlowId(id), ConfigOf(f, m))], [f], StampsSeq(docs), PreOrderSeq(f.children), id, id + 1, m);
    assert PreOrder(f) == [f] + PreOrderSeq(f.children);
  }

  /** A compiled node with a child list: its own stamp, then the stamps of
      the documents the loop over its children produced. */
  lemma {:induction false} CompileListNode(f: Flow, id: nat, m: BlockIdMap) returns (docs: seq<Doc>)
    requires HasChildList(f) && Compile(f, id, m).Ok?
    ensures CompileChildren(f.children, id, m).Ok? && CompileChildren(f.children, id, m).value.0 == docs
    ensures Compile(f, id, m).value.0.flow == if |docs| > 0 then Present(docs) else Absent
    ensures Stamps(Compile(f, id, m).value.0) == [(FlowId(id), ConfigOf(f, m))] + StampsSeq(docs)
  {
    docs := CompileChildren(f.children, id, m).value.0;
  }

  /** One node alone, numbered `id`, with the configuration `compile` emits
      for it (and, for a leaf, that is its whole document's stamps). */
  lemma {:induction false} NumberedSingle(f: Flow, id: nat, m: BlockIdMap)
    requires f.BlockRef? ==> f.block in m
    ensures NumberedFrom([(FlowId(id), ConfigOf(f, m))], [f], id, m)
  {
    assert [(FlowId(id), ConfigOf(f, m))][0].0 == FlowId(id + 0);
  }

  /** A compiled leaf has its own stamp only. */
  lemma {:induction false} LeafStamps(f: Flow, id: nat, m: BlockIdMap)
    requires !HasChildList(f) && Compile(f, id, m).Ok?
    ensures f.BlockRef? ==> f.block in m
    ensures Stamps(Compile(f, id, m).value.0) == [(FlowId(id), ConfigOf(f, m))]
  {
  }

  lemma {:induction false} CompileChildrenNumbersPreOrder(cs: seq<Flow>, prev: nat, m: BlockIdMap)
    requires CompileChildren(cs, prev, m).Ok?
    ensures NumberedFrom(StampsSeq(CompileChildren(cs, prev, m).value.0), PreOrderSeq(cs), prev + 1, m)
    decreases cs
  {
    if |cs| > 0 {
      var pre, c, docs, last, d, all := CompileChildrenLast(cs, prev, m);
      assert NumberedFrom(StampsSeq(docs), PreOrderSeq(pre), prev + 1, m) by {
        CompileChildrenNumbersPreOrder(pre, prev, m);
      }
      assert NumberedFrom(Stamps(d), PreOrder(c), last + 1, m) by {
        CompileNumbersPreOrder(c, last + 1, m);
      }
      ChildrenNumbersStep(pre, c, cs, docs, d, all, prev, last, m);
    }
  }

  /** Numbering the children before the last one and then the last one
      from one past their count numbers all of them. */
  lemma {:induction false} ChildrenNumbersStep(pre: seq<Flow>, c: Flow, cs: seq<Flow>, docs: seq<Doc>, d: Doc, all: seq<Doc>,
                            prev: nat, last: nat, m: BlockIdMap)
    requires cs == pre + [c] && all == docs + [d] && last == prev + SizeSeq(pre)
    requires NumberedFrom(StampsSeq(docs), PreOrderSeq(pre), prev + 1, m)
    requires NumberedFrom(Stamps(d), PreOrder(c), last + 1, m)
    ensures NumberedFrom(StampsSeq(all), PreOrderSeq(cs), prev + 1, m)
  {
    assert last + 1 == prev + 1 + |PreOrderSeq(pre)|;
    NumberedConcat(StampsSeq(docs), PreOrderSeq(pre), Stamps(d), PreOrder(c), prev + 1, last + 1, m);
    SnocOrders(pre, c, cs, docs, d, all);
  }

  /** Appending one child document and one child node extends both
      pre-order enumerations by that child's own enumeration. */
  lemma {:induction false} SnocOrders(pre: seq<Flow>, c: Flow, cs: seq<Flow>, docs: seq<Doc>, d: Doc, all: seq<Doc>)
    requires cs == pre + [c] && all == docs + [d]
    ensures StampsSeq(all) == StampsSeq(docs) + Stamps(d)
    ensures PreOrderSeq(cs) == PreOrderSeq(pre) + PreOrder(c)
  {
    assert all[..|docs|] == docs;
    assert cs[..|pre|] == pre;
  }

  /** A successful loop over the children compiled every child before the
      last one and then the last one, from one past their maximum. */
  lemma {:induction false} CompileChildrenLast(cs: seq<Flow>, prev: nat, m: BlockIdMap)
    returns (pre: seq<Flow>, c: Flow, docs: seq<Doc>, last: nat, d: Doc, all: seq<Doc>)
    requires |cs| > 0 && CompileChildren(cs, prev, m).Ok?
    ensures pre == cs[..|cs| - 1] && c == cs[|cs| - 1] && cs == pre + [c]
    ensures CompileChildren(pre, prev, m) == Ok((docs, last))
    ensures Compile(c, last + 1, m).Ok? && Compile(c, last + 1, m).value.0 == d
    ensures all == CompileChildren(cs, prev, m).value.0 && all == docs + [d]
  {
    pre, c := cs[..|cs| - 1], cs[|cs| - 1];
    var rp := CompileChildren(pre, prev, m);
    docs, last := rp.value.0, rp.value.1;
    d := Compile(c, last + 1, m).value.0;
    all := docs + [d];
  }

  /** In a numbered sequence no two positions carry the same id, and two
      positions holding the same block flow carry the same configuration. */
  lemma {:induction false} NumberedIdsUnique(stamps: seq<(string, Config)>, nodes: seq<Flow>, start: nat, m: BlockIdMap,
                                             k: nat, j: nat)
    requires NumberedFrom(stamps, nodes, start, m) && k < |stamps| && j < |stamps|
    ensures k != j ==> stamps[k].0 != stamps[j].0
    ensures nodes[k] == nodes[j] ==> stamps[k].1 == stamps[j].1
  {
    if k != j && stamps[k].0 == stamps[j].0 {
      FlowIdInjective(start + k, start + j);
    }
  }

  /** Every flow id in a compiled document is different, and two block
      flows of the same block carry the same block id. */
  lemma {:induction false} CompiledIdsUnique(f: Flow, id: nat, m: BlockIdMap, k: nat, j: nat)
    requires Compile(f, id, m).Ok?
    requires k < Size(f) && j < Size(f)
    ensures |Stamps(Compile(f, id, m).value.0)| == Size(f)
    ensures k != j ==> Stamps(Compile(f, id, m).value.0)[k].0 != Stamps(Compile(f, id, m).value.0)[j].0
    ensures PreOrder(f)[k].BlockRef? && PreOrder(f)[k] == PreOrder(f)[j] ==>
      Stamps(Compile(f, id, m).value.0)[k].1 == Stamps(Compile(f, id, m).value.0)[j].1
  {
    CompileNumbersPreOrder(f, id, m);
    NumberedIdsUnique(Stamps(Compile(f, id, m).value.0), PreOrder(f), id, m, k, j);
  }

  /** `flow_data` fails exactly when some block has no id; otherwise
      `Properties.Count` is the number of nodes, Root included, and the
      flow ids of the document are FL_1 .. FL_Count in pre-order. */
  lemma {:induction false} FlowDataCountsEveryNode(children: seq<Flow>, m: BlockIdMap)
    ensures FlowData(children, m).Ok? <==> forall b :: b in BlockFlows(Root(children)) ==> b.block in m
    ensures FlowData(children, m).Ok? ==>
      var d := FlowData(children, m).value;
      d.properties.Some? && d.properties.value.count == |Stamps(d)| &&
      forall k :: 0 <= k < |Stamps(d)| ==> Stamps(d)[k].0 == FlowId(k + 1)
  {
    CompileOkIffResolved(Root(children), 1, m);
    if Compile(Root(children), 1, m).Ok? {
      CompileNumbersPreOrder(Root(children), 1, m);
      var d := Compile(Root(children), 1, m).value.0;
      assert Stamps(FlowData(children, m).value) == Stamps(d);
      forall k | 0 <= k < |Stamps(d)|
        ensures Stamps(d)[k].0 == FlowId(k + 1)
      {
        assert Stamps(d)[k].0 == FlowId(1 + k);
      }
    }
  }

  // ---------------------------------------------------------------------
  // Growing a tree

  /** `append_flow` on a node value: Root, Group and BlockRandomizer gain
      `c` as their last child; an EndSurvey node refuses, and a block flow
      has no `children` list to append to. */
  function WithChild(f: Flow, c: Flow): (r: Result<Flow>)
    ensures r.Ok? <==> HasChildList(f)
    ensures r.Ok? ==> HasChildList(r.value) && Children(r.value) == Children(f) + [c]
    ensures r.Ok? ==> ConfigOf(r.value, map[]) == ConfigOf(f, map[])
    ensures f.EndSurvey? ==> r == Err(NoChildren)
    ensures f.BlockRef? ==> r == Err(NoChildrenList)
  {
    match f
    case Root(cs) => Ok(Root(cs + [c]))
    case Group(d, cs) => Ok(Group(d, cs + [c]))
    case BlockRandomizer(n, e, cs) => Ok(BlockRandomizer(n, e, cs + [c]))
    case EndSurvey => Err(NoChildren)
    case BlockRef(_) => Err(NoChildrenList)
  }

  lemma {:induction false} SizeSeqSnoc(cs: seq<Flow>, c: Flow)
    ensures SizeSeq(cs + [c]) == SizeSeq(cs) + Size(c)
    ensures BlockFlowsSeq(cs + [c]) == BlockFlowsSeq(cs) + BlockFlows(c)
  {
    assert (cs + [c])[..|cs|] == cs;
  }

  /** Appending a child adds its subtree to the node count and its block
      flows to the end of `get_block_flows`; what was there before is kept. */
  lemma {:induction false} WithChildExtends(f: Flow, c: Flow)
    requires HasChildList(f)
    ensures Size(WithChild(f, c).value) == Size(f) + Size(c)
    ensures BlockFlows(WithChild(f, c).value) == BlockFlows(f) + BlockFlows(c)
  {
    SizeSeqSnoc(f.children, c);
  }

  /** The node kinds of qualtrics/flows.py, with the arguments their
      constructors fix. */
  datatype Kind =
    | RootKind
    | GroupKind(description: string)
    | RandomizerKind(nSamples: int, evenPresentation: bool)
    | EndSurveyKind
    | BlockKind(block: BlockHandle)

  /** A flow element object: its kind is fixed at construction and its
      `children` list grows in place. The children are held as values, so
      a child appended to one element and then grown further is not seen
      through this element. */
  class FlowElement {
    const kind: Kind
    var children: seq<Flow>

    /** The tree this element currently stands for. */
    function Value(): (f: Flow)
      reads this
      ensures HasChildList(f) ==> f.children == children
    {
      match kind
      case RootKind => Root(children)
      case GroupKind(d) => Group(d, children)
      case RandomizerKind(n, e) => BlockRandomizer(n, e, children)
      case EndSurveyKind => EndSurvey
      case BlockKind(b) => BlockRef(b)
    }

    constructor RootFlow(children: seq<Flow> := [])
      ensures Value() == Root(children)
    {
      kind, this.children := RootKind, children;
    }

    constructor GroupFlow(description: string := "Untitled Group", children: seq<Flow> := [])
      ensures Value() == Group(description, children)
    {
      kind, this.children := GroupKind(description), children;
    }

    constructor BlockRandomizerFlow(nSamples: int, evenPresentation: bool, children: seq<Flow> := [])
      ensures Value() == BlockRandomizer(nSamples, evenPresentation, children)
    {
      kind, this.children := RandomizerKind(nSamples, evenPresentation), children;
    }

    constructor EndSurveyFlow()
      ensures Value() == EndSurvey && children == []
    {
      kind, children := EndSurveyKind, [];
    }

    constructor BlockFlow(block: BlockHandle)
      ensures Value() == BlockRef(block) && children == []
    {
      kind, children := BlockKind(block), [];
    }

    /** `append_flow`: returns the appended flow, or the error of a node
      that takes no children, in which case nothing changes. */
    method AppendFlow(flow: Flow) returns (r: Result<Flow>)
      modifies this
      ensures WithChild(old(Value()), flow).Ok? ==> r == Ok(flow) && Value() == WithChild(old(Value()), flow).value
      ensures WithChild(old(Value()), flow).Err? ==>
        r == Err(WithChild(old(Value()), flow).error) && children == old(children)
    {
      match kind
      case EndSurveyKind =>
        return Err(NoChildren);
      case BlockKind(_) =>
        return Err(NoChildrenList);
      case _ =>
        children := children + [flow];
        return Ok(flow);
    }

    /** `append_block`: appends a block flow for `block` and returns the block. */
    method AppendBlock(block: BlockHandle) returns (r: Result<BlockHandle>)
      modifies this
      ensures WithChild(old(Value()), BlockRef(block)).Ok? ==>
        r == Ok(block) && Value() == WithChild(old(Value()), BlockRef(block)).value
      ensures WithChild(old(Value()), BlockRef(block)).Err? ==>
        r == Err(WithChild(old(Value()), BlockRef(block)).error) && children == old(children)
    {
      var appended := AppendFlow(BlockRef(block));
      if appended.Err? {
        return Err(appended.error);
      }
      return Ok(block);
    }

    /** `compile(flow_id, block_id_map)` on this element. */
    method CompileElement(flowId: nat, blockIdMap: BlockIdMap) returns (r: Result<(Doc, nat)>)
      ensures r == Compile(Value(), flowId, blockIdMap)
    {
      r := CompileNode(Value(), flowId, blockIdMap);
    }

    /** `flow_data(block_id_map)` of a RootFlow. */
    method RootFlowData(blockIdMap: BlockIdMap) returns (r: Result<Doc>)
      requires kind.RootKind?
      ensures r == FlowData(children, blockIdMap)
    {
      var compiled := CompileNode(Value(), 1, blockIdMap);
      if compiled.Err? {
        return Err(compiled.error);
      }
      var (data, maxId) := compiled.value;
      return Ok(data.(properties := Some(Properties(maxId, []))));
    }
  }
}
