/** The virtual surveys of qualtrics/surveys.py: the options store shared by
    every survey, the three kinds of survey with their append methods, and
    the step of `FlowSurvey.create` that collects the distinct blocks of the
    flow tree, gives each the id the server assigns, and compiles the flow
    with those ids. */
module Surveys {
  import opened Base
  import opened Flows
  import opened Questions
  import Blocks

  // ---------------------------------------------------------------------
  // Survey options

  /** The values the option setters store: a string, or the
      `{'customCSS': css}` dictionary of `set_custom_css`. */
  datatype OptionValue = Text(text: string) | Styles(customCss: string)

  type Options = map<string, OptionValue>

  const HeaderKey: string := "Header"
  const FooterKey: string := "Footer"
  const CustomStylesKey: string := "CustomStyles"
  const ExternalCssKey: string := "ExternalCSS"
  const BackButtonKey: string := "BackButton"
  const ProgressBarDisplayKey: string := "ProgressBarDisplay"

  /** Python's dictionary union `a | b`: every key of either side, and the
      right-hand side's value where both have the key. */
  function Merge(a: Options, b: Options): (r: Options)
    ensures r.Keys == a.Keys + b.Keys
    ensures forall k :: k in b ==> r[k] == b[k]
    ensures forall k :: k in a && k !in b ==> r[k] == a[k]
  {
    a + b
  }

  /** Storing one key changes that key alone: it is present afterwards
      with the new value and every other key keeps its old value. */
  lemma SetKeyLeavesOthers(options: Options, key: string, value: OptionValue)
    ensures options[key := value].Keys == options.Keys + {key}
    ensures options[key := value][key] == value
    ensures forall k :: k in options && k != key ==> options[key := value][k] == options[k]
  {
  }

  /** The state every kind of survey shares: a name and an options
      dictionary. */
  class Survey {
    var name: string
    var options: Options

    /** `_Survey(name="Test Survey", options={}, **kw_options)`: the
        keyword options win over the dictionary on shared keys. */
    constructor(name: string := "Test Survey", options: Options := map[], kwOptions: Options := map[])
      ensures this.name == name && this.options == Merge(options, kwOptions)
    {
      this.name := name;
      this.options := options + kwOptions;
    }

    /** `set_name`. */
    method SetName(name: string)
      modifies this
      ensures this.name == name && options == old(options)
    {
      this.name := name;
    }

    /** `set_options(options={}, **kw_options)`: the union is merged into
        the store in place; keys that neither argument mentions keep their
        values, and the keyword options win over the dictionary. */
    method SetOptions(options: Options := map[], kwOptions: Options := map[])
      modifies this
      ensures this.options == Merge(old(this.options), Merge(options, kwOptions))
      ensures this.options.Keys == old(this.options).Keys + options.Keys + kwOptions.Keys
      ensures forall k :: k in kwOptions ==> this.options[k] == kwOptions[k]
      ensures forall k :: k in options && k !in kwOptions ==> this.options[k] == options[k]
      ensures forall k :: k in old(this.options) && k !in options && k !in kwOptions ==>
                this.options[k] == old(this.options)[k]
      ensures name == old(name)
    {
      this.options := this.options + (options + kwOptions);
    }

    /** `set_header_html`: overwrites the `Header` key alone. */
    method SetHeaderHtml(headerHtml: string := "")
      modifies this
      ensures options == old(options)[HeaderKey := Text(headerHtml)] && name == old(name)
    {
      options := options[HeaderKey := Text(headerHtml)];
    }

    /** `set_footer_html`: overwrites the `Footer` key alone. */
    method SetFooterHtml(footerHtml: string := "")
      modifies this
      ensures options == old(options)[FooterKey := Text(footerHtml)] && name == old(name)
    {
      options := options[FooterKey := Text(footerHtml)];
    }

    /** `set_custom_css`: stores `{'customCSS': css}` under `CustomStyles`. */
    method SetCustomCss(customCss: string := "")
      modifies this
      ensures options == old(options)[CustomStylesKey := Styles(customCss)] && name == old(name)
    {
      options := options[CustomStylesKey := Styles(customCss)];
    }

    /** `set_external_css_url`: overwrites the `ExternalCSS` key alone. */
    method SetExternalCssUrl(externalCssUrl: string := "")
      modifies this
      ensures options == old(options)[ExternalCssKey := Text(externalCssUrl)] && name == old(name)
    {
      options := options[ExternalCssKey := Text(externalCssUrl)];
    }

    /** `set_show_back_button`: stores the JSON text `"true"` or `"false"`
        under `BackButton`. */
    method SetShowBackButton(showBackButton: bool := false)
      modifies this
      ensures options == old(options)[BackButtonKey := Text(JsonBool(showBackButton))] && name == old(name)
      ensures options[BackButtonKey] == Text(if showBackButton then "true" else "false")
    {
      options := options[BackButtonKey := Text(JsonBool(showBackButton))];
    }

    /** `set_progress_bar_display`: overwrites the `ProgressBarDisplay` key
        alone. */
    method SetProgressBarDisplay(progressBarDisplay: string := "VerboseText")
      modifies this
      ensures options == old(options)[ProgressBarDisplayKey := Text(progressBarDisplay)] && name == old(name)
    {
      options := options[ProgressBarDisplayKey := Text(progressBarDisplay)];
    }
  }

  /** The deprecated `SurveyOptions` wrapper: exactly the two keys
      `BackButton` (a JSON boolean given as text) and `ProgressBarDisplay`. */
  function SurveyOptionsData(backButton: string := "false", progressBarDisplay: string := "VerboseText"): (d: Options)
    ensures d.Keys == {BackButtonKey, ProgressBarDisplayKey}
    ensures d[BackButtonKey] == Text(backButton) && d[ProgressBarDisplayKey] == Text(progressBarDisplay)
  {
    map[BackButtonKey := Text(backButton), ProgressBarDisplayKey := Text(progressBarDisplay)]
  }

  /** The wrapper's defaults store what the setters store when called with
      their own defaults on an empty survey. */
  lemma SurveyOptionsDefaultsMatchSetters()
    ensures SurveyOptionsData() == map[][BackButtonKey := Text(JsonBool(false))][ProgressBarDisplayKey := Text("VerboseText")]
  {
  }

  // ---------------------------------------------------------------------
  // The three kinds of survey

  /** `BasicSurvey`: a flat list of questions and page breaks. */
  class BasicSurvey {
    const base: Survey
    var questions: seq<Question>

    constructor(name: string := "Test Survey", questions: seq<Question> := [],
                options: Options := map[], kwOptions: Options := map[])
      ensures fresh(base) && base.name == name && base.options == Merge(options, kwOptions)
      ensures this.questions == questions
    {
      base := new Survey(name, options, kwOptions);
      this.questions := questions;
    }

    /** `append_question`: appends at the end and returns its argument. */
    method AppendQuestion(question: Question) returns (r: Question)
      modifies this
      ensures questions == old(questions) + [question] && r == question
    {
      questions := questions + [question];
      return question;
    }

    /** `append_page_break`: appends a page break and returns nothing. */
    method AppendPageBreak()
      modifies this
      ensures questions == old(questions) + [PageBreak]
    {
      questions := questions + [PageBreak];
    }
  }

  /** `BlockSurvey`: a list of blocks. */
  class BlockSurvey {
    const base: Survey
    var blocks: seq<Blocks.Block>

    constructor(name: string := "Test Survey", blocks: seq<Blocks.Block> := [],
                options: Options := map[], kwOptions: Options := map[])
      ensures fresh(base) && base.name == name && base.options == Merge(options, kwOptions)
      ensures this.blocks == blocks
    {
      base := new Survey(name, options, kwOptions);
      this.blocks := blocks;
    }

    /** `append_block`: appends the block itself (not a copy) at the end
        and returns it. */
    method AppendBlock(block: Blocks.Block) returns (r: Blocks.Block)
      modifies this
      ensures blocks == old(blocks) + [block] && r == block
    {
      blocks := blocks + [block];
      return block;
    }
  }

  /** `FlowSurvey`: the children of the root flow. */
  class FlowSurvey {
    const base: Survey
    var elements: seq<Flow>

    constructor(name: string := "Test Survey", elements: seq<Flow> := [],
                options: Options := map[], kwOptions: Options := map[])
      ensures fresh(base) && base.name == name && base.options == Merge(options, kwOptions)
      ensures this.elements == elements
    {
      base := new Survey(name, options, kwOptions);
      this.elements := elements;
    }

    /** `append_flow`: appends at the end and returns its argument. */
    method AppendFlow(flow: Flow) returns (r: Flow)
      modifies this
      ensures elements == old(elements) + [flow] && r == flow
    {
      elements := elements + [flow];
      return flow;
    }

    /** `append_block`: appends a block flow wrapping the block and returns
        the block. */
    method AppendBlock(block: BlockHandle) returns (r: BlockHandle)
      modifies this
      ensures elements == old(elements) + [BlockRef(block)] && r == block
    {
      var _ := AppendFlow(BlockRef(block));
      return block;
    }

    /** The flow-building part of `create`: collect the distinct blocks of
        the tree, give the i-th of them the i-th id the server hands out
        (`ids`), and compile the flow with that map. Compiling never fails,
        since every block of the tree has been given an id. */
    method Reflow(ids: seq<string>) returns (blockIds: BlockIdMap, flowData: Result<Doc>)
      requires |ids| == |DistinctBlocks(elements)|
      ensures forall b :: b in blockIds <==> BlockRef(b) in BlockFlows(Root(elements))
      ensures forall i :: 0 <= i < |ids| ==>
                DistinctBlocks(elements)[i] in blockIds && blockIds[DistinctBlocks(elements)[i]] == ids[i]
      ensures flowData == FlowData(elements, blockIds) && flowData.Ok?
      ensures flowData.value.properties == Some(Properties(Size(Root(elements)), []))
    {
      blockIds := AssignBlockIds(elements, ids);
      FlowDataCountsEveryNode(elements, blockIds);
      forall b | b in BlockFlows(Root(elements))
        ensures b.block in blockIds
      {
        assert BlockRef(b.block) == b;
      }
      flowData := FlowData(elements, blockIds);
    }
  }

  // ---------------------------------------------------------------------
  // The distinct blocks of a flow tree

  predicate NoDuplicates(s: seq<BlockHandle>)
  {
    forall i, j :: 0 <= i < j < |s| ==> s[i] != s[j]
  }

  /** The position where `x` first occurs in `s`. */
  function FirstIndex(s: seq<BlockHandle>, x: BlockHandle): (r: nat)
    requires x in s
    ensures r < |s| && s[r] == x
    ensures forall k :: 0 <= k < r ==> s[k] != x
  {
    if s[0] == x then 0 else 1 + FirstIndex(s[1..], x)
  }

  /** The keys of an insertion-ordered dictionary filled from `s`:
      inserting a key that is already present keeps its first place. */
  function Dedup(s: seq<BlockHandle>): (r: seq<BlockHandle>)
    decreases |s|
    ensures forall x :: x in r <==> x in s
    ensures NoDuplicates(r)
  {
    if |s| == 0 then []
    else
      var prefix := Dedup(s[..|s| - 1]);
      if s[|s| - 1] in prefix then prefix else prefix + [s[|s| - 1]]
  }

  /** A prefix of `s` that contains `x` locates its first occurrence. */
  lemma FirstIndexPrefix(s: seq<BlockHandle>, n: nat, x: BlockHandle)
    requires n <= |s| && x in s[..n]
    ensures FirstIndex(s, x) == FirstIndex(s[..n], x)
  {
    var k := FirstIndex(s[..n], x);
    assert s[k] == x;
  }

  /** The dictionary keeps the blocks in the order of their first
      occurrence. */
  lemma {:induction false} DedupFirstEncounterOrder(s: seq<BlockHandle>, i: nat, j: nat)
    requires i < j < |Dedup(s)|
    ensures FirstIndex(s, Dedup(s)[i]) < FirstIndex(s, Dedup(s)[j])
    decreases |s|
  {
    var n := |s| - 1;
    var prefix := s[..n];
    var d := Dedup(prefix);
    var x := s[n];
    FirstIndexPrefix(s, n, Dedup(s)[i]);
    if x in d {
      FirstIndexPrefix(s, n, Dedup(s)[j]);
      DedupFirstEncounterOrder(prefix, i, j);
    } else if j < |d| {
      assert Dedup(s)[i] == d[i] && Dedup(s)[j] == d[j];
      FirstIndexPrefix(s, n, Dedup(s)[j]);
      DedupFirstEncounterOrder(prefix, i, j);
    } else {
      assert Dedup(s)[j] == x && x !in prefix;
      assert forall k :: 0 <= k < n ==> s[k] == prefix[k];
      assert FirstIndex(s, x) == n;
    }
  }

  /** The set of the blocks in `s`. */
  function Elements(s: seq<BlockHandle>): set<BlockHandle>
  {
    set x | x in s
  }

  /** The number of dictionary entries is the number of distinct blocks. */
  lemma {:induction false} DedupCountsDistinct(s: seq<BlockHandle>)
    ensures |Dedup(s)| == |Elements(s)|
    decreases |s|
  {
    if |s| > 0 {
      var prefix := s[..|s| - 1];
      var x := s[|s| - 1];
      DedupCountsDistinct(prefix);
      assert s == prefix + [x];
      assert Elements(s) == Elements(prefix) + {x};
      if x !in prefix {
        assert x !in Elements(prefix);
      }
    }
  }

  /** The blocks of a sequence of block flows, in order. */
  function Handles(flows: seq<Flow>): (r: seq<BlockHandle>)
    requires forall i :: 0 <= i < |flows| ==> flows[i].BlockRef?
    ensures |r| == |flows| && forall i :: 0 <= i < |flows| ==> r[i] == flows[i].block
  {
    seq(|flows|, i requires 0 <= i < |flows| => flows[i].block)
  }

  /** `{flow.block: None for flow in root.get_block_flows()}`: the keys, in
      order, of the dictionary `create` builds from the tree's block flows. */
  function DistinctBlocks(elements: seq<Flow>): (r: seq<BlockHandle>)
    ensures forall b :: b in r <==> BlockRef(b) in BlockFlows(Root(elements))
    ensures NoDuplicates(r)
  {
    var flows := BlockFlows(Root(elements));
    var handles := Handles(flows);
    assert forall b :: b in handles <==> BlockRef(b) in flows by {
      forall b | BlockRef(b) in flows
        ensures b in handles
      {
        var i :| 0 <= i < |flows| && flows[i] == BlockRef(b);
        assert handles[i] == b;
      }
    }
    Dedup(handles)
  }

  /** The number of blocks `create` uploads is the number of distinct
      blocks the tree refers to. */
  lemma DistinctBlocksCount(elements: seq<Flow>)
    ensures |DistinctBlocks(elements)| == |set f | f in BlockFlows(Root(elements)) :: f.block|
  {
    var flows := BlockFlows(Root(elements));
    DedupCountsDistinct(Handles(flows));
    assert Elements(Handles(flows)) == set f | f in flows :: f.block;
  }

  /** The upload loop of `create`: it starts from the dictionary with
      every distinct block mapped to `None` and stores, block by block, the
      id the server returns (`ids[i]` for the i-th block). */
  method AssignBlockIds(elements: seq<Flow>, ids: seq<string>) returns (blockIds: BlockIdMap)
    requires |ids| == |DistinctBlocks(elements)|
    ensures forall b :: b in blockIds <==> b in DistinctBlocks(elements)
    ensures forall i :: 0 <= i < |ids| ==>
              DistinctBlocks(elements)[i] in blockIds && blockIds[DistinctBlocks(elements)[i]] == ids[i]
  {
    var blocks := DistinctBlocks(elements);
    var slots: map<BlockHandle, Option<string>> := map b | b in blocks :: None;
    var i := 0;
    while i < |blocks|
      invariant 0 <= i <= |blocks|
      invariant forall b :: b in slots <==> b in blocks
      invariant forall j :: 0 <= j < i ==> slots[blocks[j]] == Some(ids[j])
      invariant forall j :: i <= j < |blocks| ==> slots[blocks[j]] == None
    {
      slots := slots[blocks[i] := Some(ids[i])];
      i := i + 1;
    }
    assert forall b :: b in slots ==> slots[b].Some? by {
      forall b | b in slots
        ensures slots[b].Some?
      {
        var j :| 0 <= j < |blocks| && blocks[j] == b;
      }
    }
    blockIds := map b | b in slots :: slots[b].value;
  }
}
