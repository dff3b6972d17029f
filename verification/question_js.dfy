/** The JavaScript builder of qualtrics/question_js.py: snippets wrapped in
    the SurveyEngine boilerplate, collected in order by a `QuestionJS`
    object and joined into one script, and the two embedded-data helpers. */
module QuestionScripts {
  import opened Base

  /** `sep.join(parts)`. */
  function Join(sep: string, parts: seq<string>): string
    decreases |parts|
  {
    if |parts| == 0 then ""
    else if |parts| == 1 then parts[0]
    else parts[0] + sep + Join(sep, parts[1..])
  }

  /** A join of no parts is empty; otherwise it starts with the first part
      and ends with the last. */
  lemma {:induction false} JoinEnds(sep: string, parts: seq<string>)
    ensures |parts| == 0 ==> Join(sep, parts) == ""
    ensures |parts| > 0 ==> |parts[0]| <= |Join(sep, parts)| && Join(sep, parts)[..|parts[0]|] == parts[0]
    ensures |parts| > 0 ==> |parts[|parts| - 1]| <= |Join(sep, parts)| &&
                            Join(sep, parts)[|Join(sep, parts)| - |parts[|parts| - 1]|..] == parts[|parts| - 1]
    decreases |parts|
  {
    if |parts| > 1 {
      JoinEnds(sep, parts[1..]);
      var rest, last := Join(sep, parts[1..]), parts[|parts| - 1];
      var r := parts[0] + sep + rest;
      assert r[..|parts[0]|] == parts[0];
      assert last == parts[1..][|parts[1..]| - 1];
      assert r[|r| - |last|..] == rest[|rest| - |last|..];
    }
  }

  /** The total length of the parts. */
  function TotalLength(parts: seq<string>): nat
  {
    if |parts| == 0 then 0 else |parts[0]| + TotalLength(parts[1..])
  }

  /** A join is as long as its parts and one separator between each two. */
  lemma {:induction false} JoinLength(sep: string, parts: seq<string>)
    requires |parts| > 0
    ensures |Join(sep, parts)| == TotalLength(parts) + (|parts| - 1) * |sep|
    decreases |parts|
  {
    if |parts| > 1 {
      JoinLength(sep, parts[1..]);
      assert (|parts| - 1) * |sep| == (|parts[1..]| - 1) * |sep| + |sep|;
    }
  }

  /** Joining one more part adds the separator and the part at the end
      (the part alone when there was nothing before). */
  lemma {:induction false} JoinAppend(sep: string, parts: seq<string>, part: string)
    ensures Join(sep, parts + [part]) == if |parts| == 0 then part else Join(sep, parts) + sep + part
    decreases |parts|
  {
    if |parts| == 0 {
      assert parts + [part] == [part];
    } else if |parts| == 1 {
      assert (parts + [part])[1..] == [part];
    } else {
      assert (parts + [part])[1..] == parts[1..] + [part];
      JoinAppend(sep, parts[1..], part);
    }
  }

  // ---------------------------------------------------------------------
  // The SurveyEngine boilerplate

  /** Everything `_engine_wrap` puts before the snippet. */
  function WrapPrefix(eventName: string, args: seq<string>): string
  {
    "Qualtrics.SurveyEngine.addOn" + eventName + "(function(" + Join(",", args) + "){\n"
  }

  /** Everything `_engine_wrap` puts after the snippet. */
  const WrapSuffix: string := "\n});"

  /** `_engine_wrap(method, script, *args)`: the snippet sits verbatim
      between the `addOn<method>(function(<args>){` line and the closing
      `});` line. */
  function EngineWrap(eventName: string, script: string, args: seq<string> := []): (w: string)
    ensures |w| == |WrapPrefix(eventName, args)| + |script| + |WrapSuffix|
    ensures w[..|WrapPrefix(eventName, args)|] == WrapPrefix(eventName, args)
    ensures w[|WrapPrefix(eventName, args)|..|w| - |WrapSuffix|] == script
    ensures w[|w| - |WrapSuffix|..] == WrapSuffix
  {
    var p := WrapPrefix(eventName, args);
    var w := p + script + WrapSuffix;
    assert w[..|p|] == p;
    assert w[|p|..|w| - |WrapSuffix|] == script;
    assert w[|w| - |WrapSuffix|..] == WrapSuffix;
    w
  }

  /** The snippet can be read back from its wrapping, so two different
      snippets attached to the same event never give the same code. */
  lemma EngineWrapInjective(eventName: string, args: seq<string>, s1: string, s2: string)
    requires EngineWrap(eventName, s1, args) == EngineWrap(eventName, s2, args)
    ensures s1 == s2
  {
    var w := EngineWrap(eventName, s1, args);
    assert s1 == w[|WrapPrefix(eventName, args)|..|w| - |WrapSuffix|];
  }

  /** Everything `on_click` puts before the snippet. */
  const ClickPrefix: string := "this.questionclick = function(event, element) {\n            "

  /** Everything `on_click` puts after the snippet. */
  const ClickSuffix: string := "\n        };"

  /** The `this.questionclick = ...` assignment that `on_click` attaches as
      an onload snippet: the snippet sits verbatim in the handler's body. */
  function ClickHandler(script: string): (h: string)
    ensures |h| == |ClickPrefix| + |script| + |ClickSuffix|
    ensures h[..|ClickPrefix|] == ClickPrefix
    ensures h[|ClickPrefix|..|h| - |ClickSuffix|] == script
    ensures h[|h| - |ClickSuffix|..] == ClickSuffix
  {
    var h := ClickPrefix + script + ClickSuffix;
    assert h[..|ClickPrefix|] == ClickPrefix;
    assert h[|ClickPrefix|..|h| - |ClickSuffix|] == script;
    assert h[|h| - |ClickSuffix|..] == ClickSuffix;
    h
  }

  // ---------------------------------------------------------------------
  // Embedded data

  const SetPrefix: string := "Qualtrics.SurveyEngine.setEmbeddedData(\""

  /** `setEmbeddedData(key, expression_js)`: the statement that stores the
      value of the expression under `key`. */
  function SetEmbeddedData(key: string, expressionJs: string): (e: string)
    ensures |e| == |SetPrefix| + |key| + 2 + |expressionJs| + 2
    ensures e[..|SetPrefix|] == SetPrefix
    ensures e[|SetPrefix|..|SetPrefix| + |key|] == key
    ensures e[|SetPrefix| + |key|..|SetPrefix| + |key| + 2] == "\","
    ensures e[|SetPrefix| + |key| + 2..|e| - 2] == expressionJs
    ensures e[|e| - 2..] == ");"
  {
    var p, k := |SetPrefix|, |key|;
    var e := SetPrefix + key + "\"," + expressionJs + ");";
    assert e[..p] == SetPrefix;
    assert e[p..p + k] == key;
    assert e[p + k..p + k + 2] == "\",";
    assert e[p + k + 2..|e| - 2] == expressionJs;
    assert e[|e| - 2..] == ");";
    e
  }

  /** The position of the first double quote in `s`, if any. */
  function FirstQuote(s: string): (r: int)
    ensures -1 <= r < |s|
    ensures r >= 0 ==> s[r] == '"' && forall k :: 0 <= k < r ==> s[k] != '"'
    ensures r == -1 ==> forall k :: 0 <= k < |s| ==> s[k] != '"'
  {
    if |s| == 0 then -1
    else if s[0] == '"' then 0
    else
      var r := FirstQuote(s[1..]);
      if r == -1 then -1 else r + 1
  }

  /** Reads a `setEmbeddedData` statement back into its key and expression;
      the key ends at the first double quote. */
  function ParseSetEmbeddedData(s: string): Option<(string, string)>
  {
    if |s| < |SetPrefix| + 2 || s[..|SetPrefix|] != SetPrefix || s[|s| - 2..] != ");" then None
    else
      var body := s[|SetPrefix|..|s| - 2];
      var q := FirstQuote(body);
      if q < 0 || q + 1 >= |body| || body[q + 1] != ',' then None
      else Some((body[..q], body[q + 2..]))
  }

  /** A key without double quotes and its expression are recovered from
      the statement `setEmbeddedData` builds. */
  lemma SetEmbeddedDataRoundTrip(key: string, expressionJs: string)
    requires forall k :: 0 <= k < |key| ==> key[k] != '"'
    ensures ParseSetEmbeddedData(SetEmbeddedData(key, expressionJs)) == Some((key, expressionJs))
  {
    var s := SetEmbeddedData(key, expressionJs);
    assert s[..|SetPrefix|] == SetPrefix;
    assert s[|s| - 2..] == ");";
    var body := s[|SetPrefix|..|s| - 2];
    assert body == key + "\"," + expressionJs;
    assert body[|key|] == '"';
    assert FirstQuote(body) == |key|;
    assert body[..|key|] == key && body[|key| + 2..] == expressionJs;
  }

  /** `getEmbeddedData(key)`: the piped-text reference to the field `key`. */
  function GetEmbeddedData(key: string): (e: string)
    ensures |e| == |key| + 13
    ensures e[..12] == "${e://Field/"
    ensures e[12..|e| - 1] == key
    ensures e[|e| - 1] == '}'
  {
    var e := "${e://Field/" + key + "}";
    assert e[..12] == "${e://Field/";
    assert e[12..|e| - 1] == key;
    e
  }

  /** The field a piped-text reference names, if `s` is one. */
  function FieldKey(s: string): Option<string>
  {
    if |s| >= 13 && s[..12] == "${e://Field/" && s[|s| - 1] == '}' then Some(s[12..|s| - 1]) else None
  }

  /** `getEmbeddedData` and `FieldKey` are inverse to each other. */
  lemma GetEmbeddedDataRoundTrip(key: string, s: string)
    ensures FieldKey(GetEmbeddedData(key)) == Some(key)
    ensures FieldKey(s) == Some(key) ==> GetEmbeddedData(key) == s
  {
    if FieldKey(s) == Some(key) {
      assert s == s[..12] + s[12..|s| - 1] + [s[|s| - 1]];
    }
  }

  // ---------------------------------------------------------------------
  // The builder

  /** A `QuestionJS` object: the snippets attached so far, in order. */
  class QuestionJS {
    var scripts: seq<string>

    constructor()
      ensures scripts == [] && Script() == ""
    {
      scripts := [];
    }

    /** `script()`: the snippets joined by blank lines, so it starts with
        the first snippet, ends with the last, and is as long as all the
        snippets and one blank line between each two. */
    function Script(): (r: string)
      reads this
      ensures |scripts| == 0 ==> r == ""
      ensures |scripts| > 0 ==> |r| == TotalLength(scripts) + (|scripts| - 1) * 2
      ensures |scripts| > 0 ==> |scripts[0]| <= |r| && r[..|scripts[0]|] == scripts[0]
      ensures |scripts| > 0 ==> |scripts[|scripts| - 1]| <= |r| &&
                                r[|r| - |scripts[|scripts| - 1]|..] == scripts[|scripts| - 1]
    {
      JoinEnds("\n\n", scripts);
      if |scripts| > 0 then JoinLength("\n\n", scripts); Join("\n\n", scripts) else ""
    }

    /** Appends one snippet; the script grows by a blank line and the
        snippet, and nothing attached earlier changes. */
    method Attach(snippet: string)
      modifies this
      ensures scripts == old(scripts) + [snippet]
      ensures Script() == if old(scripts) == [] then snippet else old(Script()) + "\n\n" + snippet
    {
      JoinAppend("\n\n", scripts, snippet);
      scripts := scripts + [snippet];
    }

    /** `on_load(script)`: attaches to the `load` event (lower-case l). */
    method OnLoad(script: string) returns (self: QuestionJS)
      modifies this
      ensures self == this && scripts == old(scripts) + [EngineWrap("load", script)]
      ensures Script() == if old(scripts) == [] then EngineWrap("load", script)
                          else old(Script()) + "\n\n" + EngineWrap("load", script)
    {
      Attach(EngineWrap("load", script));
      return this;
    }

    /** `on_ready(script)`: attaches to the `Ready` event. */
    method OnReady(script: string) returns (self: QuestionJS)
      modifies this
      ensures self == this && scripts == old(scripts) + [EngineWrap("Ready", script)]
      ensures Script() == if old(scripts) == [] then EngineWrap("Ready", script)
                          else old(Script()) + "\n\n" + EngineWrap("Ready", script)
    {
      Attach(EngineWrap("Ready", script));
      return this;
    }

    /** `on_submit(script)`: attaches to the `PageSubmit` event, whose
        function takes the argument `type`. */
    method OnSubmit(script: string) returns (self: QuestionJS)
      modifies this
      ensures self == this && scripts == old(scripts) + [EngineWrap("PageSubmit", script, ["type"])]
      ensures Script() == if old(scripts) == [] then EngineWrap("PageSubmit", script, ["type"])
                          else old(Script()) + "\n\n" + EngineWrap("PageSubmit", script, ["type"])
    {
      Attach(EngineWrap("PageSubmit", script, ["type"]));
      return this;
    }

    /** `on_unload(script)`: attaches to the `Unload` event. */
    method OnUnload(script: string) returns (self: QuestionJS)
      modifies this
      ensures self == this && scripts == old(scripts) + [EngineWrap("Unload", script)]
      ensures Script() == if old(scripts) == [] then EngineWrap("Unload", script)
                          else old(Script()) + "\n\n" + EngineWrap("Unload", script)
    {
      Attach(EngineWrap("Unload", script));
      return this;
    }

    /** `on_click(script)`: exactly `on_load` of the click-handler assignment. */
    method OnClick(script: string) returns (self: QuestionJS)
      modifies this
      ensures self == this && scripts == old(scripts) + [EngineWrap("load", ClickHandler(script))]
    {
      self := OnLoad(ClickHandler(script));
    }
  }
}
