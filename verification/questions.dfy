/** The question-data builders of qualtrics/questions.py: each turns its
    arguments into the data record of one question, or raises the
    validation error of the source. Only the keys that depend on the
    arguments are kept; the constant keys (`Language`, `ShowValue`, ...)
    are the same for every question of a kind and are left out. */
module Questions {
  import opened Base

  /** A flag as the validation settings spell it. */
  function OnOff(b: bool): (s: string)
    ensures s == "ON" || s == "OFF"
    ensures (s == "ON") == b
  {
    if b then "ON" else "OFF"
  }

  /** `Validation.Settings`: `ForceResponse` and `ForceResponseType`. */
  datatype Settings = Settings(forceResponse: string, forceResponseType: string)

  /** One entry of `Choices`: its `Display` label and, for an option with a
      text field, its `TextEntry` value. */
  datatype OptionData = OptionData(display: string, textEntry: Option<string>)

  /** The option objects of a multiple-choice question. */
  datatype ChoiceOption = BasicOption(text: string) | TextOption(text: string)

  /** An element of the `options` argument: an option object, or a plain
      label that the builder wraps. */
  datatype OptionArg = Wrapped(option: ChoiceOption) | Plain(text: string)

  /** The data record of a question, one variant per builder. */
  datatype Question =
    | TextEntry(selector: string, dataExportTag: string, questionText: string, questionJS: string,
                validation: Settings)
    | MultipleChoice(selector: string, subSelector: string, choiceOrder: seq<int>,
                     choices: map<int, OptionData>, dataExportTag: string, questionText: string,
                     questionJS: string, validation: Settings, recodeValues: map<string, string>)
    | Slider(dataExportTag: string, choiceOrder: seq<int>, choices: map<int, OptionData>,
             sliderMin: int, sliderMax: int, gridLines: int, questionText: string, questionJS: string,
             validation: Settings)
    | ConstantSum(dataExportTag: string, choiceOrder: seq<int>, choices: map<int, OptionData>,
                  sliderMin: int, sliderMax: int, gridLines: int, questionText: string, questionJS: string,
                  selector: string, choiceTotal: string)
    | Timing(dataExportTag: string, timingChoices: map<string, OptionData>)
    | PageBreak

  /** The `QuestionType` key of each record (a page break has no data). */
  function QuestionType(q: Question): string
  {
    match q
    case TextEntry(_, _, _, _, _) => "TE"
    case MultipleChoice(_, _, _, _, _, _, _, _, _) => "MC"
    case Slider(_, _, _, _, _, _, _, _, _) => "Slider"
    case ConstantSum(_, _, _, _, _, _, _, _, _, _) => "CS"
    case Timing(_, _) => "Timing"
    case PageBreak => ""
  }

  // ---------------------------------------------------------------------
  // TextEntryQuestion

  /** The text-entry selector for a `size_of_response` the builder knows. */
  function ResponseSelector(size: string): Option<string>
  {
    if size == "single-line" then Some("SL")
    else if size == "multi-line" then Some("ML")
    else if size == "essay" then Some("ESTB")
    else None
  }

  /** The `size_of_response` a text-entry selector stands for. */
  function ResponseSize(selector: string): Option<string>
  {
    if selector == "SL" then Some("single-line")
    else if selector == "ML" then Some("multi-line")
    else if selector == "ESTB" then Some("essay")
    else None
  }

  /** The three sizes and the three selectors correspond one to one. */
  lemma ResponseSelectorRoundTrip(size: string, selector: string)
    ensures ResponseSelector(size).Some? <==> size == "single-line" || size == "multi-line" || size == "essay"
    ensures ResponseSelector(size) == Some(selector) <==> ResponseSize(selector) == Some(size)
  {
  }

  /** `TextEntryQuestion(...)`: the selector names the requested size, and
      `ForceResponseType` is "ON" whatever the flag. */
  function TextEntryQuestion(dataExportTag: string, textHtml: string, scriptJs: string := "",
                             forceResponse: bool := false, sizeOfResponse: string := "single-line"): (r: Result<Question>)
    ensures r.Ok? ==> QuestionType(r.value) == "TE"
    ensures r.Ok? <==> sizeOfResponse == "single-line" || sizeOfResponse == "multi-line" || sizeOfResponse == "essay"
    ensures r.Err? ==> r.error == ValueError("unknown size_of_response " + Quoted(sizeOfResponse))
    ensures r.Ok? ==> r.value.TextEntry? && ResponseSize(r.value.selector) == Some(sizeOfResponse)
    ensures r.Ok? ==> r.value.validation == Settings(OnOff(forceResponse), "ON")
    ensures r.Ok? ==> r.value.dataExportTag == dataExportTag && r.value.questionText == textHtml &&
                      r.value.questionJS == scriptJs
  {
    match ResponseSelector(sizeOfResponse)
    case None => Err(ValueError("unknown size_of_response " + Quoted(sizeOfResponse)))
    case Some(selector) =>
      Ok(TextEntry(selector, dataExportTag, textHtml, scriptJs, Settings(OnOff(forceResponse), "ON")))
  }

  // ---------------------------------------------------------------------
  // MultipleChoiceQuestion

  /** How the builder wraps one element of `options`: option objects are
      kept, the exact label "Self-specified" becomes a text option, and any
      other label a basic option. */
  function WrapOption(o: OptionArg): (c: ChoiceOption)
    ensures o.Wrapped? ==> c == o.option
    ensures o.Plain? ==> c.text == o.text && (c.TextOption? <==> o.text == "Self-specified")
  {
    match o
    case Wrapped(c) => c
    case Plain(text) => if text == "Self-specified" then TextOption(text) else BasicOption(text)
  }

  /** The `data` of an option object: its label, and for a text option the
      JSON encoding of `True` under `TextEntry`. */
  function OptionDataOf(c: ChoiceOption): (d: OptionData)
    ensures d.display == c.text
    ensures d.textEntry.Some? <==> c.TextOption?
    ensures d.textEntry.Some? ==> d.textEntry.value == "true"
  {
    match c
    case BasicOption(text) => OptionData(text, None)
    case TextOption(text) => OptionData(text, Some(JsonBool(true)))
  }

  /** The loop that wraps the options one by one, in order. */
  method WrapOptions(options: seq<OptionArg>) returns (wrapped: seq<ChoiceOption>)
    ensures |wrapped| == |options|
    ensures forall i :: 0 <= i < |options| ==> wrapped[i] == WrapOption(options[i])
  {
    wrapped := [];
    var i := 0;
    while i < |options|
      invariant 0 <= i <= |options| && |wrapped| == i
      invariant forall k :: 0 <= k < i ==> wrapped[k] == WrapOption(options[k])
    {
      var opt := options[i];
      if opt.Wrapped? {
        wrapped := wrapped + [opt.option];
      } else if opt.text == "Self-specified" {
        wrapped := wrapped + [TextOption(opt.text)];
      } else {
        wrapped := wrapped + [BasicOption(opt.text)];
      }
      i := i + 1;
    }
  }

  /** `Selector` and `SubSelector` for a `selection_method` the builder knows. */
  function SelectionSelectors(selectionMethod: string): Option<(string, string)>
  {
    if selectionMethod == "button-list" then Some(("SAVR", "TX"))
    else if selectionMethod == "dropdown-list" then Some(("DL", ""))
    else None
  }

  /** The entry of `Choices` under key `i`, counting the options from 1. */
  function ChoiceAt(wrapped: seq<ChoiceOption>, i: int): OptionData
    requires 1 <= i <= |wrapped|
  {
    OptionDataOf(wrapped[i - 1])
  }

  /** `MultipleChoiceQuestion(...)`: choice `i` (from 1) is the data of the
      i-th wrapped option, `ChoiceOrder` lists exactly the choices in order,
      and an unknown selection method is refused. */
  method MultipleChoiceQuestion(dataExportTag: string, options: seq<OptionArg> := [], textHtml: string := "",
                                scriptJs: string := "", forceResponse: bool := false,
                                selectionMethod: string := "button-list",
                                recodeValues: map<string, string> := map[])
    returns (r: Result<Question>)
    ensures r.Ok? ==> QuestionType(r.value) == "MC"
    ensures r.Ok? <==> selectionMethod == "button-list" || selectionMethod == "dropdown-list"
    ensures r.Err? ==> r.error == ValueError("unknown selection_method " + Quoted(selectionMethod))
    ensures selectionMethod == "button-list" ==>
      r.Ok? && r.value.MultipleChoice? && r.value.selector == "SAVR" && r.value.subSelector == "TX"
    ensures selectionMethod == "dropdown-list" ==>
      r.Ok? && r.value.MultipleChoice? && r.value.selector == "DL" && r.value.subSelector == ""
    ensures r.Ok? ==> r.value.MultipleChoice? && r.value.choiceOrder == Range(1, |options| + 1)
    ensures r.Ok? ==> forall i :: i in r.value.choices <==> i in r.value.choiceOrder
    ensures r.Ok? ==> forall i :: 0 <= i < |options| ==> i + 1 in r.value.choices && r.value.choices[i + 1] == OptionDataOf(WrapOption(options[i]))
    ensures r.Ok? ==> r.value.validation == Settings(OnOff(forceResponse), "ON")
    ensures r.Ok? ==> r.value.dataExportTag == dataExportTag && r.value.questionText == textHtml &&
                      r.value.questionJS == scriptJs && r.value.recodeValues == recodeValues
  {
    var wrapped := WrapOptions(options);
    var selectors := SelectionSelectors(selectionMethod);
    if selectors.None? {
      return Err(ValueError("unknown selection_method " + Quoted(selectionMethod)));
    }
    var choices := map i | 1 <= i <= |wrapped| :: ChoiceAt(wrapped, i);
    var order := Range(1, |wrapped| + 1);
    forall i | 1 <= i <= |wrapped|
      ensures i in order && i in choices
    {
      assert order[i - 1] == i;
    }
    assert forall i :: i in choices <==> i in order;
    forall i | 0 <= i < |options|
      ensures i + 1 in choices && choices[i + 1] == OptionDataOf(WrapOption(options[i]))
    {
      assert wrapped[i] == WrapOption(options[i]);
    }
    return Ok(MultipleChoice(selectors.value.0, selectors.value.1, order, choices, dataExportTag,
                             textHtml, scriptJs, Settings(OnOff(forceResponse), "ON"), recodeValues));
  }

  // ---------------------------------------------------------------------
  // SliderQuestion and ConstantSumQuestion

  /** `["",] * n`: n blank labels, none when n is not positive. */
  function Blanks(n: int): (r: seq<string>)
    decreases n
    ensures |r| == if n < 0 then 0 else n
    ensures forall i :: 0 <= i < |r| ==> r[i] == ""
  {
    if n <= 0 then [] else Blanks(n - 1) + [""]
  }

  /** The reconciliation of `choice_labels` and `num_sliders` shared by the
      slider builders: the labels and the slider count, or the error. */
  function ReconcileSliders(numSliders: Option<int>, choiceLabels: Option<seq<string>>): (r: Result<(seq<string>, int)>)
    ensures numSliders.None? && choiceLabels.None? ==>
      r == Err(ValueError("provide either choice_labels or num_sliders"))
    ensures numSliders.Some? && choiceLabels.None? ==>
      r.Ok? && r.value.1 == numSliders.value && forall i :: 0 <= i < |r.value.0| ==> r.value.0[i] == ""
    ensures numSliders.None? && choiceLabels.Some? ==>
      r.Ok? && r.value.0 == choiceLabels.value && r.value.1 == |choiceLabels.value|
    ensures numSliders.Some? && choiceLabels.Some? ==>
      (r.Ok? <==> |choiceLabels.value| == numSliders.value) &&
      (r.Ok? ==> r.value.0 == choiceLabels.value && r.value.1 == numSliders.value) &&
      (r.Err? ==> r.error == ValueError("choice_labels and num_sliders disagree"))
    ensures r.Ok? ==> |r.value.0| == if r.value.1 < 0 then 0 else r.value.1
  {
    if choiceLabels.None? && numSliders.None? then Err(ValueError("provide either choice_labels or num_sliders"))
    else if choiceLabels.None? then Ok((Blanks(numSliders.value), numSliders.value))
    else if numSliders.None? then Ok((choiceLabels.value, |choiceLabels.value|))
    else if |choiceLabels.value| != numSliders.value then Err(ValueError("choice_labels and num_sliders disagree"))
    else Ok((choiceLabels.value, numSliders.value))
  }

  /** `GridLines` of a slider: the width of the range, or 9 (ten ticks) once
      the range is wider than 20. */
  function GridLines(sliderMin: int, sliderMax: int): (g: int)
    ensures g <= 20
    ensures sliderMax - sliderMin <= 20 ==> g == sliderMax - sliderMin
    ensures sliderMax - sliderMin > 20 ==> g == 9
  {
    var diff := sliderMax - sliderMin;
    if diff > 20 then 9 else diff
  }

  /** `{i: {'Display': label} for i, label in enumerate(labels)}`. */
  function SliderChoices(labels: seq<string>): (c: map<int, OptionData>)
    ensures forall i :: i in c <==> 0 <= i < |labels|
    ensures forall i :: 0 <= i < |labels| ==> c[i] == OptionData(labels[i], None)
  {
    map i | 0 <= i < |labels| :: OptionData(labels[i], None)
  }

  /** Whatever the reconciliation returns, `ChoiceOrder = range(n)` lists
      exactly the keys of the slider choices. */
  lemma SliderOrderMatchesChoices(numSliders: Option<int>, choiceLabels: Option<seq<string>>)
    requires ReconcileSliders(numSliders, choiceLabels).Ok?
    ensures var (labels, n) := ReconcileSliders(numSliders, choiceLabels).value;
            forall i :: i in SliderChoices(labels) <==> i in Range(0, n)
  {
    var (labels, n) := ReconcileSliders(numSliders, choiceLabels).value;
    forall i | 0 <= i < |labels|
      ensures i in Range(0, n)
    {
      assert Range(0, n)[i] == i;
    }
  }

  /** `SliderQuestion(...)`: the reconciled labels become the choices, in
      order, under `ChoiceOrder = range(n)`; the force-response flag sets
      both settings. */
  function SliderQuestion(dataExportTag: string, textHtml: string, scriptJs: string := "",
                          numSliders: Option<int> := None, choiceLabels: Option<seq<string>> := None,
                          sliderMin: int := 0, sliderMax: int := 100, forceResponse: bool := true): (r: Result<Question>)
    ensures r.Ok? ==> QuestionType(r.value) == "Slider"
    ensures r.Ok? <==> ReconcileSliders(numSliders, choiceLabels).Ok?
    ensures r.Err? ==> r.error == ReconcileSliders(numSliders, choiceLabels).error
    ensures r.Ok? ==>
      var (labels, n) := ReconcileSliders(numSliders, choiceLabels).value;
      r.value.Slider? && r.value.choiceOrder == Range(0, n) &&
      (forall i :: i in r.value.choices <==> i in r.value.choiceOrder) &&
      (forall i :: 0 <= i < |labels| ==> i in r.value.choices && r.value.choices[i] == OptionData(labels[i], None))
    ensures r.Ok? ==> r.value.Slider? && r.value.gridLines == GridLines(sliderMin, sliderMax) &&
                      r.value.sliderMin == sliderMin && r.value.sliderMax == sliderMax
    ensures r.Ok? ==> r.value.validation == Settings(OnOff(forceResponse), OnOff(forceResponse))
    ensures r.Ok? ==> r.value.dataExportTag == dataExportTag && r.value.questionText == textHtml &&
                      r.value.questionJS == scriptJs
  {
    match ReconcileSliders(numSliders, choiceLabels)
    case Err(e) => Err(e)
    case Ok((labels, n)) =>
      SliderOrderMatchesChoices(numSliders, choiceLabels);
      Ok(Slider(dataExportTag, Range(0, n), SliderChoices(labels), sliderMin, sliderMax,
                GridLines(sliderMin, sliderMax), textHtml, scriptJs,
                Settings(OnOff(forceResponse), OnOff(forceResponse))))
  }

  /** The constant-sum `Selector` for a `selector` argument the builder knows. */
  function BarSelector(selector: string): Option<string>
  {
    if selector == "slider" then Some("HSLIDER")
    else if selector == "bar" then Some("HBAR")
    else None
  }

  /** `ConstantSumQuestion(...)` as written at qualtrics/questions.py:561-615:
      the `else` that should reject an unknown selector hangs off the
      gridline test, so a range of 20 or less raises the selector error for
      every selector, and an unknown selector with a wide range reaches the
      record with `selector_string` unbound. */
  function ConstantSumAsWritten(dataExportTag: string, textHtml: string, scriptJs: string := "",
                                numSliders: Option<int> := None, choiceLabels: Option<seq<string>> := None,
                                sliderMin: int := 0, sliderMax: int := 100, sumMax: int := 100,
                                selector: string := "bar"): (r: Result<Question>)
    ensures r.Ok? ==> QuestionType(r.value) == "CS"
    ensures ReconcileSliders(numSliders, choiceLabels).Err? ==> r == Err(ReconcileSliders(numSliders, choiceLabels).error)
    ensures ReconcileSliders(numSliders, choiceLabels).Ok? && ReconcileSliders(numSliders, choiceLabels).value.1 <= 1 ==>
      r == Err(ValueError("constant sum must have at least 2 sliders!"))
    ensures ReconcileSliders(numSliders, choiceLabels).Ok? && ReconcileSliders(numSliders, choiceLabels).value.1 >= 2 &&
            sliderMax - sliderMin <= 20 ==>
      r == Err(ValueError("selector should be 'slider' or 'bar'"))
    ensures ReconcileSliders(numSliders, choiceLabels).Ok? && ReconcileSliders(numSliders, choiceLabels).value.1 >= 2 &&
            sliderMax - sliderMin > 20 && BarSelector(selector).None? ==>
      r == Err(NameError("selector_string"))
    ensures r.Ok? ==> r.value.ConstantSum? && r.value.gridLines == 9
    ensures r.Ok? ==> r.value.ConstantSum? && r.value.dataExportTag == dataExportTag && r.value.questionText == textHtml &&
                      r.value.questionJS == scriptJs && r.value.sliderMin == sliderMin && r.value.sliderMax == sliderMax
  {
    match ReconcileSliders(numSliders, choiceLabels)
    case Err(e) => Err(e)
    case Ok((labels, n)) =>
      if n <= 1 then Err(ValueError("constant sum must have at least 2 sliders!"))
      else if sliderMax - sliderMin <= 20 then Err(ValueError("selector should be 'slider' or 'bar'"))
      else
        match BarSelector(selector)
        case None => Err(NameError("selector_string"))
        case Some(selectorString) =>
          Ok(ConstantSum(dataExportTag, Range(0, n), SliderChoices(labels), sliderMin, sliderMax, 9,
                         textHtml, scriptJs, selectorString, "100"))
  }

  /** The discrepancy: with at least two sliders, a valid selector and a
      range of 20 or less, the code as written refuses the question with the
      selector error, while the builder as intended accepts it. */
  lemma ConstantSumNarrowRangeRefused(dataExportTag: string, textHtml: string, scriptJs: string,
                                      numSliders: Option<int>, choiceLabels: Option<seq<string>>,
                                      sliderMin: int, sliderMax: int, sumMax: int, selector: string)
    requires ReconcileSliders(numSliders, choiceLabels).Ok? && ReconcileSliders(numSliders, choiceLabels).value.1 >= 2
    requires sliderMax - sliderMin <= 20
    ensures ConstantSumAsWritten(dataExportTag, textHtml, scriptJs, numSliders, choiceLabels, sliderMin, sliderMax, sumMax, selector)
            == Err(ValueError("selector should be 'slider' or 'bar'"))
    ensures selector == "slider" || selector == "bar" ==>
      ConstantSumQuestion(dataExportTag, textHtml, scriptJs, numSliders, choiceLabels, sliderMin, sliderMax, sumMax, selector).Ok?
  {
  }

  /** A concrete input that shows it: two sliders, range 0..10, `bar`. */
  lemma ConstantSumBarWithTwoSlidersRefused()
    ensures ConstantSumAsWritten("Q1", "", numSliders := Some(2), sliderMin := 0, sliderMax := 10, selector := "bar")
            == Err(ValueError("selector should be 'slider' or 'bar'"))
    ensures ConstantSumQuestion("Q1", "", numSliders := Some(2), sliderMin := 0, sliderMax := 10, selector := "bar").Ok?
  {
    ConstantSumNarrowRangeRefused("Q1", "", "", Some(2), None, 0, 10, 100, "bar");
  }

  /** `ConstantSumQuestion(...)` as intended: fewer than two sliders and an
      unknown selector are refused, and `GridLines` follows the same rule as
      the slider builder. `sum_max` is accepted and, as in the source,
      ignored: `ChoiceTotal` is always "100". */
  function ConstantSumQuestion(dataExportTag: string, textHtml: string, scriptJs: string := "",
                               numSliders: Option<int> := None, choiceLabels: Option<seq<string>> := None,
                               sliderMin: int := 0, sliderMax: int := 100, sumMax: int := 100,
                               selector: string := "bar"): (r: Result<Question>)
    ensures r.Ok? ==> QuestionType(r.value) == "CS"
    ensures r.Ok? <==> ReconcileSliders(numSliders, choiceLabels).Ok? &&
                       ReconcileSliders(numSliders, choiceLabels).value.1 >= 2 &&
                       (selector == "slider" || selector == "bar")
    ensures ReconcileSliders(numSliders, choiceLabels).Err? ==> r == Err(ReconcileSliders(numSliders, choiceLabels).error)
    ensures ReconcileSliders(numSliders, choiceLabels).Ok? && ReconcileSliders(numSliders, choiceLabels).value.1 <= 1 ==>
      r == Err(ValueError("constant sum must have at least 2 sliders!"))
    ensures ReconcileSliders(numSliders, choiceLabels).Ok? && ReconcileSliders(numSliders, choiceLabels).value.1 >= 2 &&
            selector != "slider" && selector != "bar" ==>
      r == Err(ValueError("selector should be 'slider' or 'bar'"))
    ensures r.Ok? ==>
      var (labels, n) := ReconcileSliders(numSliders, choiceLabels).value;
      r.value.ConstantSum? && r.value.choiceOrder == Range(0, n) && |labels| == n &&
      (forall i :: i in r.value.choices <==> i in r.value.choiceOrder) &&
      (forall i :: 0 <= i < n ==> i in r.value.choices && r.value.choices[i] == OptionData(labels[i], None))
    ensures r.Ok? ==> r.value.ConstantSum? && r.value.gridLines == GridLines(sliderMin, sliderMax) &&
                      (r.value.selector == "HSLIDER" <==> selector == "slider") &&
                      (r.value.selector == "HBAR" <==> selector == "bar") &&
                      r.value.choiceTotal == "100"
    ensures r.Ok? ==> r.value.ConstantSum? && r.value.dataExportTag == dataExportTag && r.value.questionText == textHtml &&
                      r.value.questionJS == scriptJs && r.value.sliderMin == sliderMin && r.value.sliderMax == sliderMax
  {
    match ReconcileSliders(numSliders, choiceLabels)
    case Err(e) => Err(e)
    case Ok((labels, n)) =>
      if n <= 1 then Err(ValueError("constant sum must have at least 2 sliders!"))
      else
        match BarSelector(selector)
        case None => Err(ValueError("selector should be 'slider' or 'bar'"))
        case Some(selectorString) =>
          SliderOrderMatchesChoices(numSliders, choiceLabels);
          Ok(ConstantSum(dataExportTag, Range(0, n), SliderChoices(labels), sliderMin, sliderMax,
                         GridLines(sliderMin, sliderMax), textHtml, scriptJs, selectorString, "100"))
  }

  /** With a valid selector and a range wider than 20 the two versions
      agree: the misplaced `else` is not reached. */
  lemma ConstantSumVersionsAgreeOnWideRanges(dataExportTag: string, textHtml: string, scriptJs: string,
                                             numSliders: Option<int>, choiceLabels: Option<seq<string>>,
                                             sliderMin: int, sliderMax: int, sumMax: int, selector: string)
    requires sliderMax - sliderMin > 20
    requires selector == "slider" || selector == "bar"
    ensures ConstantSumAsWritten(dataExportTag, textHtml, scriptJs, numSliders, choiceLabels, sliderMin, sliderMax, sumMax, selector)
         == ConstantSumQuestion(dataExportTag, textHtml, scriptJs, numSliders, choiceLabels, sliderMin, sliderMax, sumMax, selector)
  {
  }

  // ---------------------------------------------------------------------
  // TimingQuestion

  /** `TimingQuestion(tag)`: the four page-timer fields under keys "1".."4". */
  function TimingQuestion(dataExportTag: string): (q: Question)
    ensures QuestionType(q) == "Timing"
    ensures q.Timing? && q.dataExportTag == dataExportTag
    ensures q.timingChoices.Keys == {"1", "2", "3", "4"}
    ensures q.timingChoices["1"] == OptionData("First Click", None)
    ensures q.timingChoices["2"] == OptionData("Last Click", None)
    ensures q.timingChoices["3"] == OptionData("Page Submit", None)
    ensures q.timingChoices["4"] == OptionData("Click Count", None)
  {
    Timing(dataExportTag, map["1" := OptionData("First Click", None), "2" := OptionData("Last Click", None),
                              "3" := OptionData("Page Submit", None), "4" := OptionData("Click Count", None)])
  }
}
