/** The single-file copy of the library, qualtrics.py, where it behaves
    differently from the package: the slider and constant-sum builders,
    and a flow survey whose `append_flow` returns nothing and which has no
    `append_block`. Everything else in that file (the flow classes, the
    options store, the text-entry, multiple-choice and timing builders, the
    JavaScript builder) behaves the same as the package's and is modelled
    by the package's modules. */
module Legacy {
  import opened Base
  import opened Flows
  import opened Questions
  import Surveys

  /** The label/count reconciliation as written: its last test compares
      against the undefined name `num_slides`, so giving both arguments
      always raises `NameError`, whatever the lengths. */
  function ReconcileAsWritten(numSliders: Option<int>, choiceLabels: Option<seq<string>>): (r: Result<(seq<string>, int)>)
    ensures numSliders.Some? && choiceLabels.Some? ==> r == Err(NameError("num_slides"))
    ensures numSliders.None? || choiceLabels.None? ==> r == ReconcileSliders(numSliders, choiceLabels)
  {
    if choiceLabels.None? && numSliders.None? then Err(ValueError("provide either choice_labels or num_sliders"))
    else if choiceLabels.None? then Ok((Blanks(numSliders.value), numSliders.value))
    else if numSliders.None? then Ok((choiceLabels.value, |choiceLabels.value|))
    else Err(NameError("num_slides"))
  }

  /** `q` with its `GridLines` set to `g`, for the two question kinds that
      have one. */
  function WithGridLines(q: Question, g: int): Question
  {
    if q.Slider? || q.ConstantSum? then q.(gridLines := g) else q
  }

  /** The legacy slider data for reconciled labels: `GridLines` is always 10. */
  function LegacySlider(dataExportTag: string, textHtml: string, scriptJs: string, labels: seq<string>, n: int,
                        sliderMin: int, sliderMax: int, forceResponse: bool): Question
  {
    Slider(dataExportTag, Range(0, n), SliderChoices(labels), sliderMin, sliderMax, 10, textHtml, scriptJs,
           Settings(OnOff(forceResponse), OnOff(forceResponse)))
  }

  /** Legacy `SliderQuestion(...)` as written. */
  function SliderAsWritten(dataExportTag: string, textHtml: string, scriptJs: string := "",
                           numSliders: Option<int> := None, choiceLabels: Option<seq<string>> := None,
                           sliderMin: int := 0, sliderMax: int := 100, forceResponse: bool := true): (r: Result<Question>)
    ensures numSliders.Some? && choiceLabels.Some? ==> r == Err(NameError("num_slides"))
    ensures r.Ok? ==> r.value.Slider? && r.value.gridLines == 10
  {
    match ReconcileAsWritten(numSliders, choiceLabels)
    case Err(e) => Err(e)
    case Ok((labels, n)) => Ok(LegacySlider(dataExportTag, textHtml, scriptJs, labels, n, sliderMin, sliderMax, forceResponse))
  }

  /** Legacy `SliderQuestion(...)` with the evidently intended `num_sliders`
      in the last test: the package builder's validation, and the legacy
      constant `GridLines` of 10. */
  function SliderQuestion(dataExportTag: string, textHtml: string, scriptJs: string := "",
                          numSliders: Option<int> := None, choiceLabels: Option<seq<string>> := None,
                          sliderMin: int := 0, sliderMax: int := 100, forceResponse: bool := true): (r: Result<Question>)
    ensures var p := Questions.SliderQuestion(dataExportTag, textHtml, scriptJs, numSliders, choiceLabels,
                                              sliderMin, sliderMax, forceResponse);
            (r.Ok? <==> p.Ok?) && (r.Err? ==> r.error == p.error) &&
            (r.Ok? ==> r.value == WithGridLines(p.value, 10))
  {
    match ReconcileSliders(numSliders, choiceLabels)
    case Err(e) => Err(e)
    case Ok((labels, n)) => Ok(LegacySlider(dataExportTag, textHtml, scriptJs, labels, n, sliderMin, sliderMax, forceResponse))
  }

  /** The typo only matters when both arguments are given: then the code as
      written refuses even agreeing arguments, while the intended builder
      accepts them; on every other input the two agree. */
  lemma SliderTypoRefusesAgreeingArguments(dataExportTag: string, textHtml: string, scriptJs: string,
                                           numSliders: Option<int>, choiceLabels: Option<seq<string>>,
                                           sliderMin: int, sliderMax: int, forceResponse: bool)
    ensures numSliders.Some? && choiceLabels.Some? && |choiceLabels.value| == numSliders.value ==>
      SliderAsWritten(dataExportTag, textHtml, scriptJs, numSliders, choiceLabels, sliderMin, sliderMax, forceResponse).Err? &&
      SliderQuestion(dataExportTag, textHtml, scriptJs, numSliders, choiceLabels, sliderMin, sliderMax, forceResponse).Ok?
    ensures numSliders.None? || choiceLabels.None? ==>
      SliderAsWritten(dataExportTag, textHtml, scriptJs, numSliders, choiceLabels, sliderMin, sliderMax, forceResponse) ==
      SliderQuestion(dataExportTag, textHtml, scriptJs, numSliders, choiceLabels, sliderMin, sliderMax, forceResponse)
  {
  }

  /** The legacy constant-sum data for reconciled labels and a known
      selector: `GridLines` is always 10 and `ChoiceTotal` is "100". */
  function LegacyConstantSum(dataExportTag: string, textHtml: string, scriptJs: string, labels: seq<string>, n: int,
                             sliderMin: int, sliderMax: int, selectorString: string): Question
  {
    ConstantSum(dataExportTag, Range(0, n), SliderChoices(labels), sliderMin, sliderMax, 10, textHtml, scriptJs,
                selectorString, "100")
  }

  /** Legacy `ConstantSumQuestion(...)` as written: the same `num_slides`
      typo; then `slider` gives HSLIDER, `bar` gives HBAR and any other
      selector is refused, whatever the slider range; there is no check on
      the number of sliders. */
  function ConstantSumAsWritten(dataExportTag: string, textHtml: string, scriptJs: string := "",
                                numSliders: Option<int> := None, choiceLabels: Option<seq<string>> := None,
                                sliderMin: int := 0, sliderMax: int := 100, sumMax: int := 100,
                                selector: string := "bar"): (r: Result<Question>)
    ensures numSliders.Some? && choiceLabels.Some? ==> r == Err(NameError("num_slides"))
    ensures numSliders.None? || choiceLabels.None? ==>
      r == ConstantSumQuestion(dataExportTag, textHtml, scriptJs, numSliders, choiceLabels, sliderMin, sliderMax, sumMax, selector)
    ensures r.Ok? ==> r.value.ConstantSum? && r.value.gridLines == 10 && r.value.choiceTotal == "100"
  {
    match ReconcileAsWritten(numSliders, choiceLabels)
    case Err(e) => Err(e)
    case Ok((labels, n)) =>
      match BarSelector(selector)
      case None => Err(ValueError("selector should be 'slider' or 'bar'"))
      case Some(selectorString) =>
        Ok(LegacyConstantSum(dataExportTag, textHtml, scriptJs, labels, n, sliderMin, sliderMax, selectorString))
  }

  /** Legacy `ConstantSumQuestion(...)` with the typo corrected: it succeeds
      exactly when the labels reconcile and the selector is `slider` or
      `bar`, independently of the slider range and of the slider count. */
  function ConstantSumQuestion(dataExportTag: string, textHtml: string, scriptJs: string := "",
                               numSliders: Option<int> := None, choiceLabels: Option<seq<string>> := None,
                               sliderMin: int := 0, sliderMax: int := 100, sumMax: int := 100,
                               selector: string := "bar"): (r: Result<Question>)
    ensures r.Ok? <==> ReconcileSliders(numSliders, choiceLabels).Ok? && (selector == "slider" || selector == "bar")
    ensures ReconcileSliders(numSliders, choiceLabels).Err? ==> r == Err(ReconcileSliders(numSliders, choiceLabels).error)
    ensures ReconcileSliders(numSliders, choiceLabels).Ok? && selector != "slider" && selector != "bar" ==>
      r == Err(ValueError("selector should be 'slider' or 'bar'"))
    ensures r.Ok? ==>
      var (labels, n) := ReconcileSliders(numSliders, choiceLabels).value;
      r.value.ConstantSum? && r.value.choiceOrder == Range(0, n) &&
      (forall i :: i in r.value.choices <==> i in r.value.choiceOrder) &&
      (forall i :: 0 <= i < |labels| ==> i in r.value.choices && r.value.choices[i] == OptionData(labels[i], None))
    ensures r.Ok? ==> r.value.ConstantSum? && r.value.gridLines == 10 && r.value.choiceTotal == "100" &&
                      (r.value.selector == "HSLIDER" <==> selector == "slider") &&
                      (r.value.selector == "HBAR" <==> selector == "bar")
    ensures r.Ok? ==> r.value.ConstantSum? && r.value.dataExportTag == dataExportTag && r.value.questionText == textHtml &&
                      r.value.questionJS == scriptJs && r.value.sliderMin == sliderMin && r.value.sliderMax == sliderMax
  {
    match ReconcileSliders(numSliders, choiceLabels)
    case Err(e) => Err(e)
    case Ok((labels, n)) =>
      match BarSelector(selector)
      case None => Err(ValueError("selector should be 'slider' or 'bar'"))
      case Some(selectorString) =>
        SliderOrderMatchesChoices(numSliders, choiceLabels);
        Ok(LegacyConstantSum(dataExportTag, textHtml, scriptJs, labels, n, sliderMin, sliderMax, selectorString))
  }

  /** The discrepancy of the constant-sum builder: agreeing labels and
      count with a known selector are refused as written and accepted with
      the typo corrected. */
  lemma ConstantSumTypoRefusesAgreeingArguments(dataExportTag: string, textHtml: string, scriptJs: string,
                                                numSliders: Option<int>, choiceLabels: Option<seq<string>>,
                                                sliderMin: int, sliderMax: int, sumMax: int, selector: string)
    requires numSliders.Some? && choiceLabels.Some? && |choiceLabels.value| == numSliders.value
    requires selector == "slider" || selector == "bar"
    ensures ConstantSumAsWritten(dataExportTag, textHtml, scriptJs, numSliders, choiceLabels,
                                 sliderMin, sliderMax, sumMax, selector) == Err(NameError("num_slides"))
    ensures ConstantSumQuestion(dataExportTag, textHtml, scriptJs, numSliders, choiceLabels,
                                sliderMin, sliderMax, sumMax, selector).Ok?
  {
  }

  /** Where the legacy constant-sum builder differs from the package one:
      it accepts a single slider that the package refuses, and wherever
      both accept they build the same question apart from `GridLines`. */
  lemma ConstantSumVersionsCompared(dataExportTag: string, textHtml: string, scriptJs: string,
                                    numSliders: Option<int>, choiceLabels: Option<seq<string>>,
                                    sliderMin: int, sliderMax: int, sumMax: int, selector: string)
    ensures var l := ConstantSumQuestion(dataExportTag, textHtml, scriptJs, numSliders, choiceLabels,
                                         sliderMin, sliderMax, sumMax, selector);
            var p := Questions.ConstantSumQuestion(dataExportTag, textHtml, scriptJs, numSliders, choiceLabels,
                                                   sliderMin, sliderMax, sumMax, selector);
            (p.Ok? ==> l.Ok? && l.value == WithGridLines(p.value, 10)) &&
            (l.Ok? && p.Err? ==> ReconcileSliders(numSliders, choiceLabels).value.1 <= 1)
  {
  }

  /** The legacy `FlowSurvey`: its `append_flow` appends and returns
      nothing, and it has no `append_block`. */
  class FlowSurvey {
    const base: Surveys.Survey
    var elements: seq<Flow>

    constructor(name: string := "Test Survey", elements: seq<Flow> := [],
                options: Surveys.Options := map[], kwOptions: Surveys.Options := map[])
      ensures fresh(base) && base.name == name && base.options == Surveys.Merge(options, kwOptions)
      ensures this.elements == elements
    {
      base := new Surveys.Survey(name, options, kwOptions);
      this.elements := elements;
    }

    /** `append_flow`: appends at the end; nothing is returned. */
    method AppendFlow(flow: Flow)
      modifies this
      ensures elements == old(elements) + [flow]
    {
      elements := elements + [flow];
    }
  }
}
