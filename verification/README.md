# qualtrics — a verified model of the survey builder

The qualtrics library scripts the creation of Qualtrics surveys. A program
builds a *virtual survey* in memory, then uploads it through the
survey-definitions REST API. This project models the object model behind
that upload and proves what it guarantees:

- **Flows** (`qualtrics/flows.py`). The survey-flow tree has five kinds of
  node: Root, Group, BlockRandomizer, EndSurvey and Block flows. The tree
  grows in place through `append_flow` and `append_block`. `compile` numbers
  every node `FL_1`, `FL_2`, … in pre-order and nests the child documents
  under `Flow`. `flow_data` adds `Properties.Count`. `get_block_flows` lists
  the block flows left to right.
- **Surveys** (`qualtrics/surveys.py`). This covers the options store shared
  by every survey (`set_options` and the six setters), the three kinds of
  survey with their append methods, and the step of `FlowSurvey.create`
  that gathers the distinct blocks of the tree in first-encounter order.
  That step gives each block the id the server returns and compiles the
  flow with those ids.
- **Questions** (`qualtrics/questions.py`). These are the builders of the
  text-entry, multiple-choice, slider, constant-sum and timing question
  records, with their validation errors, and the option wrappers
  `BasicOption` and `TextOption`.
- **QuestionScripts** (`qualtrics/question_js.py`). This is the
  `QuestionJS` builder, which wraps snippets in the SurveyEngine
  boilerplate and joins them with blank lines, plus `setEmbeddedData` and
  `getEmbeddedData`.
- **Blocks** (`qualtrics/blocks.py`). This is the question block.
- **Legacy** (`qualtrics.py`, the single-file copy of the library). It
  covers only the places where that copy behaves differently from the
  package. Its flow classes, options store, text-entry, multiple-choice and
  timing builders and JavaScript builder behave the same as the package's
  and are covered by the package's modules.

Objects whose lists the source grows in place are classes whose methods
state their whole new state: `FlowElement`, `Survey`, `BasicSurvey`,
`BlockSurvey`, `FlowSurvey`, `Block` and `QuestionJS`. Trees, question
records and flow documents are datatypes. Compilation is a pure function,
`Flows.Compile`, and `Flows.CompileNode` and `Flows.CompileChildrenLoop`
mirror the source's recursive method and its `for` loop. Their ensures tie
each result to `Compile`.

Errors that the source raises are values of `Base.Error` inside a
`Result`. `KeyError` is a missing block id. `NoChildren` is the exception
of `EndSurveyFlow.append_flow`. `NoChildrenList` is the AttributeError of a
`BlockFlow`, which never creates `children`. `ValueError` and `NameError`
carry their messages.

## Model

| member | source | states |
|---|---|---|
| Base.JsonBool | qualtrics/surveys.py:240 | `json.dumps` of a bool is the text "true" exactly when the bool is true, and "false" otherwise |
| Base.Quoted | qualtrics/questions.py:179 | the `!r` rendering of a plain string is the string between single quotes |
| Base.Range | qualtrics/questions.py:285 | `list(range(lo, hi))` has `hi - lo` elements (none if `hi <= lo`) and element `i` is `lo + i` |
| Flows.NatToString | qualtrics/flows.py:45 | the decimal rendering of a flow number is never empty |
| Flows.FlowIdInjective | qualtrics/flows.py:45 | different numbers give different `FL_<n>` ids |
| Flows.PreOrder | qualtrics/flows.py:50-52 | the pre-order enumeration that `compile` follows has one entry per node and starts with the node itself |
| Flows.BlockFlows | qualtrics/flows.py:60-62 | `get_block_flows` yields only block flows |
| Flows.BlockFlowsArePreOrderBlocks | qualtrics/flows.py:60-62 | `get_block_flows` (and `BlockFlow.get_block_flows`, lines 81-82) yields exactly the block nodes of the pre-order enumeration, in order, repeats included |
| Flows.Compile | qualtrics/flows.py:30-57 | on success the maximum id returned is `id` plus the number of nodes below the node |
| Flows.CompileDocShape | qualtrics/flows.py:43-57 | the compiled document has id `FL_<id>` and the node's own configuration (`Type`, the constructor keys, and `ID`/`Autofill` for a block, lines 73-78). The `Flow` key is present exactly when the node has children, with one document per child. A block missing from the map fails with `KeyError` of that block (line 76) |
| Flows.CompiledType | qualtrics/flows.py:71-127 | a compiled document's `Type` is `Root`, `Group`, `BlockRandomizer`, `EndSurvey` or `Block` according to the node's kind, as the constructors (lines 90, 108, 119, 127) and the block flow (line 75) set it |
| Flows.CompileChildren | qualtrics/flows.py:49-52 | the loop over the children yields one document per child and ends at `prev` plus the children's node count |
| Flows.CompileNode | qualtrics/flows.py:30-57 | the recursive `compile` methods (including `BlockFlow.compile`, lines 71-78) return exactly `Compile` |
| Flows.CompileChildrenLoop | qualtrics/flows.py:49-52 | the `for` loop returns exactly `CompileChildren`, stopping at the first KeyError |
| Flows.CompileChildrenStep | qualtrics/flows.py:50-52 | one loop turn: the next child starts one past the running maximum, and its KeyError is the error of the whole loop |
| Flows.CompileChildrenErrSticks | qualtrics/flows.py:50-52 | once a child fails, the rest of the loop does not change the error |
| Flows.CompileChildrenPrefix | qualtrics/flows.py:50-52 | every prefix of the children compiles to the same prefix of the documents |
| Flows.CompileChildrenInOrder | qualtrics/flows.py:50-52 | child `i` is compiled from one past the ids of its elder siblings' subtrees, and its document is at position `i` |
| Flows.CompileChildDocs | qualtrics/flows.py:50-55 | the `Flow` array of a compiled node holds its children's documents in child order, each numbered from one past its elder siblings' subtrees |
| Flows.CompileOkIffResolved | qualtrics/flows.py:30-78 | `compile` succeeds exactly when every block flow of the tree has an entry in the block-id map; otherwise it raises the KeyError of the first block flow, in `get_block_flows` order (lines 60-62, 81-82), whose block has no id, so every earlier block flow has one |
| Flows.FirstMissingConcat | qualtrics/flows.py:60-62 | the first block flow without an id in a concatenation is the first one of the left part, or else the first one of the right part, shifted by the left part's length |
| Flows.CompileNumbersPreOrder | qualtrics/flows.py:30-57 | the document's (FlowID, configuration) pairs, read in pre-order, number the tree's pre-order nodes `FL_id`, `FL_id+1`, … with no gap, each node with its own configuration |
| Flows.NumberedConcat | qualtrics/flows.py:50-52 | numbering two runs one after the other numbers their concatenation |
| Flows.NumberedIdsUnique | qualtrics/flows.py:45 | in a numbered sequence no id repeats, and equal nodes carry equal configurations |
| Flows.CompiledIdsUnique | qualtrics/flows.py:30-78 | every `FlowID` in a compiled document is different, and two block flows of the same block carry the same block `ID` |
| Flows.FlowData | qualtrics/flows.py:94-100 | `flow_data` is the root document `FL_1` with `Type` Root and `Properties` (`Count`, empty `RemovedFieldsets`), where `Count` is the tree's node count |
| Flows.FlowDataCountsEveryNode | qualtrics/flows.py:94-100 | `flow_data` fails exactly when a block has no id; otherwise `Count` equals the number of documents and their ids are `FL_1` … `FL_Count` in pre-order |
| Flows.WithChild | qualtrics/flows.py:20-22 | `append_flow` gives Root, Group and BlockRandomizer one more last child and keeps their configuration; EndSurvey raises (lines 130-131); a block flow has no `children` list |
| Flows.WithChildExtends | qualtrics/flows.py:20-22 | appending a child adds its subtree to the node count and its block flows to the end of `get_block_flows` |
| Flows.FlowElement.RootFlow | qualtrics/flows.py:87-91 | a RootFlow holds a copy of the given children |
| Flows.FlowElement.GroupFlow | qualtrics/flows.py:116-121 | a GroupFlow with its description and children |
| Flows.FlowElement.BlockRandomizerFlow | qualtrics/flows.py:105-111 | a BlockRandomizerFlow with `SubSet`, `EvenPresentation` and children |
| Flows.FlowElement.EndSurveyFlow | qualtrics/flows.py:126-127 | an EndSurveyFlow has no children |
| Flows.FlowElement.BlockFlow | qualtrics/flows.py:67-68 | a BlockFlow wraps its block and has no children |
| Flows.FlowElement.AppendFlow | qualtrics/flows.py:20-22 | appends in place and returns the flow, or fails without changing anything (lines 130-131) |
| Flows.FlowElement.AppendBlock | qualtrics/flows.py:25-27 | appends a block flow for the block and returns the block |
| Flows.FlowElement.CompileElement | qualtrics/flows.py:30-57 | `compile` on the element's current tree |
| Flows.FlowElement.RootFlowData | qualtrics/flows.py:94-100 | `flow_data` on the element's current children |
| Questions.OnOff | qualtrics/questions.py:189 | the force-response flag is "ON" exactly when true |
| Questions.ResponseSelectorRoundTrip | qualtrics/questions.py:172-179 | exactly the three sizes are known, and sizes and selectors SL/ML/ESTB correspond one to one |
| Questions.TextEntryQuestion | qualtrics/questions.py:129-198 | succeeds exactly for the three sizes, with the ValueError naming the size otherwise; the selector names the size; `ForceResponseType` is always "ON"; tag, text and script are kept; `QuestionType` is "TE" (line 182) |
| Questions.WrapOption | qualtrics/questions.py:266-273 | option objects are kept, and a plain label becomes a TextOption exactly when it is "Self-specified" |
| Questions.OptionDataOf | qualtrics/questions.py:305-324 | the option data shows the label, with `TextEntry` "true" exactly for a TextOption |
| Questions.WrapOptions | qualtrics/questions.py:266-273 | the wrapping loop wraps every option, in order |
| Questions.MultipleChoiceQuestion | qualtrics/questions.py:207-299 | succeeds exactly for the two selection methods (SAVR/TX, DL/empty) with the ValueError otherwise; `ChoiceOrder` is 1..n and lists exactly the choice keys; choice `i` is the data of the i-th wrapped option; settings, tag, text, script and recode values are kept; `QuestionType` is "MC" (line 284) |
| Questions.Blanks | qualtrics/questions.py:440 | `["",] * n` is n blank labels, and none for a negative n |
| Questions.ReconcileSliders | qualtrics/questions.py:436-444 | all four cases of the label/count reconciliation, including both error messages; on success there are as many labels as sliders |
| Questions.GridLines | qualtrics/questions.py:447-449 | `GridLines` is the range width up to 20, and 9 beyond |
| Questions.SliderChoices | qualtrics/questions.py:455-458 | choice `i` is label `i`, for exactly the indices of the labels |
| Questions.SliderOrderMatchesChoices | qualtrics/questions.py:454-458 | `ChoiceOrder = range(n)` lists exactly the choice keys |
| Questions.SliderQuestion | qualtrics/questions.py:379-483 | succeeds exactly when the reconciliation does, with its error otherwise; the choices, order, range, gridlines and both force-response settings; `QuestionType` is "Slider" (line 474) |
| Questions.ConstantSumAsWritten | qualtrics/questions.py:561-615 | the code as written: a reconciliation error comes first; then fewer than two sliders raise the count error (lines 569-570); then a range of 20 or less raises the selector error whatever the selector (lines 578-584); with a wider range an unknown selector leaves `selector_string` unbound (NameError); any success has `GridLines` 9 and carries the tag, text, script and slider range; `QuestionType` is "CS" (line 606) |
| Questions.ConstantSumNarrowRangeRefused | qualtrics/questions.py:572-584 | for every reconciled question with at least two sliders and a range of 20 or less, whatever the tag, text, script, `sum_max` and selector, the code as written raises the selector error; with selector slider or bar the intended builder succeeds |
| Questions.ConstantSumBarWithTwoSlidersRefused | qualtrics/questions.py:572-584 | two sliders, range 0..10 and selector `bar`: the code as written raises the selector error, the intended builder succeeds |
| Questions.ConstantSumQuestion | qualtrics/questions.py:491-615 | the intended builder succeeds exactly with a reconciled count of at least 2 and a selector of slider or bar, with each error otherwise; the choices, gridlines, HSLIDER/HBAR selector and `ChoiceTotal` "100"; `DataExportTag`, `QuestionText`, `QuestionJS`, `CSSliderMin` and `CSSliderMax` are the arguments (lines 586-611); `QuestionType` is "CS" (line 606) |
| Questions.ConstantSumVersionsAgreeOnWideRanges | qualtrics/questions.py:578-584 | with a range wider than 20 and a valid selector, the code as written and the intended builder agree |
| Questions.TimingQuestion | qualtrics/questions.py:624-652 | exactly the four page-timer fields under keys "1" to "4"; `QuestionType` is "Timing" (line 637) |
| QuestionScripts.JoinEnds | qualtrics/question_js.py:67 | `sep.join(parts)` is empty for no parts, and otherwise starts with the first part and ends with the last |
| QuestionScripts.JoinLength | qualtrics/question_js.py:67 | `sep.join(parts)` is as long as the parts together plus one separator between each two |
| QuestionScripts.JoinAppend | qualtrics/question_js.py:67 | joining one more part adds the separator and the part |
| QuestionScripts.EngineWrap | qualtrics/question_js.py:169-190 | the wrapping is the `addOn<method>(function(<args>){` prefix, the snippet verbatim between newlines, and `});` |
| QuestionScripts.EngineWrapInjective | qualtrics/question_js.py:169-190 | two snippets with the same wrapping are equal |
| QuestionScripts.ClickHandler | qualtrics/question_js.py:163-165 | the `this.questionclick = function(event, element) {` line and indentation, the snippet verbatim, then the newline, indentation and `};` |
| QuestionScripts.SetEmbeddedData | qualtrics/question_js.py:193-198 | the statement is `Qualtrics.SurveyEngine.setEmbeddedData("`, the key verbatim, `",`, the expression verbatim and `);` |
| QuestionScripts.FirstQuote | qualtrics/question_js.py:198 | the first double quote of a string, if any |
| QuestionScripts.SetEmbeddedDataRoundTrip | qualtrics/question_js.py:193-198 | a key without double quotes and the expression are read back from the `setEmbeddedData` statement |
| QuestionScripts.GetEmbeddedData | qualtrics/question_js.py:201-206 | the piped-text reference is `${e://Field/`, the key verbatim and `}` |
| QuestionScripts.GetEmbeddedDataRoundTrip | qualtrics/question_js.py:201-206 | `getEmbeddedData` and reading the field back are inverse to each other |
| QuestionScripts.QuestionJS.constructor | qualtrics/question_js.py:59-60 | a new builder has no snippets and an empty script |
| QuestionScripts.QuestionJS.Script | qualtrics/question_js.py:62-67 | `script()` is empty with no snippets; otherwise it starts with the first snippet, ends with the last, and is as long as all snippets plus a blank line between each two |
| QuestionScripts.QuestionJS.Attach | qualtrics/question_js.py:62-67 | a snippet goes at the end, and the script grows by a blank line and the snippet |
| QuestionScripts.QuestionJS.OnLoad | qualtrics/question_js.py:70-85 | attaches the `load`-wrapped snippet and returns the builder |
| QuestionScripts.QuestionJS.OnReady | qualtrics/question_js.py:88-102 | attaches the `Ready`-wrapped snippet and returns the builder |
| QuestionScripts.QuestionJS.OnSubmit | qualtrics/question_js.py:105-122 | attaches the `PageSubmit`-wrapped snippet, with argument `type` |
| QuestionScripts.QuestionJS.OnUnload | qualtrics/question_js.py:125-141 | attaches the `Unload`-wrapped snippet |
| QuestionScripts.QuestionJS.OnClick | qualtrics/question_js.py:144-166 | is `on_load` of the `this.questionclick` assignment |
| Blocks.Block.constructor | qualtrics/blocks.py:23-40 | the block holds a copy of the questions and its description |
| Blocks.Block.AppendQuestion | qualtrics/blocks.py:43-51 | appends at the end; the description is unchanged |
| Blocks.Block.AppendPageBreakAsWritten | qualtrics/blocks.py:54-67 | the code as written raises NameError for `PageBreak` and changes nothing |
| Blocks.Block.AppendPageBreak | qualtrics/blocks.py:54-67 | as documented: the same as appending a page break with `append_question` |
| Surveys.Merge | qualtrics/surveys.py:73-74 | `options \| kw_options` has the keys of both, and the right-hand value wins |
| Surveys.SetKeyLeavesOthers | qualtrics/surveys.py:120-263 | a setter storing one key changes that key alone |
| Surveys.Survey.constructor | qualtrics/surveys.py:47-74 | name, and options merged with the keyword options winning |
| Surveys.Survey.SetName | qualtrics/surveys.py:77-85 | sets the name; the options are unchanged |
| Surveys.Survey.SetOptions | qualtrics/surveys.py:88-120 | the in-place union: new keys added, the keyword options win, untouched keys kept |
| Surveys.Survey.SetHeaderHtml | qualtrics/surveys.py:123-145 | overwrites `Header` alone |
| Surveys.Survey.SetFooterHtml | qualtrics/surveys.py:148-170 | overwrites `Footer` alone |
| Surveys.Survey.SetCustomCss | qualtrics/surveys.py:173-193 | stores `{'customCSS': css}` under `CustomStyles` |
| Surveys.Survey.SetExternalCssUrl | qualtrics/surveys.py:196-217 | overwrites `ExternalCSS` alone |
| Surveys.Survey.SetShowBackButton | qualtrics/surveys.py:220-240 | stores the JSON text "true"/"false" under `BackButton` |
| Surveys.Survey.SetProgressBarDisplay | qualtrics/surveys.py:243-263 | overwrites `ProgressBarDisplay` alone |
| Surveys.SurveyOptionsData | qualtrics/surveys.py:795-809 | exactly the keys `BackButton` and `ProgressBarDisplay` |
| Surveys.SurveyOptionsDefaultsMatchSetters | qualtrics/surveys.py:795-809 | the wrapper's defaults equal what the two setters store with their defaults |
| Surveys.BasicSurvey.constructor | qualtrics/surveys.py:337-379 | name, merged options and a copy of the questions |
| Surveys.BasicSurvey.AppendQuestion | qualtrics/surveys.py:382-399 | appends and returns the question |
| Surveys.BasicSurvey.AppendPageBreak | qualtrics/surveys.py:402-412 | appends a page break |
| Surveys.BlockSurvey.constructor | qualtrics/surveys.py:489-526 | name, merged options and the blocks |
| Surveys.BlockSurvey.AppendBlock | qualtrics/surveys.py:529-553 | appends the block itself and returns it |
| Surveys.FlowSurvey.constructor | qualtrics/surveys.py:641-678 | name, merged options and a copy of the elements |
| Surveys.FlowSurvey.AppendFlow | qualtrics/surveys.py:681-695 | appends and returns the flow |
| Surveys.FlowSurvey.AppendBlock | qualtrics/surveys.py:698-704 | appends a block flow and returns the block |
| Surveys.FlowSurvey.Reflow | qualtrics/surveys.py:755-777 | the block-id map covers exactly the tree's blocks, the i-th distinct block gets the i-th server id, and compiling then never fails, with `Count` equal to the node count |
| Surveys.FirstIndex | qualtrics/surveys.py:757 | the first occurrence of a block |
| Surveys.Dedup | qualtrics/surveys.py:757 | the dictionary keys are exactly the blocks, with no repeats |
| Surveys.DedupFirstEncounterOrder | qualtrics/surveys.py:757 | the keys keep the order of first occurrence |
| Surveys.DedupCountsDistinct | qualtrics/surveys.py:757-759 | the number of keys is the number of distinct blocks |
| Surveys.Handles | qualtrics/surveys.py:757 | the block of each block flow, in order |
| Surveys.DistinctBlocks | qualtrics/surveys.py:755-757 | the keys are exactly the blocks of the tree's block flows, without repeats |
| Surveys.DistinctBlocksCount | qualtrics/surveys.py:757-759 | `n_blocks` is the number of distinct blocks the tree refers to |
| Surveys.AssignBlockIds | qualtrics/surveys.py:763-770 | the upload loop maps every distinct block, and only those, to the id returned for it |
| Legacy.ReconcileAsWritten | qualtrics.py:1143-1151 | giving both arguments always raises NameError for `num_slides`; otherwise it is the package reconciliation |
| Legacy.SliderAsWritten | qualtrics.py:1132-1185 | the typo's NameError when both arguments are given; any success is a slider with `GridLines` 10 (line 1164) |
| Legacy.SliderQuestion | qualtrics.py:1132-1185 | with the typo corrected: succeeds and fails exactly like the package builder, and builds the same record with `GridLines` 10 |
| Legacy.SliderTypoRefusesAgreeingArguments | qualtrics.py:1150 | agreeing labels and count are refused as written and accepted as intended; with either argument missing the two agree |
| Legacy.ConstantSumAsWritten | qualtrics.py:1187-1248 | the typo's NameError when both labels and count are given; with either omitted, exactly the corrected builder's result (including the selector error and every success); any success has `GridLines` 10 and `ChoiceTotal` "100" |
| Legacy.ConstantSumQuestion | qualtrics.py:1187-1248 | with the typo corrected: succeeds exactly with a reconciled count and selector slider or bar, whatever the range and count; each error; the choices; HSLIDER/HBAR; `GridLines` 10; the tag, text, script and slider range are the arguments |
| Legacy.ConstantSumTypoRefusesAgreeingArguments | qualtrics.py:1200-1212 | agreeing labels and count with selector slider or bar raise the NameError as written and succeed with the typo corrected |
| Legacy.ConstantSumVersionsCompared | qualtrics.py:1187-1248 | wherever the package builder succeeds, the legacy one does too, with the same record apart from `GridLines`; the legacy one alone accepts a single slider |
| Legacy.FlowSurvey.constructor | qualtrics.py:663-700 | name, merged options and a copy of the elements |
| Legacy.FlowSurvey.AppendFlow | qualtrics.py:703-711 | appends and returns nothing |

## Left out

- The REST client (`qualtrics/api.py`), the recipes (`qualtrics/recipes.py`), the progress-bar stand-in (`notqdm.py`), `example.py` and the package `__init__`. They are I/O or demonstration code and are not part of this model.
- The `create` methods of surveys, blocks and questions, which issue the API requests. Of `FlowSurvey.create`, the model keeps only the gathering of distinct blocks, the id assignment and the compilation. The ids the server returns are a parameter (`ids`) of `Surveys.FlowSurvey.Reflow`. The printing and the progress bar are left out.
- TextGraphicQuestion, MatrixTableQuestion and CaptchaQuestion are not modelled. They have no validation and no computed fields.
- The constant keys of each question record (`Language`, `ShowValue`, `Configuration` constants, `Type: "None"`) are dropped. They are the same for every question of a kind.
- Python's `repr` is modelled by `Base.Quoted` only for strings without quotes, backslashes or non-printable characters.
- Dictionary key order is not modelled, except in the insertion-ordered dictionary of distinct blocks (`Surveys.Dedup`).
- The `**kwargs` of a flow element are fixed per kind (`Flows.Config`). The free-form option values of `set_options` are two kinds of value (`Surveys.OptionValue`).
- Flow elements hold their children as values. A child that is grown after being appended is not seen through its parent, and sharing one child object between two parents is not modelled. Trees are finite by construction, so a flow that contains itself, on which the source's `compile` and `get_block_flows` recurse until Python's recursion limit raises `RecursionError`, cannot be expressed; deep but finite trees that exceed that limit in the source compile normally in the model. Block objects are identified by an integer handle.
- Flow ids are natural numbers. A negative starting `flow_id` is not modelled.
- Slider bounds are integers. Python also accepts floats there.
- `Flows.FlowElement.RootFlowData`: requires a RootFlow element. In the source, `flow_data` exists only on `RootFlow`.
- Questions.ConstantSumQuestion: `sum_max` is accepted and ignored, as in the source, which always writes `ChoiceTotal` "100".
- Block descriptions are not uploaded by the flow compiler and are kept only as a field of `Blocks.Block`.
- In the legacy copy, the flow classes (qualtrics.py:794-911), the `_Survey` setters (qualtrics.py:45-289), the text-entry, multiple-choice, option and timing builders, `QuestionJS` (qualtrics.py:1251-1290) and `SurveyOptions` behave the same as the package's and are covered by the package's modules. The legacy `FlowSurvey.create` gathers its distinct blocks with the same dictionary comprehension over `get_block_flows()` (qualtrics.py:762-766) that the package uses at qualtrics/surveys.py:757, so `Surveys.DistinctBlocks` and `Surveys.DistinctBlocksCount` cover it. The legacy `Block.append_page_break` (qualtrics.py:928-929) is `Blocks.Block.AppendPageBreak`.

## Findings

| source | as written | input that shows it | evidently intended | confidence | as-written member | corrected member |
|---|---|---|---|---|---|---|
| qualtrics/questions.py:572-584 | the `else` that should reject an unknown selector is attached to `if slider_diff > 20` | `ConstantSumQuestion("Q1", "", num_sliders=2, slider_min=0, slider_max=10, selector="bar")` raises "selector should be 'slider' or 'bar'"; an unknown selector with a range wider than 20 leaves `selector_string` unbound | the `else` belongs to the selector test, and gridlines follow the slider rule | high (not executed) | Questions.ConstantSumAsWritten, Questions.ConstantSumNarrowRangeRefused, Questions.ConstantSumBarWithTwoSlidersRefused | Questions.ConstantSumQuestion |
| qualtrics.py:1150 | the slider builder's agreement test compares against the undefined name `num_slides` | `SliderQuestion("Q1", "", num_sliders=2, choice_labels=["a", "b"])` raises NameError | the test compares against `num_sliders` | high (not executed) | Legacy.SliderAsWritten | Legacy.SliderQuestion |
| qualtrics.py:1206 | the constant-sum builder's agreement test compares against the same undefined name | `ConstantSumQuestion("Q1", "", num_sliders=2, choice_labels=["a", "b"])` raises NameError | the test compares against `num_sliders` | high (not executed) | Legacy.ConstantSumAsWritten, Legacy.ConstantSumTypoRefusesAgreeingArguments | Legacy.ConstantSumQuestion |
| qualtrics/blocks.py:54-67 | `append_page_break` calls `PageBreak()`, which the module never imports | `Block().append_page_break()` raises NameError | append a `PageBreak`, as the documentation says and the single-file copy does | high (not executed) | Blocks.Block.AppendPageBreakAsWritten | Blocks.Block.AppendPageBreak |
