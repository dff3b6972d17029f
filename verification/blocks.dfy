/** The question block of qualtrics/blocks.py: a description and a list of
    questions grown in place. */
module Blocks {
  import opened Base
  import opened Questions

  class Block {
    var questions: seq<Question>
    var description: string

    /** `Block(questions=(), description="Standard Question Block")`: the
        block keeps its own copy of the questions, so it shares nothing with
        the caller's collection. */
    constructor(questions: seq<Question> := [], description: string := "Standard Question Block")
      ensures this.questions == questions && this.description == description
    {
      this.questions := questions;
      this.description := description;
    }

    /** `append_question`: the question goes at the end, earlier questions
        and the description stay as they were; nothing is returned. */
    method AppendQuestion(question: Question)
      modifies this
      ensures questions == old(questions) + [question]
      ensures description == old(description)
    {
      questions := questions + [question];
    }

    /** `append_page_break` as written: the module never imports
        `PageBreak`, so the call raises `NameError` before the list is
        touched. */
    method AppendPageBreakAsWritten() returns (r: Result<()>)
      modifies this
      ensures r == Err(NameError("PageBreak"))
      ensures questions == old(questions) && description == old(description)
    {
      r := Err(NameError("PageBreak"));
    }

    /** `append_page_break` as its documentation describes it, and as the
        single-file copy of the library behaves: the same as appending a
        page break with `append_question`. */
    method AppendPageBreak()
      modifies this
      ensures questions == old(questions) + [PageBreak]
      ensures description == old(description)
    {
      AppendQuestion(PageBreak);
    }
  }
}
