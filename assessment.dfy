/**
  The assessment session (main.py:653-807): the fields that `main` keeps in
  `st.session_state`, the buttons and forms that change them, and the context
  that `generate_combined_evaluation` (main.py:121-126) builds from the
  answers. The language-model calls, the résumé parser and the text
  extractors are function parameters; the fresh UUID and the clock are plain
  parameters.
*/
module Assessment {
  import opened Wrappers
  import opened Text
  import opened Dicts
  import opened JsonValue
  import opened CandidateStore

  datatype Question = Question(id: string, text: string)

  /** The pages `current_page` names. */
  datatype Page = ResumePage | AssessmentPage | CombinedEvaluationPage | BrowserPage

  function Ids(questions: seq<Question>): (ids: seq<string>)
    ensures |ids| == |questions|
  {
    seq(|questions|, i requires 0 <= i < |questions| => questions[i].id)
  }

  /** A question list the session can run: at least one question, no id twice. */
  predicate WellFormedQuestions(questions: seq<Question>) {
    && |questions| > 0
    && forall i, j :: 0 <= i < j < |questions| ==> questions[i].id != questions[j].id
  }

  /** `reasoning_questions` (main.py:65-82); the question texts are parameters. */
  function ReasoningQuestions(pedTestingText: string, iphoneRebuildText: string): (qs: seq<Question>)
    ensures WellFormedQuestions(qs) && Ids(qs) == ["ped_testing", "iphone_rebuild"]
  {
    [Question("ped_testing", pedTestingText), Question("iphone_rebuild", iphoneRebuildText)]
  }

  /** `next(q for q in reasoning_questions if q["id"] == q_id)`; None where Python raises StopIteration. */
  function FindQuestion(questions: seq<Question>, id: string): (r: Option<Question>)
    ensures r.Some? <==> id in Ids(questions)
    ensures r.Some? ==> r.value in questions && r.value.id == id
  {
    if questions == [] then None
    else if questions[0].id == id then
      assert Ids(questions)[0] == id;
      Some(questions[0])
    else
      assert Ids(questions) == [questions[0].id] + Ids(questions[1..]);
      FindQuestion(questions[1..], id)
  }

  // ---------------------------------------------------------------------
  // The synthesis context (main.py:121-126)

  const ContextHeader := "Here are the candidate's responses and evaluations:\n\n"

  /** The three lines appended for one answered question. */
  function Block(questionText: string, response: string, evaluation: string): string {
    ("Question: " + questionText + "\n") + ("Response: " + response + "\n")
    + ("Evaluation: " + evaluation + "\n\n")
  }

  /** A response whose question exists and which has an evaluation. */
  predicate Resolvable(questions: seq<Question>, evaluations: Dict<string>, id: string) {
    FindQuestion(questions, id).Some? && HasKey(evaluations, id)
  }

  /** The first `n` responses are all resolvable. */
  predicate ResolvableUpTo(questions: seq<Question>, responses: Dict<string>, evaluations: Dict<string>, n: nat)
    requires n <= |responses|
  {
    n == 0
    || (ResolvableUpTo(questions, responses, evaluations, n - 1)
        && Resolvable(questions, evaluations, responses[n - 1].0))
  }

  lemma {:induction false} ResolvableUpToMeansEach(questions: seq<Question>, responses: Dict<string>, evaluations: Dict<string>, n: nat)
    requires n <= |responses|
    ensures ResolvableUpTo(questions, responses, evaluations, n)
        <==> forall i :: 0 <= i < n ==> Resolvable(questions, evaluations, responses[i].0)
  {
    if n > 0 {
      ResolvableUpToMeansEach(questions, responses, evaluations, n - 1);
    }
  }

  function BlockFor(questions: seq<Question>, evaluations: Dict<string>, item: (string, string)): string {
    var q := FindQuestion(questions, item.0);
    var e := Get(evaluations, item.0);
    if q.Some? && e.Some? then Block(q.value.text, item.1, e.value) else ""
  }

  /** One block per response, in the responses' insertion order. */
  function Blocks(questions: seq<Question>, responses: Dict<string>, evaluations: Dict<string>): (bs: seq<string>)
    ensures |bs| == |responses|
  {
    seq(|responses|, i requires 0 <= i < |responses| => BlockFor(questions, evaluations, responses[i]))
  }

  /** The blocks of the first `n` responses. */
  function BlocksUpTo(questions: seq<Question>, responses: Dict<string>, evaluations: Dict<string>, n: nat): string
    requires n <= |responses|
  {
    if n == 0 then ""
    else BlocksUpTo(questions, responses, evaluations, n - 1) + BlockFor(questions, evaluations, responses[n - 1])
  }

  lemma {:induction false} BlocksUpToIsConcat(questions: seq<Question>, responses: Dict<string>, evaluations: Dict<string>, n: nat)
    requires n <= |responses|
    ensures BlocksUpTo(questions, responses, evaluations, n) == Concat(Blocks(questions, responses, evaluations)[..n])
  {
    if n > 0 {
      BlocksUpToIsConcat(questions, responses, evaluations, n - 1);
      ConcatSnoc(Blocks(questions, responses, evaluations), n - 1);
    }
  }

  /**
    The text handed to the model for the combined evaluation; None where the
    loop raises (a response without its question or its evaluation).
  */
  function SynthesisContext(questions: seq<Question>, responses: Dict<string>, evaluations: Dict<string>): Option<string> {
    if ResolvableUpTo(questions, responses, evaluations, |responses|)
    then Some(ContextHeader + BlocksUpTo(questions, responses, evaluations, |responses|))
    else None
  }

  /** A context that exists is the header followed by every block. */
  lemma ContextIsHeaderAndBlocks(questions: seq<Question>, responses: Dict<string>, evaluations: Dict<string>)
    requires SynthesisContext(questions, responses, evaluations).Some?
    ensures SynthesisContext(questions, responses, evaluations).value
         == ContextHeader + Concat(Blocks(questions, responses, evaluations))
  {
    var bs := Blocks(questions, responses, evaluations);
    BlocksUpToIsConcat(questions, responses, evaluations, |responses|);
    assert bs[..|responses|] == bs;
  }

  /** In a context that exists, block `n` quotes response `n` with its question and evaluation. */
  lemma BlockQuotesResponse(questions: seq<Question>, responses: Dict<string>, evaluations: Dict<string>, n: nat)
    requires SynthesisContext(questions, responses, evaluations).Some?
    requires n < |responses|
    ensures Resolvable(questions, evaluations, responses[n].0)
    ensures var id := responses[n].0;
            Blocks(questions, responses, evaluations)[n]
            == Block(FindQuestion(questions, id).value.text, responses[n].1, Get(evaluations, id).value)
  {
    ResolvableUpToMeansEach(questions, responses, evaluations, |responses|);
  }

  /**
    Each block stands in the context right after the header and the blocks
    before it: response `n`'s block is found there, and a block for an
    earlier response `m` ends no later than it starts.
  */
  lemma ContextQuotesEachResponse(questions: seq<Question>, responses: Dict<string>, evaluations: Dict<string>, m: nat, n: nat)
    requires m < n < |responses|
    ensures var bs := Blocks(questions, responses, evaluations);
            var ctx := ContextHeader + Concat(bs);
            var o := |ContextHeader| + |Concat(bs[..n])|;
            && o + |bs[n]| <= |ctx| && ctx[o..o + |bs[n]|] == bs[n]
            && |ContextHeader| + |Concat(bs[..m])| + |bs[m]| <= o
  {
    LaterPieceBehindHead(ContextHeader, Blocks(questions, responses, evaluations), m, n);
  }

  /** Appending the three lines for response `i` extends the context by its block. */
  lemma ContextStep(questions: seq<Question>, responses: Dict<string>, evaluations: Dict<string>, i: nat,
                    q: Question, response: string, e: string, before: string, after: string)
    requires i < |responses| && responses[i].1 == response
    requires FindQuestion(questions, responses[i].0) == Some(q)
    requires Get(evaluations, responses[i].0) == Some(e)
    requires before == ContextHeader + BlocksUpTo(questions, responses, evaluations, i)
    requires after == before + ("Question: " + q.text + "\n") + ("Response: " + response + "\n")
                      + ("Evaluation: " + e + "\n\n")
    ensures after == ContextHeader + BlocksUpTo(questions, responses, evaluations, i + 1)
  {
    var x, y, z := "Question: " + q.text + "\n", "Response: " + response + "\n", "Evaluation: " + e + "\n\n";
    assert BlockFor(questions, evaluations, responses[i]) == x + y + z;
    AppendThree(before, x, y, z);
    ConcatAssoc(ContextHeader, BlocksUpTo(questions, responses, evaluations, i), x + y + z);
  }

  /** One response without its question or its evaluation leaves no context. */
  lemma NoContextWithout(questions: seq<Question>, responses: Dict<string>, evaluations: Dict<string>, i: nat)
    requires i < |responses|
    requires FindQuestion(questions, responses[i].0).None? || Get(evaluations, responses[i].0).None?
    ensures SynthesisContext(questions, responses, evaluations) == None
  {
    assert !Resolvable(questions, evaluations, responses[i].0);
    ResolvableUpToMeansEach(questions, responses, evaluations, |responses|);
  }

  /** The loop of main.py:121-126. */
  method BuildSynthesisContext(questions: seq<Question>, responses: Dict<string>, evaluations: Dict<string>)
    returns (context: Option<string>)
    ensures context == SynthesisContext(questions, responses, evaluations)
  {
    var ctx := ContextHeader;
    for i := 0 to |responses|
      invariant ResolvableUpTo(questions, responses, evaluations, i)
      invariant ctx == ContextHeader + BlocksUpTo(questions, responses, evaluations, i)
    {
      var (id, response) := responses[i];
      var question := FindQuestion(questions, id);
      if question.None? {
        NoContextWithout(questions, responses, evaluations, i);
        return None;
      }
      ghost var before := ctx;
      ctx := ctx + ("Question: " + question.value.text + "\n");
      ctx := ctx + ("Response: " + response + "\n");
      var evaluation := Get(evaluations, id);
      if evaluation.None? {
        NoContextWithout(questions, responses, evaluations, i);
        return None;
      }
      ctx := ctx + ("Evaluation: " + evaluation.value + "\n\n");
      ContextStep(questions, responses, evaluations, i, question.value, response, evaluation.value, before, ctx);
    }
    context := Some(ctx);
  }

  /**
    Once every question has a response and an evaluation, with the keys in
    question order, the context can be built.
  */
  lemma AllAnsweredResolves(questions: seq<Question>, responses: Dict<string>, evaluations: Dict<string>)
    requires |responses| <= |evaluations| <= |questions|
    requires Keys(responses) == Ids(questions)[..|responses|]
    requires Keys(evaluations) == Ids(questions)[..|evaluations|]
    ensures SynthesisContext(questions, responses, evaluations).Some?
  {
    ResolvableUpToMeansEach(questions, responses, evaluations, |responses|);
    forall i | 0 <= i < |responses| ensures Resolvable(questions, evaluations, responses[i].0) {
      var id := responses[i].0;
      assert id == Keys(responses)[i] == Ids(questions)[i];
      assert id == Keys(evaluations)[i];
    }
  }

  // ---------------------------------------------------------------------
  // The résumé form (main.py:689-698)

  /** An uploaded file: its MIME type and the text its extractor returns. */
  datatype Upload = Upload(mimeType: string, extracted: string)

  const PdfType := "application/pdf"
  const DocxType := "application/vnd.openxmlformats-officedocument.wordprocessingml.document"

  /**
    The text the form submits, as main.py:690-698 is written: line 690 resets
    `resume_text` before the pasted-text branch reads it, so pasted text is
    never used.
  */
  function ResumeInputAsWritten(upload: Option<Upload>, pasted: string): string {
    var resumeText := "";
    if upload.Some? then
      if upload.value.mimeType == PdfType || upload.value.mimeType == DocxType then upload.value.extracted
      else resumeText
    else if !IsBlank(resumeText) then resumeText
    else resumeText
  }

  /** A non-blank pasted résumé with no file uploaded is dropped: the form submits nothing. */
  lemma PastedTextIsLostAsWritten()
    ensures ResumeInputAsWritten(None, "Jane Doe, Analyst") == ""
    ensures ResumeInput(None, "Jane Doe, Analyst") == "Jane Doe, Analyst"
  {
    assert !IsSpace('J');
    assert !IsBlank("Jane Doe, Analyst") by { BlankIffAllSpace("Jane Doe, Analyst"); }
  }

  /** The text the form is evidently meant to submit: the upload's, else the pasted text. */
  function ResumeInput(upload: Option<Upload>, pasted: string): (text: string)
    ensures upload.None? && !AllSpace(pasted) ==> text == pasted
    ensures upload.None? && AllSpace(pasted) ==> text == ""
    ensures upload.Some? ==> text == ResumeInputAsWritten(upload, pasted)
  {
    BlankIffAllSpace(pasted);
    if upload.Some? then
      if upload.value.mimeType == PdfType || upload.value.mimeType == DocxType then upload.value.extracted
      else ""
    else if !IsBlank(pasted) then pasted
    else ""
  }

  /**
    `format_resume` returns for what `parse_resume` gives it: None, or a
    dict it can call `.get` on.
  */
  predicate Renders(parsed: Json) {
    parsed.Null? || parsed.Object?
  }

  // ---------------------------------------------------------------------
  // The record saved after the last answer (main.py:763-772)

  function SubmittedRecord(resume: Json, responses: Dict<string>, evaluations: Dict<string>, finalEvaluation: string): Dict<Json> {
    [("reason", Str(DefaultReason)), ("test_type", Str(DefaultTestType)), ("resume", resume),
     ("responses", Object(MapValues(responses, (s: string) => Str(s)))),
     ("evaluations", Object(MapValues(evaluations, (s: string) => Str(s)))),
     ("final_evaluation", Str(finalEvaluation))]
  }

  /**
    The shape the session's fields keep: the index names a question; the
    responses and the evaluations hold the questions answered so far, in
    question order, with the response slot of the current question possibly
    cleared ahead of its answer.
  */
  ghost predicate SessionShape(questions: seq<Question>, index: nat, responses: Dict<string>, evaluations: Dict<string>) {
    && WellFormedQuestions(questions)
    && index < |questions|
    && index <= |evaluations| <= |responses| <= index + 1
    && Keys(responses) == Ids(questions)[..|responses|]
    && Keys(evaluations) == Ids(questions)[..|evaluations|]
  }

  /** Storing the answer and the evaluation for the current question keeps the shape. */
  lemma AnswerKeepsShape(questions: seq<Question>, index: nat, responses: Dict<string>, evaluations: Dict<string>,
                         answer: string, evaluation: string)
    requires SessionShape(questions, index, responses, evaluations)
    ensures var id := Ids(questions)[index];
            var r, e := Put(responses, id, answer), Put(evaluations, id, evaluation);
            SessionShape(questions, index, r, e) && |r| == |e| == index + 1
  {
    AnswerSlot(questions, responses, index, answer);
    AnswerSlot(questions, evaluations, index, evaluation);
  }

  /** Moving on to question `index` and clearing its response slot keeps the shape. */
  lemma ClearingKeepsShape(questions: seq<Question>, index: nat, responses: Dict<string>, evaluations: Dict<string>)
    requires WellFormedQuestions(questions) && 0 < index < |questions|
    requires Keys(responses) == Ids(questions)[..index]
    requires Keys(evaluations) == Ids(questions)[..index]
    ensures SessionShape(questions, index, Put(responses, Ids(questions)[index], ""), evaluations)
  {
    AnswerSlot(questions, responses, index, "");
  }

  /** The session state of `main`. */
  class Session {
    const questions: seq<Question>
    var resumeParsed: bool
    var questionIndex: nat
    var responses: Dict<string>
    var evaluations: Dict<string>
    var combinedEvaluation: Option<string>
    var currentPage: Page
    var parsedResumeData: Json

    ghost predicate Valid()
      reads this
    {
      SessionShape(questions, questionIndex, responses, evaluations)
    }

    /** The initialisation of main.py:653-666. */
    constructor(qs: seq<Question>)
      requires WellFormedQuestions(qs)
      ensures Valid()
      ensures questions == qs && !resumeParsed && questionIndex == 0
      ensures responses == [] && evaluations == [] && combinedEvaluation == None
      ensures currentPage == ResumePage && parsedResumeData == Null
    {
      questions := qs;
      resumeParsed := false;
      questionIndex := 0;
      responses := [];
      evaluations := [];
      combinedEvaluation := None;
      currentPage := ResumePage;
      parsedResumeData := Null;
    }

    /** The question the assessment page shows. */
    function CurrentQuestion(): (q: Question)
      reads this
      requires Valid()
      ensures q in questions && q == questions[questionIndex]
    {
      questions[questionIndex]
    }

    /** The sidebar's "New Assessment" (main.py:674-676): only the page changes. */
    method NewAssessment()
      requires Valid()
      modifies this
      ensures Valid() && currentPage == ResumePage
      ensures resumeParsed == old(resumeParsed) && questionIndex == old(questionIndex)
      ensures responses == old(responses) && evaluations == old(evaluations)
      ensures combinedEvaluation == old(combinedEvaluation) && parsedResumeData == old(parsedResumeData)
    {
      currentPage := ResumePage;
    }

    /** The sidebar's "View All Candidates" (main.py:677-679). */
    method ViewCandidates()
      requires Valid()
      modifies this
      ensures Valid() && currentPage == BrowserPage
      ensures resumeParsed == old(resumeParsed) && questionIndex == old(questionIndex)
      ensures responses == old(responses) && evaluations == old(evaluations)
      ensures combinedEvaluation == old(combinedEvaluation) && parsedResumeData == old(parsedResumeData)
    {
      currentPage := BrowserPage;
    }

    /**
      The résumé form's "Submit" (main.py:689-716). A non-empty text is
      parsed and rendered. When `format_resume` returns, the résumé is marked
      parsed and the parse result is kept. It returns for None and for a
      dict; any other result, such as the error string `parse_resume_with_gpt`
      returns without an API key (main.py:167-168), makes `parsed_data.get`
      raise at main.py:412 before any state is set. An empty text changes
      nothing.
    */
    method SubmitResume(upload: Option<Upload>, pasted: string, parse: string -> Json)
      requires Valid() && currentPage == ResumePage
      modifies this
      ensures Valid() && currentPage == ResumePage
      ensures var text := ResumeInput(upload, pasted);
              if text != "" && Renders(parse(text)) then resumeParsed && parsedResumeData == parse(text)
              else resumeParsed == old(resumeParsed) && parsedResumeData == old(parsedResumeData)
      ensures questionIndex == old(questionIndex)
      ensures responses == old(responses) && evaluations == old(evaluations)
      ensures combinedEvaluation == old(combinedEvaluation)
    {
      var resumeText := ResumeInput(upload, pasted);
      if resumeText != "" {
        var parsedData := parse(resumeText);
        if Renders(parsedData) {
          resumeParsed := true;
          parsedResumeData := parsedData;
        }
      }
    }

    /** "Take Assessment" (main.py:720-722), shown on the résumé page whatever was submitted. */
    method TakeAssessment()
      requires Valid() && currentPage == ResumePage
      modifies this
      ensures Valid() && currentPage == AssessmentPage
      ensures resumeParsed == old(resumeParsed) && questionIndex == old(questionIndex)
      ensures responses == old(responses) && evaluations == old(evaluations)
      ensures combinedEvaluation == old(combinedEvaluation) && parsedResumeData == old(parsedResumeData)
    {
      currentPage := AssessmentPage;
    }

    /**
      "Submit Answer" on the assessment page (main.py:736-778). A blank answer
      changes nothing and saves nothing; any other answer is accepted.
    */
    method SubmitAnswer(answer: string, grade: string -> string, synthesize: string -> string,
                        newId: string, now: string)
      returns (saved: Option<Dict<Json>>)
      requires Valid() && currentPage == AssessmentPage
      modifies this
      ensures Valid()
      ensures IsBlank(answer) ==>
                && questionIndex == old(questionIndex) && currentPage == old(currentPage)
                && responses == old(responses) && evaluations == old(evaluations)
                && combinedEvaluation == old(combinedEvaluation) && saved == None
      ensures !IsBlank(answer) ==> Accepted(old(questionIndex), old(responses), old(evaluations), old(combinedEvaluation),
                                           answer, grade, synthesize, newId, now, saved)
      ensures resumeParsed == old(resumeParsed) && parsedResumeData == old(parsedResumeData)
    {
      saved := None;
      if !IsBlank(answer) {
        saved := AcceptAnswer(answer, grade, synthesize, newId, now);
      }
    }

    /**
      The state after a non-blank answer to the question at `index`: the
      answer and `grade`'s evaluation of it are stored under the question's
      id; before the last question the index moves on and the next
      question's response is set to ""; at the last one the combined
      evaluation is made from the context, the record returned in `saved` is
      written with its defaults filled in, and the page changes.
    */
    ghost predicate Accepted(index: nat, oldResponses: Dict<string>, oldEvaluations: Dict<string>,
                             oldCombined: Option<string>, answer: string, grade: string -> string,
                             synthesize: string -> string, newId: string, now: string,
                             saved: Option<Dict<Json>>)
      reads this
      requires index < |questions|
    {
      var id := questions[index].id;
      var answered := Put(oldResponses, id, answer);
      && evaluations == Put(oldEvaluations, id, grade(answer))
      && if index < |questions| - 1 then
           && questionIndex == index + 1
           && responses == Put(answered, questions[index + 1].id, "")
           && currentPage == AssessmentPage
           && combinedEvaluation == oldCombined && saved == None
         else
           var ctx := SynthesisContext(questions, responses, evaluations);
           && questionIndex == index && responses == answered
           && ctx.Some? && combinedEvaluation == Some(synthesize(ctx.value))
           && currentPage == CombinedEvaluationPage
           && saved == Some(WithDefaults(
                SubmittedRecord(parsedResumeData, responses, evaluations, combinedEvaluation.value),
                newId, now))
    }

    /** The branch of "Submit Answer" taken for a non-blank answer (main.py:737-776). */
    method AcceptAnswer(answer: string, grade: string -> string, synthesize: string -> string,
                        newId: string, now: string)
      returns (saved: Option<Dict<Json>>)
      requires Valid() && currentPage == AssessmentPage
      modifies this
      ensures Valid()
      ensures Accepted(old(questionIndex), old(responses), old(evaluations), old(combinedEvaluation),
                       answer, grade, synthesize, newId, now, saved)
      ensures resumeParsed == old(resumeParsed) && parsedResumeData == old(parsedResumeData)
    {
      var id := questions[questionIndex].id;
      var evaluation := grade(answer);
      assert id == Ids(questions)[questionIndex];
      StoreAnswer(id, answer, evaluation);
      if questionIndex < |questions| - 1 {
        NextQuestion();
        saved := None;
      } else {
        saved := Conclude(synthesize, newId, now);
      }
    }

    /**
      After the last answer: the combined evaluation made from the context,
      the record saved with its defaults filled in, and the page changed.
    */
    method Conclude(synthesize: string -> string, newId: string, now: string)
      returns (saved: Option<Dict<Json>>)
      requires Valid() && questionIndex == |questions| - 1
      requires |responses| == |evaluations| == |questions|
      modifies this
      ensures Valid()
      ensures var ctx := SynthesisContext(questions, responses, evaluations);
              && ctx.Some? && combinedEvaluation == Some(synthesize(ctx.value))
              && saved == Some(WithDefaults(
                   SubmittedRecord(parsedResumeData, responses, evaluations, combinedEvaluation.value),
                   newId, now))
      ensures currentPage == CombinedEvaluationPage
      ensures resumeParsed == old(resumeParsed) && parsedResumeData == old(parsedResumeData)
      ensures questionIndex == old(questionIndex)
      ensures responses == old(responses) && evaluations == old(evaluations)
    {
      AllAnsweredResolves(questions, responses, evaluations);
      var context := BuildSynthesisContext(questions, responses, evaluations);
      combinedEvaluation := Some(synthesize(context.value));
      var candidate := new CandidateRecord(
        SubmittedRecord(parsedResumeData, responses, evaluations, combinedEvaluation.value));
      var _ := candidate.Save(newId, now);
      saved := Some(candidate.fields);
      currentPage := CombinedEvaluationPage;
    }

    /** `responses[id] = answer` and `evaluations[id] = evaluation` for the current question. */
    method StoreAnswer(id: string, answer: string, evaluation: string)
      requires Valid() && id == Ids(questions)[questionIndex]
      modifies this
      ensures responses == Put(old(responses), id, answer)
      ensures evaluations == Put(old(evaluations), id, evaluation)
      ensures Valid() && |responses| == |evaluations| == questionIndex + 1
      ensures resumeParsed == old(resumeParsed) && questionIndex == old(questionIndex)
      ensures combinedEvaluation == old(combinedEvaluation) && parsedResumeData == old(parsedResumeData)
      ensures currentPage == old(currentPage)
    {
      var r, e := Put(responses, id, answer), Put(evaluations, id, evaluation);
      AnswerKeepsShape(questions, questionIndex, responses, evaluations, answer, evaluation);
      responses, evaluations := r, e;
    }

    /** The index moves on and the next question's response is set to "" (main.py:749-752). */
    method NextQuestion()
      requires WellFormedQuestions(questions) && questionIndex < |questions| - 1
      requires |responses| == |evaluations| == questionIndex + 1
      requires Keys(responses) == Ids(questions)[..questionIndex + 1]
      requires Keys(evaluations) == Ids(questions)[..questionIndex + 1]
      modifies this
      ensures questionIndex == old(questionIndex) + 1
      ensures responses == Put(old(responses), questions[questionIndex].id, "")
      ensures Valid()
      ensures evaluations == old(evaluations)
      ensures resumeParsed == old(resumeParsed) && combinedEvaluation == old(combinedEvaluation)
      ensures parsedResumeData == old(parsedResumeData) && currentPage == old(currentPage)
    {
      questionIndex := questionIndex + 1;
      var next := questions[questionIndex].id;
      assert next == Ids(questions)[questionIndex];
      ClearNextResponse(next);
    }

    /** `responses[next_id] = ""` once the index has moved on. */
    method ClearNextResponse(next: string)
      requires WellFormedQuestions(questions) && 0 < questionIndex < |questions|
      requires next == Ids(questions)[questionIndex]
      requires Keys(responses) == Ids(questions)[..questionIndex]
      requires Keys(evaluations) == Ids(questions)[..questionIndex]
      modifies this
      ensures responses == Put(old(responses), next, "")
      ensures Valid()
      ensures evaluations == old(evaluations) && questionIndex == old(questionIndex)
      ensures resumeParsed == old(resumeParsed) && combinedEvaluation == old(combinedEvaluation)
      ensures parsedResumeData == old(parsedResumeData) && currentPage == old(currentPage)
    {
      ClearingKeepsShape(questions, questionIndex, responses, evaluations);
      responses := Put(responses, next, "");
    }

    /**
      "Start Over" (main.py:799-807), on the combined-evaluation page, which
      shows only when the combined evaluation is a non-empty string. The
      parsed résumé is kept.
    */
    method StartOver()
      requires Valid() && currentPage == CombinedEvaluationPage
      requires combinedEvaluation.Some? && combinedEvaluation.value != ""
      modifies this
      ensures Valid()
      ensures !resumeParsed && questionIndex == 0 && responses == [] && evaluations == []
      ensures combinedEvaluation == None && currentPage == ResumePage
      ensures parsedResumeData == old(parsedResumeData)
    {
      resumeParsed := false;
      questionIndex := 0;
      responses := [];
      evaluations := [];
      combinedEvaluation := None;
      currentPage := ResumePage;
    }
  }

  /**
    Storing under the id of question `n` into a dictionary that holds the
    ids of the first `n` or `n + 1` questions leaves it holding exactly the
    first `n + 1`.
  */
  lemma AnswerSlot(questions: seq<Question>, d: Dict<string>, n: nat, v: string)
    requires WellFormedQuestions(questions) && n < |questions|
    requires n <= |d| <= n + 1 && Keys(d) == Ids(questions)[..|d|]
    ensures var r := Put(d, Ids(questions)[n], v);
            |r| == n + 1 && Keys(r) == Ids(questions)[..n + 1]
  {
    var ids := Ids(questions);
    var id := ids[n];
    if |d| == n {
      forall i | 0 <= i < |d| ensures Keys(d)[i] != id {
        assert Keys(d)[i] == ids[i] == questions[i].id;
      }
      assert !HasKey(d, id);
      assert ids[..n + 1] == ids[..n] + [id];
    } else {
      assert Keys(d)[n] == id;
      assert HasKey(d, id);
    }
    assert |Put(d, id, v)| == |Keys(Put(d, id, v))|;
  }
}
