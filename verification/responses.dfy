/**
  The record `generateNextQuestion` returns: four fields always, and a
  code snippet only when the chosen question carries a non-empty one.
 */
module Responses {
  import opened Wrappers
  import opened Questions

  /** The type reported when a record gives none (or an empty one). */
  const DefaultQuestionType: string := "conceptual"

  /**
    The response fields: `question`, `topic_tag`, `next_question_difficulty`,
    `question_type` and the optional `code_snippet`; there are no others.
   */
  datatype Response = Response(
    question: string,
    topicTag: string,
    nextQuestionDifficulty: Difficulty,
    questionType: string,
    codeSnippet: Option<string>)

  /** A record its response describes exactly: a non-empty type, and no empty snippet. */
  predicate Canonical(q: Question)
  {
    Truthy(q.questionType) && (q.codeSnippet.None? || Truthy(q.codeSnippet))
  }

  /** Projects the chosen record into the response. */
  function ToResponse(q: Question): (r: Response)
    ensures r.question == q.text && r.topicTag == q.topic && r.nextQuestionDifficulty == q.difficulty
    ensures Truthy(q.questionType) ==> r.questionType == q.questionType.value
    ensures !Truthy(q.questionType) ==> r.questionType == DefaultQuestionType
    ensures r.codeSnippet.Some? <==> Truthy(q.codeSnippet)
    ensures r.codeSnippet.Some? ==> r.codeSnippet == q.codeSnippet
  {
    Response(
      q.text,
      q.topic,
      q.difficulty,
      if Truthy(q.questionType) then q.questionType.value else DefaultQuestionType,
      if Truthy(q.codeSnippet) then q.codeSnippet else None)
  }

  /** The record a response describes, read back field by field. */
  function FromResponse(r: Response): Question
  {
    Question(r.nextQuestionDifficulty, r.topicTag, Some(r.questionType), r.question, r.codeSnippet)
  }

  /** The response loses nothing of a canonical record. */
  lemma ResponseRoundTrip(q: Question)
    requires Canonical(q)
    ensures FromResponse(ToResponse(q)) == q
  {
  }

  /** Every response reads back as a canonical record with the same response. */
  lemma ResponseIsCanonical(q: Question)
    ensures Canonical(FromResponse(ToResponse(q)))
    ensures ToResponse(FromResponse(ToResponse(q))) == ToResponse(q)
  {
  }

  /** Two canonical records with the same response are the same record. */
  lemma ResponseDeterminesRecord(q1: Question, q2: Question)
    requires Canonical(q1) && Canonical(q2)
    requires ToResponse(q1) == ToResponse(q2)
    ensures q1 == q2
  {
    ResponseRoundTrip(q1);
    ResponseRoundTrip(q2);
  }
}
