/**
  The records of the question bank: a difficulty tier, a topic tag, an
  optional question type, the prompt text and an optional code snippet.
 */
module Questions {
  import opened Wrappers

  /** The three tiers; the source spells them "easy", "medium" and "hard". */
  datatype Difficulty = Easy | Medium | Hard

  /** The position of a tier on the easy-to-hard scale. */
  function Rank(d: Difficulty): (n: nat)
    ensures n < 3
    ensures d == Easy <==> n == 0
    ensures d == Hard <==> n == 2
  {
    match d
    case Easy => 0
    case Medium => 1
    case Hard => 2
  }

  /**
    One bank record. `questionType` is optional in the record's shape (the
    selector defaults it); `codeSnippet` is present only on coding and
    debugging questions.
   */
  datatype Question = Question(
    difficulty: Difficulty,
    topic: string,
    questionType: Option<string>,
    text: string,
    codeSnippet: Option<string>)

  /** JavaScript truthiness of an optional string: given and not the empty string. */
  predicate Truthy(s: Option<string>)
  {
    s.Some? && |s.value| > 0
  }

  /** `qs` holds at least one question of tier `d`. */
  predicate HasTier(qs: seq<Question>, d: Difficulty)
  {
    exists q :: q in qs && q.difficulty == d
  }

  /** `qs` holds two questions of tier `d` with different topics. */
  predicate HasTwoTopics(qs: seq<Question>, d: Difficulty)
  {
    exists i, j :: 0 <= i < |qs| && 0 <= j < |qs| && qs[i].difficulty == d && qs[j].difficulty == d && qs[i].topic != qs[j].topic
  }

  /** Two topics in a tier leave, for any topic, a question of that tier on another one. */
  lemma TwoTopicsAvoidAny(qs: seq<Question>, d: Difficulty, t: string)
    requires HasTwoTopics(qs, d)
    ensures HasTier(qs, d)
    ensures exists q :: q in qs && q.difficulty == d && q.topic != t
  {
    var i, j :| 0 <= i < |qs| && 0 <= j < |qs| && qs[i].difficulty == d && qs[j].difficulty == d && qs[i].topic != qs[j].topic;
    if qs[i].topic == t {
      assert qs[j] in qs && qs[j].topic != t;
    } else {
      assert qs[i] in qs && qs[i].topic != t;
    }
  }
}
