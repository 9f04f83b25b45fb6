/**
  The adaptive question selector of backend/questions.js, stated over any
  list of allowed roles and any bank, so that its fallback branches can be
  studied on banks other than the shipped one.
 */
module Selector {
  import opened Wrappers
  import opened Questions
  import opened Responses

  /** The two errors `generateNextQuestion` throws; each names the requested role. */
  datatype GenError = UnsupportedRole(role: string) | NoQuestions(role: string)

  /** The thrown error's message text; the offending role is its suffix. */
  function ErrorMessage(e: GenError): (m: string)
    ensures |m| > |e.role| && m[|m| - |e.role|..] == e.role
  {
    match e
    case UnsupportedRole(role) => "Unsupported role: " + role
    case NoQuestions(role) => "No questions configured for role: " + role
  }

  /** Distinct errors never share a message. */
  lemma ErrorMessageInjective(e1: GenError, e2: GenError)
    ensures ErrorMessage(e1) == ErrorMessage(e2) ==> e1 == e2
  {
    if e1.UnsupportedRole? != e2.UnsupportedRole? {
      assert ErrorMessage(e1)[0] != ErrorMessage(e2)[0];
    } else if ErrorMessage(e1) == ErrorMessage(e2) {
      var k := |ErrorMessage(e1)| - |e1.role|;
      assert ErrorMessage(e1)[k..] == e1.role;
      assert ErrorMessage(e2)[k..] == e2.role;
    }
  }

  /**
    The difficulty policy: no score yet (null or NaN) starts easy, a score
    of at most 4 stays easy, 5 to 7 is medium, anything above 7 is hard.
   */
  function PickNextDifficulty(lastScore: Option<int>): (d: Difficulty)
    ensures d == Easy <==> lastScore.None? || lastScore.value <= 4
    ensures d == Medium <==> lastScore.Some? && 5 <= lastScore.value <= 7
    ensures d == Hard <==> lastScore.Some? && lastScore.value >= 8
  {
    if lastScore.None? then Easy
    else if lastScore.value <= 4 then Easy
    else if lastScore.value <= 7 then Medium
    else Hard
  }

  /** A better score never lowers the tier, and no score is the lowest tier. */
  lemma PickNextDifficultyMonotone(s1: int, s2: int)
    requires s1 <= s2
    ensures Rank(PickNextDifficulty(Some(s1))) <= Rank(PickNextDifficulty(Some(s2)))
    ensures Rank(PickNextDifficulty(None)) <= Rank(PickNextDifficulty(Some(s1)))
  {
  }

  /** The tier changes between one score and the next exactly at 4 to 5 and at 7 to 8. */
  lemma PickNextDifficultyBoundaries(s: int)
    ensures PickNextDifficulty(Some(s)) != PickNextDifficulty(Some(s + 1)) <==> s == 4 || s == 7
    ensures s == 4 ==> PickNextDifficulty(Some(s)) == Easy && PickNextDifficulty(Some(s + 1)) == Medium
    ensures s == 7 ==> PickNextDifficulty(Some(s)) == Medium && PickNextDifficulty(Some(s + 1)) == Hard
  {
  }

  /** Array.prototype.filter: the elements `keep` accepts, in order, with their multiplicities. */
  function Filter<T(!new)>(s: seq<T>, keep: T -> bool): (r: seq<T>)
    ensures |r| <= |s|
    ensures forall x :: x in r <==> x in s && keep(x)
    ensures forall x :: multiset(r)[x] == if keep(x) then multiset(s)[x] else 0
    decreases |s|
  {
    if |s| == 0 then []
    else
      assert s == [s[0]] + s[1..];
      if keep(s[0]) then [s[0]] + Filter(s[1..], keep) else Filter(s[1..], keep)
  }

  /** The role's questions of the target tier. */
  function ByDifficulty(questions: seq<Question>, target: Difficulty): (r: seq<Question>)
    ensures forall q :: q in r <==> q in questions && q.difficulty == target
    ensures |r| == 0 <==> !HasTier(questions, target)
  {
    Filter(questions, (q: Question) => q.difficulty == target)
  }

  /**
    The soft topic filter: drop candidates on the last topic, unless that
    would drop them all. It never empties a non-empty list.
   */
  function AvoidTopic(candidates: seq<Question>, lastTopic: Option<string>): (r: seq<Question>)
    ensures |r| == 0 <==> |candidates| == 0
    ensures forall q :: q in r ==> q in candidates
    ensures forall q :: q in candidates && (!Truthy(lastTopic) || q.topic != lastTopic.value) ==> q in r
    ensures Truthy(lastTopic) && (exists q :: q in candidates && q.topic != lastTopic.value) ==>
              forall q :: q in r ==> q.topic != lastTopic.value
    ensures Truthy(lastTopic) && (forall q :: q in candidates ==> q.topic == lastTopic.value) ==>
              r == candidates
    ensures !Truthy(lastTopic) ==> r == candidates
  {
    if Truthy(lastTopic) then
      var t := lastTopic.value;
      var nonRepeats := Filter(candidates, (q: Question) => q.topic != t);
      if |nonRepeats| > 0 then nonRepeats else candidates
    else
      candidates
  }

  /**
    The broadening ladder: an empty list is replaced by the target tier of
    the whole role bank and, if that is empty too, by the whole role bank.
   */
  function Broaden(questions: seq<Question>, target: Difficulty, candidates: seq<Question>): (r: seq<Question>)
    ensures |candidates| > 0 ==> r == candidates
    ensures |r| == 0 <==> |candidates| == 0 && |questions| == 0
    ensures |candidates| == 0 && HasTier(questions, target) ==> r == ByDifficulty(questions, target)
    ensures |candidates| == 0 && !HasTier(questions, target) ==> r == questions
  {
    var widened := if |candidates| == 0 then ByDifficulty(questions, target) else candidates;
    if |widened| == 0 then questions else widened
  }

  /**
    Which records the selector may return, stated without the ladder: the
    target tier, further restricted to other topics when the last topic is
    given and the tier has another one; the whole role bank when the tier
    is empty.
   */
  ghost predicate Preferred(questions: seq<Question>, target: Difficulty, lastTopic: Option<string>, q: Question)
  {
    if !HasTier(questions, target) then true
    else if Truthy(lastTopic) && exists p :: p in questions && p.difficulty == target && p.topic != lastTopic.value then
      q.difficulty == target && q.topic != lastTopic.value
    else
      q.difficulty == target
  }

  /** The final candidate list: difficulty filter, soft topic filter, broadening. */
  function Candidates(questions: seq<Question>, target: Difficulty, lastTopic: Option<string>): (c: seq<Question>)
    ensures |c| == 0 <==> |questions| == 0
    ensures forall q :: q in c <==> q in questions && Preferred(questions, target, lastTopic, q)
  {
    Broaden(questions, target, AvoidTopic(ByDifficulty(questions, target), lastTopic))
  }

  /**
    The second rung of the ladder (refiltering by difficulty) never fires
    with an effect: the soft topic filter leaves the list empty only when
    the difficulty filter already did.
   */
  lemma RefilterIsRedundant(questions: seq<Question>, target: Difficulty, lastTopic: Option<string>)
    ensures |AvoidTopic(ByDifficulty(questions, target), lastTopic)| == 0 ==> ByDifficulty(questions, target) == []
  {
  }

  /** The random pick, `Math.floor(Math.random() * n)`, for a roll in [0, 1). */
  function PickIndex(roll: real, n: nat): (i: nat)
    requires 0.0 <= roll < 1.0
    requires n > 0
    ensures i < n
  {
    var x := roll * n as real;
    assert 0.0 <= x < n as real by {
      var gap := 1.0 - roll;
      assert gap > 0.0 && gap * n as real > 0.0;
      assert n as real - x == gap * n as real;
    }
    x.Floor
  }

  /** Every index is the pick of some roll, so the pick ranges over all candidates. */
  lemma PickIndexReaches(n: nat, i: nat)
    requires i < n
    ensures 0.0 <= i as real / n as real < 1.0
    ensures PickIndex(i as real / n as real, n) == i
  {
    var roll := i as real / n as real;
    assert roll * n as real == i as real;
  }

  /** The role's list, or the empty list for a role the bank does not key (`QUESTION_BANK[role] || []`). */
  function RoleQuestions(bank: map<string, seq<Question>>, role: string): seq<Question>
  {
    if role in bank then bank[role] else []
  }

  /**
    `generateNextQuestion` up to the pick: reject an unknown role, reject an
    empty bank, then draw from the candidate list.
   */
  function Choose(roles: seq<string>, bank: map<string, seq<Question>>, role: string,
                  lastScore: Option<int>, lastTopic: Option<string>, roll: real): (r: Result<Question, GenError>)
    requires 0.0 <= roll < 1.0
    ensures role !in roles ==> r == Failure(UnsupportedRole(role))
    ensures role in roles && |RoleQuestions(bank, role)| == 0 ==> r == Failure(NoQuestions(role))
    ensures r.Success? ==> r.value in RoleQuestions(bank, role)
    ensures r.Success? <==> role in roles && |RoleQuestions(bank, role)| > 0
    ensures r.Success? ==> Preferred(RoleQuestions(bank, role), PickNextDifficulty(lastScore), lastTopic, r.value)
  {
    if role !in roles then Failure(UnsupportedRole(role))
    else
      var questions := RoleQuestions(bank, role);
      if |questions| == 0 then Failure(NoQuestions(role))
      else
        var candidates := Candidates(questions, PickNextDifficulty(lastScore), lastTopic);
        Success(candidates[PickIndex(roll, |candidates|)])
  }

  /** Every candidate is the outcome of some roll: the pick ranges over the whole list. */
  lemma ChooseReachesEveryCandidate(roles: seq<string>, bank: map<string, seq<Question>>, role: string,
                                    lastScore: Option<int>, lastTopic: Option<string>)
    requires role in roles
    ensures forall q :: q in Candidates(RoleQuestions(bank, role), PickNextDifficulty(lastScore), lastTopic) ==>
              exists roll :: 0.0 <= roll < 1.0 && Choose(roles, bank, role, lastScore, lastTopic, roll) == Success(q)
  {
    var candidates := Candidates(RoleQuestions(bank, role), PickNextDifficulty(lastScore), lastTopic);
    forall q | q in candidates
      ensures exists roll :: 0.0 <= roll < 1.0 && Choose(roles, bank, role, lastScore, lastTopic, roll) == Success(q)
    {
      var i :| 0 <= i < |candidates| && candidates[i] == q;
      PickIndexReaches(|candidates|, i);
      var roll := i as real / |candidates| as real;
      assert Choose(roles, bank, role, lastScore, lastTopic, roll) == Success(q);
    }
  }

  /**
    When the role's bank has the target tier, the selector returns a
    question of that tier, however the last topic filter fares.
   */
  lemma ChooseHitsTarget(roles: seq<string>, bank: map<string, seq<Question>>, role: string,
                         lastScore: Option<int>, lastTopic: Option<string>, roll: real)
    requires 0.0 <= roll < 1.0
    requires role in roles
    requires HasTier(RoleQuestions(bank, role), PickNextDifficulty(lastScore))
    ensures Choose(roles, bank, role, lastScore, lastTopic, roll).Success?
    ensures Choose(roles, bank, role, lastScore, lastTopic, roll).value.difficulty == PickNextDifficulty(lastScore)
  {
  }

  /**
    When the last topic is given and the target tier holds a question on
    another topic, the selector does not repeat the last topic.
   */
  lemma ChooseAvoidsLastTopic(roles: seq<string>, bank: map<string, seq<Question>>, role: string,
                              lastScore: Option<int>, lastTopic: Option<string>, roll: real)
    requires 0.0 <= roll < 1.0
    requires role in roles
    requires Truthy(lastTopic)
    requires exists p :: p in RoleQuestions(bank, role) && p.difficulty == PickNextDifficulty(lastScore) && p.topic != lastTopic.value
    ensures Choose(roles, bank, role, lastScore, lastTopic, roll).Success?
    ensures Choose(roles, bank, role, lastScore, lastTopic, roll).value.topic != lastTopic.value
  {
  }

  /** When the role's bank lacks the target tier, the pick is from the whole role bank. */
  lemma ChooseFallsBackToRoleBank(roles: seq<string>, bank: map<string, seq<Question>>, role: string,
                                  lastScore: Option<int>, lastTopic: Option<string>, q: Question)
    requires role in roles
    requires !HasTier(RoleQuestions(bank, role), PickNextDifficulty(lastScore))
    ensures q in RoleQuestions(bank, role) <==> q in Candidates(RoleQuestions(bank, role), PickNextDifficulty(lastScore), lastTopic)
  {
  }

  /** `generateNextQuestion`: choose a record, then project it into the response. */
  function Generate(roles: seq<string>, bank: map<string, seq<Question>>, role: string,
                    lastScore: Option<int>, lastTopic: Option<string>, roll: real): (r: Result<Response, GenError>)
    requires 0.0 <= roll < 1.0
    ensures r.Failure? <==> role !in roles || |RoleQuestions(bank, role)| == 0
    ensures r.Failure? ==> r.error == (if role !in roles then UnsupportedRole(role) else NoQuestions(role))
    ensures r.Success? ==> exists q :: q in RoleQuestions(bank, role) && r.value == ToResponse(q)
                                    && Preferred(RoleQuestions(bank, role), PickNextDifficulty(lastScore), lastTopic, q)
  {
    var q :- Choose(roles, bank, role, lastScore, lastTopic, roll);
    Success(ToResponse(q))
  }
}
