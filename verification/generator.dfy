/**
  `generateNextQuestion` on the shipped roles and bank, with what the
  bank's shape guarantees about every answer it gives.
 */
module Generator {
  import opened Wrappers
  import opened Questions
  import opened Responses
  import opened Bank
  import opened Selector

  /** The facts about the shipped bank that a call for `role` relies on. */
  lemma ShippedRoleFacts(role: string, target: Difficulty, lastTopic: Option<string>)
    ensures role in AllowedRoles ==> role in QuestionBank() && |QuestionBank()[role]| > 0
    ensures role in AllowedRoles ==> HasTier(QuestionBank()[role], target)
    ensures role in AllowedRoles && Truthy(lastTopic) ==>
              exists p :: p in QuestionBank()[role] && p.difficulty == target && p.topic != lastTopic.value
    ensures role in AllowedRoles ==> forall q :: q in QuestionBank()[role] ==> Canonical(q)
  {
    BankWellFormed();
    if role in AllowedRoles {
      TwoTopicsAvoidAny(QuestionBank()[role], target, if Truthy(lastTopic) then lastTopic.value else "");
    }
  }

  /**
    The exported generator. Only an unknown role fails; otherwise the
    response has the policy's difficulty, never repeats a given last
    topic, and is the exact projection of one record of the role's bank.
   */
  function GenerateNextQuestion(role: string, lastScore: Option<int>, lastTopic: Option<string>, roll: real): (r: Result<Response, GenError>)
    requires 0.0 <= roll < 1.0
    ensures r.Failure? <==> role !in AllowedRoles
    ensures r.Failure? ==> r.error == UnsupportedRole(role)
    ensures r.Success? ==> r.value.nextQuestionDifficulty == PickNextDifficulty(lastScore)
    ensures r.Success? && Truthy(lastTopic) ==> r.value.topicTag != lastTopic.value
    ensures r.Success? ==> exists q :: q in QuestionBank()[role] && r.value == ToResponse(q) && FromResponse(r.value) == q
  {
    ShippedRoleFacts(role, PickNextDifficulty(lastScore), lastTopic);
    var bank := QuestionBank();
    assert role in AllowedRoles ==> RoleQuestions(bank, role) == bank[role];
    assert role in AllowedRoles ==> forall q :: q in bank[role] ==> FromResponse(ToResponse(q)) == q by {
      if role in AllowedRoles {
        forall q | q in bank[role]
          ensures FromResponse(ToResponse(q)) == q
        {
          ResponseRoundTrip(q);
        }
      }
    }
    Generate(AllowedRoles, bank, role, lastScore, lastTopic, roll)
  }
}
