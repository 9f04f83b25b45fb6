/**
  The shipped question bank: the four allowed roles and, for each, its list
  of records in the source's order. Difficulty, topic and question type are
  the source's; the prompt text and the code snippet keep only their
  opening words, followed by "...".
 */
module Bank {
  import opened Wrappers
  import opened Questions
  import opened Responses

  /** The closed set of roles, in the order the source lists them. */
  const AllowedRoles: seq<string> := ["Software Developer", "Data Analyst", "AI / ML Engineer", "HR / Management"]

  /**
    What the selector relies on in a role's list: it is non-empty, each
    tier holds two topics, and every record is canonical (a non-empty
    question type, no empty snippet).
   */
  predicate WellFormedRole(qs: seq<Question>)
  {
    && |qs| > 0
    && HasTwoTopics(qs, Easy)
    && HasTwoTopics(qs, Medium)
    && HasTwoTopics(qs, Hard)
    && forall i :: 0 <= i < |qs| ==> Canonical(qs[i])
  }

  /** The bank keyed by role name. */
  function QuestionBank(): map<string, seq<Question>>
  {
    map[
      "Software Developer" := SoftwareDeveloper(),
      "Data Analyst" := DataAnalyst(),
      "AI / ML Engineer" := AiMlEngineer(),
      "HR / Management" := HrManagement()
    ]
  }

  /** The Software Developer track. */
  function SoftwareDeveloper(): seq<Question>
  {
    [
      Question(Easy, "fundamentals", Some("conceptual"), "In your own...", None),
      Question(Easy, "frontend", Some("conceptual"), "Describe how...", None),
      Question(Easy, "basics", Some("conceptual"), "Can you...", None),
      Question(Easy, "debugging", Some("debugging"), "Look at this...", Some("function...")),
      Question(Medium, "backend", Some("conceptual"), "How would you...", None),
      Question(Medium, "dsa", Some("conceptual"), "Explain when...", None),
      Question(Medium, "performance", Some("debugging"), "This React...", Some("function...")),
      Question(Medium, "api", Some("conceptual"), "Describe how...", None),
      Question(Medium, "coding", Some("coding"), "Write a...", Some("function...")),
      Question(Hard, "system_design", Some("conceptual"), "How would you...", None),
      Question(Hard, "architecture", Some("conceptual"), "Explain the...", None),
      Question(Hard, "debugging_advanced", Some("debugging"), "This async...", Some("async function..."))
    ]
  }

  /** The Data Analyst track. */
  function DataAnalyst(): seq<Question>
  {
    [
      Question(Easy, "sql", Some("coding"), "Write a SQL...", Some("SELECT -- Your...")),
      Question(Easy, "cleaning", Some("conceptual"), "Describe your...", None),
      Question(Easy, "basics", Some("conceptual"), "What is the...", None),
      Question(Easy, "tools", Some("conceptual"), "What data...", None),
      Question(Medium, "pandas", Some("coding"), "Using Pandas,...", Some("import pandas...")),
      Question(Medium, "viz", Some("conceptual"), "Which...", None),
      Question(Medium, "analysis", Some("conceptual"), "How would you...", None),
      Question(Medium, "joins", Some("conceptual"), "Explain the...", None),
      Question(Hard, "insights", Some("conceptual"), "You see a...", None),
      Question(Hard, "prediction", Some("conceptual"), "How would you...", None),
      Question(Hard, "debugging_sql", Some("debugging"), "This SQL query...", Some("SELECT..."))
    ]
  }

  /** The AI / ML Engineer track. */
  function AiMlEngineer(): seq<Question>
  {
    [
      Question(Easy, "basics", Some("conceptual"), "What is the...", None),
      Question(Easy, "overfitting", Some("conceptual"), "How would you...", None),
      Question(Easy, "algorithms", Some("conceptual"), "Can you...", None),
      Question(Easy, "preprocessing", Some("coding"), "Write code to...", Some("import numpy...")),
      Question(Medium, "evaluation", Some("conceptual"), "For an...", None),
      Question(Medium, "training", Some("conceptual"), "Describe the...", None),
      Question(Medium, "features", Some("conceptual"), "What is...", None),
      Question(Medium, "model_debug", Some("debugging"), "This model...", Some("from...")),
      Question(Hard, "deployment", Some("conceptual"), "How would you...", None),
      Question(Hard, "optimization", Some("conceptual"), "Explain how...", None),
      Question(Hard, "ethics", Some("conceptual"), "How would you...", None)
    ]
  }

  /** The HR / Management track. */
  function HrManagement(): seq<Question>
  {
    [
      Question(Easy, "communication", Some("conceptual"), "Tell me about...", None),
      Question(Easy, "teamwork", Some("conceptual"), "How do you...", None),
      Question(Easy, "motivation", Some("conceptual"), "What...", None),
      Question(Easy, "feedback", Some("conceptual"), "How do you...", None),
      Question(Medium, "conflict", Some("conceptual"), "Describe a...", None),
      Question(Medium, "leadership", Some("conceptual"), "How do you...", None),
      Question(Medium, "delegation", Some("conceptual"), "How do you...", None),
      Question(Medium, "performance", Some("conceptual"), "What's your...", None),
      Question(Hard, "strategy", Some("conceptual"), "You have to...", None),
      Question(Hard, "culture", Some("conceptual"), "How would you...", None),
      Question(Hard, "crisis", Some("conceptual"), "Describe how...", None)
    ]
  }

  /** Witnesses `HasTwoTopics` from two positions of the list. */
  lemma TwoTopicsAt(qs: seq<Question>, d: Difficulty, i: nat, j: nat)
    requires i < |qs| && j < |qs|
    requires qs[i].difficulty == d && qs[j].difficulty == d && qs[i].topic != qs[j].topic
    ensures HasTwoTopics(qs, d)
  {
  }

  /** Each allowed role is keyed to its own track. */
  lemma BankLookups()
    ensures "Software Developer" in QuestionBank() && QuestionBank()["Software Developer"] == SoftwareDeveloper()
    ensures "Data Analyst" in QuestionBank() && QuestionBank()["Data Analyst"] == DataAnalyst()
    ensures "AI / ML Engineer" in QuestionBank() && QuestionBank()["AI / ML Engineer"] == AiMlEngineer()
    ensures "HR / Management" in QuestionBank() && QuestionBank()["HR / Management"] == HrManagement()
  {
  }

  /** The keys of the bank are exactly the allowed roles. */
  lemma BankKeysAreAllowedRoles()
    ensures QuestionBank().Keys == set role | role in AllowedRoles
  {
  }

  /** Each tier of the Software Developer track has two topics. */
  lemma SoftwareDeveloperTiers()
    ensures HasTwoTopics(SoftwareDeveloper(), Easy) && HasTwoTopics(SoftwareDeveloper(), Medium) && HasTwoTopics(SoftwareDeveloper(), Hard)
  {
    assert HasTwoTopics(SoftwareDeveloper(), Easy) by { TwoTopicsAt(SoftwareDeveloper(), Easy, 0, 1); }
    assert HasTwoTopics(SoftwareDeveloper(), Medium) by { TwoTopicsAt(SoftwareDeveloper(), Medium, 4, 5); }
    assert HasTwoTopics(SoftwareDeveloper(), Hard) by { TwoTopicsAt(SoftwareDeveloper(), Hard, 9, 10); }
  }

  /** Every Software Developer record is canonical. */
  lemma SoftwareDeveloperCanonical()
    ensures forall i :: 0 <= i < |SoftwareDeveloper()| ==> Canonical(SoftwareDeveloper()[i])
  {
  }

  lemma SoftwareDeveloperWellFormed()
    ensures WellFormedRole(SoftwareDeveloper())
  {
    SoftwareDeveloperTiers();
    SoftwareDeveloperCanonical();
  }

  /** Each tier of the Data Analyst track has two topics. */
  lemma DataAnalystTiers()
    ensures HasTwoTopics(DataAnalyst(), Easy) && HasTwoTopics(DataAnalyst(), Medium) && HasTwoTopics(DataAnalyst(), Hard)
  {
    assert HasTwoTopics(DataAnalyst(), Easy) by { TwoTopicsAt(DataAnalyst(), Easy, 0, 1); }
    assert HasTwoTopics(DataAnalyst(), Medium) by { TwoTopicsAt(DataAnalyst(), Medium, 4, 5); }
    assert HasTwoTopics(DataAnalyst(), Hard) by { TwoTopicsAt(DataAnalyst(), Hard, 8, 9); }
  }

  /** Every Data Analyst record is canonical. */
  lemma DataAnalystCanonical()
    ensures forall i :: 0 <= i < |DataAnalyst()| ==> Canonical(DataAnalyst()[i])
  {
  }

  lemma DataAnalystWellFormed()
    ensures WellFormedRole(DataAnalyst())
  {
    DataAnalystTiers();
    DataAnalystCanonical();
  }

  /** Each tier of the AI / ML Engineer track has two topics. */
  lemma AiMlEngineerTiers()
    ensures HasTwoTopics(AiMlEngineer(), Easy) && HasTwoTopics(AiMlEngineer(), Medium) && HasTwoTopics(AiMlEngineer(), Hard)
  {
    assert HasTwoTopics(AiMlEngineer(), Easy) by { TwoTopicsAt(AiMlEngineer(), Easy, 0, 1); }
    assert HasTwoTopics(AiMlEngineer(), Medium) by { TwoTopicsAt(AiMlEngineer(), Medium, 4, 5); }
    assert HasTwoTopics(AiMlEngineer(), Hard) by { TwoTopicsAt(AiMlEngineer(), Hard, 8, 9); }
  }

  /** Every AI / ML Engineer record is canonical. */
  lemma AiMlEngineerCanonical()
    ensures forall i :: 0 <= i < |AiMlEngineer()| ==> Canonical(AiMlEngineer()[i])
  {
  }

  lemma AiMlEngineerWellFormed()
    ensures WellFormedRole(AiMlEngineer())
  {
    AiMlEngineerTiers();
    AiMlEngineerCanonical();
  }

  /** Each tier of the HR / Management track has two topics. */
  lemma HrManagementTiers()
    ensures HasTwoTopics(HrManagement(), Easy) && HasTwoTopics(HrManagement(), Medium) && HasTwoTopics(HrManagement(), Hard)
  {
    assert HasTwoTopics(HrManagement(), Easy) by { TwoTopicsAt(HrManagement(), Easy, 0, 1); }
    assert HasTwoTopics(HrManagement(), Medium) by { TwoTopicsAt(HrManagement(), Medium, 4, 5); }
    assert HasTwoTopics(HrManagement(), Hard) by { TwoTopicsAt(HrManagement(), Hard, 8, 9); }
  }

  /** Every HR / Management record is canonical. */
  lemma HrManagementCanonical()
    ensures forall i :: 0 <= i < |HrManagement()| ==> Canonical(HrManagement()[i])
  {
  }

  lemma HrManagementWellFormed()
    ensures WellFormedRole(HrManagement())
  {
    HrManagementTiers();
    HrManagementCanonical();
  }

  /**
    The shipped bank is well formed for every allowed role, so the
    "no questions configured" error and the whole-bank fallback are
    unreachable for the shipped roles.
   */
  lemma BankWellFormed()
    ensures forall role :: role in AllowedRoles ==> role in QuestionBank() && WellFormedRole(QuestionBank()[role])
  {
    BankLookups();
    forall role | role in AllowedRoles
      ensures role in QuestionBank() && WellFormedRole(QuestionBank()[role])
    {
      if role == "Software Developer" {
        SoftwareDeveloperWellFormed();
      } else if role == "Data Analyst" {
        DataAnalystWellFormed();
      } else if role == "AI / ML Engineer" {
        AiMlEngineerWellFormed();
      } else {
        HrManagementWellFormed();
      }
    }
  }
}
