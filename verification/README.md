# HireBridge adaptive question selector, in Dafny

This project models the role-based adaptive question selector of the
HireBridge mock-interview backend (`backend/questions.js`) and proves what
it promises. The selector has three parts:

- **The static bank.** There are four allowed roles. Each role has a list
  of question records. A record has a difficulty (`easy`, `medium` or
  `hard`), a topic tag, a question type, a prompt text and an optional
  code snippet.
- **`pickNextDifficulty`.** It maps the last answer's score to the next
  difficulty tier.
- **`generateNextQuestion`.** It rejects an unknown role and an empty
  bank. It keeps the questions of the target tier and softly avoids the
  last topic. It broadens the list when it is empty, picks one candidate
  at random, and projects that record into the response.

Modules, one per concept:

| file | module | contents |
|---|---|---|
| wrappers.dfy | `Wrappers` | `Option` (JavaScript `null`/`undefined`) and `Result` (a thrown error) |
| questions.dfy | `Questions` | `Difficulty`, `Question`, JavaScript truthiness of an optional string, tier predicates |
| responses.dfy | `Responses` | the response record, `ToResponse`, and its inverse `FromResponse` |
| selector.dfy | `Selector` | the difficulty policy, the filters, the broadening ladder, the random pick and `Generate`, all over any role list and any bank |
| bank.dfy | `Bank` | `ALLOWED_ROLES`, `QUESTION_BANK` and their well-formedness |
| generator.dfy | `Generator` | `generateNextQuestion` on the shipped roles and bank |

The selector is stated over an arbitrary bank. That lets its fallback
branches be proved on banks where they fire. The shipped bank is then
shown never to reach them.

Modelling choices:

- `lastScore` is an `Option<int>`. `null`, `undefined` and `NaN` all
  become `None`.
- `lastTopic` is an `Option<string>`. The source tests it for
  truthiness, so `Some("")` behaves like `None`.
- The random pick `Math.floor(Math.random() * n)` takes a parameter
  `roll` with `0 <= roll < 1`. `Selector.ChooseReachesEveryCandidate`
  shows that every candidate is the result of some roll. The model
  therefore stands for "any candidate" and says nothing about the
  distribution.
- Each thrown `Error` becomes a `Failure` that carries a `GenError`.
  `Selector.ErrorMessage` gives the message text.

Behaviour of `backend/questions.js` that the model keeps as written:

- Only `lastTopic` is avoided. No list of asked questions or asked topics
  is consulted, and the score is not clamped to a range.
- Any score of 8 or more is `hard`, including scores above 10. Any score
  of 4 or less is `easy`, including 0 and negative scores.
- The question type is a free string. The response falls back to
  `"conceptual"` when the record's type is absent or empty.
- The second broadening rung refilters the bank by difficulty. It can
  never change the list (`Selector.RefilterIsRedundant`).

## Model

| member | source | states |
|---|---|---|
| Selector.PickNextDifficulty | backend/questions.js:145-150 | no score gives easy; a score gives easy iff it is at most 4, medium iff it is 5 to 7, hard iff it is at least 8 |
| Selector.PickNextDifficultyMonotone | backend/questions.js:145-150 | a higher score never gives a lower tier, and no score gives the lowest tier |
| Selector.PickNextDifficultyBoundaries | backend/questions.js:147-148 | the tier differs between a score and the next one iff the score is 4 or 7; 4 to 5 goes from easy to medium and 7 to 8 from medium to hard |
| Selector.ErrorMessage | backend/questions.js:153-160 | each error message ends with the requested role |
| Selector.ErrorMessageInjective | backend/questions.js:154-159 | different errors (kind or role) never share a message |
| Selector.Filter | backend/questions.js:165-169 | `Array.filter` keeps exactly the accepted elements, with their multiplicities, and never grows the list |
| Selector.ByDifficulty | backend/questions.js:165 | keeps exactly the role's questions of the target tier; the result is empty iff the bank lacks that tier |
| Selector.AvoidTopic | backend/questions.js:167-173 | never empties a non-empty list; keeps every candidate on another topic; drops the last topic whenever another topic exists; returns the list unchanged when every candidate is on the last topic or no topic is given |
| Selector.Broaden | backend/questions.js:175-183 | leaves a non-empty list alone; replaces an empty list with the target tier, or with the whole role bank when that tier is empty; the result is empty only when the role bank is |
| Selector.Candidates | backend/questions.js:164-183 | the final list is empty iff the role bank is, and holds exactly the records `Preferred` describes without the ladder |
| Selector.RefilterIsRedundant | backend/questions.js:175-178 | the soft topic filter leaves an empty list only when the difficulty filter already did |
| Selector.PickIndex | backend/questions.js:186 | the pick for any roll in [0, 1) is a valid index |
| Selector.PickIndexReaches | backend/questions.js:186 | every index is the pick of some roll in [0, 1) |
| Selector.Choose | backend/questions.js:152-186 | the role's list is its bank entry, or empty when the bank has none (`Selector.RoleQuestions`); an unknown role fails with UnsupportedRole; an allowed role with an empty list fails with NoQuestions; otherwise it succeeds with a record of the role's list that `Preferred` admits |
| Selector.ChooseReachesEveryCandidate | backend/questions.js:185-186 | every record of the final candidate list is chosen by some roll |
| Selector.ChooseHitsTarget | backend/questions.js:162-178 | when the role has the target tier, the chosen record has the target difficulty, even if every such record is on the last topic |
| Selector.ChooseAvoidsLastTopic | backend/questions.js:167-173 | when a topic is given and the target tier has another topic, the chosen record is not on the last topic |
| Selector.ChooseFallsBackToRoleBank | backend/questions.js:180-183 | when the role lacks the target tier, every record of the role is a candidate |
| Selector.Generate | backend/questions.js:152-201 | fails exactly for an unknown role or an empty list, with the matching error; otherwise returns the projection of an admitted record of the role's list |
| Responses.ToResponse | backend/questions.js:189-199 | text, topic and difficulty are copied; the type is copied when non-empty and is "conceptual" otherwise; the snippet is present iff the record's snippet is non-empty, and is then copied |
| Responses.ResponseRoundTrip | backend/questions.js:189-199 | the response of a canonical record reads back as that record |
| Responses.ResponseIsCanonical | backend/questions.js:193-199 | every response reads back as a canonical record with the same response |
| Responses.ResponseDeterminesRecord | backend/questions.js:189-199 | two canonical records with equal responses are equal |
| Questions.TwoTopicsAvoidAny | backend/questions.js:168-173 | a tier with two topics has, for any topic, a question on a different one |
| Bank.BankLookups | backend/questions.js:11-143 | each allowed role is keyed to its own track |
| Bank.BankKeysAreAllowedRoles | backend/questions.js:4-143 | the bank's keys are exactly the allowed roles |
| Bank.BankWellFormed | backend/questions.js:4-143 | every allowed role has a non-empty list with two topics in every tier, and every record is canonical |
| Generator.ShippedRoleFacts | backend/questions.js:4-143 | for an allowed role and any tier and topic, the shipped list is non-empty, has the tier, has a question of that tier on another topic, and is canonical |
| Generator.GenerateNextQuestion | backend/questions.js:152-201 | fails iff the role is not allowed, and then only with UnsupportedRole; otherwise the difficulty is the policy's, a given last topic is never repeated, and the response is the exact projection of a record of the role's list |

## Left out

- Prompt texts and code snippets of the shipped bank keep only their
  opening words, followed by "...". Each full string literal costs the
  solver roughly cubic effort, and every proof that mentions the bank
  would pay for all of them. No branch reads these strings except the
  snippet's truthiness. The abbreviated snippets keep that (non-empty
  exactly where the source has a snippet). `Responses.ToResponse` copies
  whatever string a record holds.
- The distribution of `Math.random()` and IEEE double rounding in
  `Math.floor(Math.random() * n)`: `Selector.PickIndex` uses exact real
  arithmetic. The model makes no claim about uniformity.
- Non-integer scores, and values of other JavaScript types for `role`,
  `lastScore` or `lastTopic`: the model's parameter types rule them out.
- Selector.Filter: states which elements are kept and how often, but not
  that their order is preserved. No proved property depends on the order;
  only which index a given roll selects would.
- The `module.exports` line (backend/questions.js:204-207).
- Session state, answer scoring and the evaluation report: no code for
  them exists in the modelled files. backend/index.js serves only a
  health-check route.
- backend/firestore.js (persistence, random ids, timestamps), the React
  components, and the configuration and deployment files: these are I/O
  and UI.
