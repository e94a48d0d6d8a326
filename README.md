# Two-player trivia game: the game logic in Dafny

This is a model of the game logic in `script.js` of a browser trivia quiz. Two players enter their names. They then pick a category, and the page fetches up to 30 questions for it and keeps two easy, two medium and two hard ones. The players take turns answering. A correct answer scores 10, 15 or 20 points by difficulty. After six answers the scores are shown, and the players either continue with a new category or stop, which declares the winner.

The model has three modules:

- `QuestionSource` (`question_source.dfy`): the question record, the points table and the selection rule, as pure functions with lemmas about them.
- `MatchRules` (`match_rules.dfy`): the game state as a value (`MatchState`) and one function per event handler that gives the state after the event. Each of these functions preserves the invariant `Inv`. Lemmas cover a whole round.
- `MatchController` (`match_controller.dfy`): class `Game`. Its fields are the script's module-level variables (`players`, `currentPlayerIndex`, `currentQuestionIndex`, `selectedQuestions`, `usedCategories`, `gameEnded`). It has one method per handler, and those methods update the fields in place. Each method's contract equates the new `State()` with the `MatchRules` function of the old state.

The class has one more field, `screen`. It records which part of the page is showing: the entry form, the category box, the question container or the result section. The script does not keep this in a variable. It switches `style.display` instead (lines 32-33, 63-64, 106, 117, 125-126). That switching decides which handler the players can trigger next, so the model keeps it as state and uses it in the methods' preconditions.

Inputs the script gets from outside are parameters: the two typed names, the chosen category, the fetched list (`None` when the request or its decoding fails), the text of the answer button that was clicked, and the order of the shuffled answer buttons.

Some behaviours of the script worth noting:

- **A rejected category still overwrites the questions.** When a category yields fewer than six questions, `selectedQuestions` has already been replaced by the short selection (line 52). Only `usedCategories` and the rest of the state stay as they were.
- **Choosing a category does not reset the question index.** The handler relies on continue (line 124) to do that. The invariant proves that the index is 0 whenever the category box is showing, so a round always starts at its first question.
- **Starting a match does not reset the turn.** `Inv` proves that the turn is still the first player's at that point, so both players start at 0 points and the first player goes first.
- **Stopping is not final.** Continue clears `gameEnded` (line 127), so a stopped match can go on with a new category. The model allows this.
- **A second category choice while a fetch is in flight is not rejected.** The script has no such guard. The model treats each handler as one atomic step.

## Model

| member | source | states |
|---|---|---|
| QuestionSource.Points | script.js:96 | the lookup gives a value exactly for the tags easy, medium and hard, and the value is 10, 15 or 20 by rank |
| QuestionSource.Filter | script.js:53-55 | the filtered list is no longer than the input, every element has the requested difficulty, and every element comes from the input (that nothing with the tag is dropped is `FilterExact`) |
| QuestionSource.FilterExact | script.js:53-55 | every fetched question with the tag is kept, as many times as it was fetched, and no question with another tag is kept |
| QuestionSource.CountByTag | script.js:53-57 | the count in the "two of each difficulty" test is the number of fetched questions carrying that tag |
| QuestionSource.FirstTwo | script.js:53-55 | `slice(0, 2)` gives a prefix of length min(2, n) |
| QuestionSource.SelectBucket | script.js:52-56 | for each of easy, medium and hard, the selected questions of that difficulty are exactly the first two (or fewer) of that difficulty in fetched order; no question with another tag is selected |
| QuestionSource.SelectOrdered | script.js:52-56 | every selected question is easy, medium or hard, and all easy ones come before all medium ones, which come before all hard ones |
| QuestionSource.SelectLength | script.js:52-60 | the selection never exceeds six, and it has six questions iff the fetched list holds at least two of each difficulty |
| QuestionSource.SelectFull | script.js:52-56 | a full selection reads easy, easy, medium, medium, hard, hard |
| QuestionSource.SelectFromFetched | script.js:52-56 | the selection is a sub-multiset of the fetched list: no invented question and none taken twice |
| QuestionSource.FilterPartition | script.js:53-55 | the easy, medium and hard groups are disjoint parts of the fetched list |
| MatchRules.InitialInv | script.js:15-20 | the page-load state satisfies the invariant |
| MatchRules.AfterDisplay | script.js:73-77 | the round ends exactly when the question index reaches the number of selected questions |
| MatchRules.Submitted | script.js:23-34 | an empty name leaves the state unchanged; otherwise both players are created with score 0, the first player has the turn, the category box opens and nothing else changes; the invariant is kept |
| MatchRules.Chosen | script.js:37-70 | Duplicate iff the category is used, and then no change; Unavailable iff the category is new and the fetch failed, and then no change; TooFew iff the category is new and the list lacks two of some difficulty, and then only the selected questions are overwritten; Accepted iff the category is new and the list has two of each difficulty, and then the category is appended once and the first question shown; `usedCategories` never shrinks and has no repeats |
| MatchRules.Answered | script.js:94-102 | a correct answer adds the question's points to the current player's score, a wrong one adds nothing, the other player is untouched, the turn toggles, the index advances by one either way, and the round ends iff the index reaches the end; the invariant is kept |
| MatchRules.Continued | script.js:121-128 | the questions are cleared, the index is 0, `gameEnded` is false and the category box shows; players, scores, turn and used categories are unchanged |
| MatchRules.Stopped | script.js:131-135 | `gameEnded` is set and the result section shows; players, scores, turn, questions and used categories are unchanged |
| MatchRules.Winner | script.js:108-115 | tie iff the scores are equal; player 0 wins iff their score is strictly greater; player 1 wins iff theirs is |
| MatchRules.WinnerSymmetric | script.js:108-115 | swapping the two scores swaps the winner and keeps a tie |
| MatchRules.RoundOutcome | script.js:73-102 | answering the remaining questions ends the round at the last index with the same two players, questions, used categories and `gameEnded` |
| MatchRules.RoundTurn | script.js:99-100 | after n answers the turn has alternated n times |
| MatchRules.AnswerGain | script.js:95-98 | one answer moves the first term of a player's round gain into that player's score |
| MatchRules.RoundScores | script.js:94-102 | over a round each player's score grows by exactly the points of the questions that player answered correctly on their own turns |
| MatchRules.GainBound | script.js:96-97 | a player earns at most 20 points per turn |
| MatchRules.TurnsCountAlternation | script.js:99 | `Turns(n, first, p)` counts the k < n for which the alternation from `first` has reached `p` |
| MatchRules.SixTurns | script.js:99 | six alternating turns give each player three and hand the turn back |
| MatchRules.FullRoundTurns | script.js:73-102 | a full round returns the turn to its starting player, gives each player three turns and adds at most 60 to each score |
| MatchRules.AnnBeatsBo | script.js:94-115 | if Ann starts and answers her three questions correctly and Bo answers his wrongly, the scores end at 45 and 0 and stopping declares Ann the winner |
| MatchController.Game.constructor | script.js:15-20 | the fields start as the script's globals do, and the invariant holds |
| MatchController.Game.Submit | script.js:23-34 | reports whether both names were non-empty and updates the fields as `Submitted` says |
| MatchController.Game.ChooseCategory | script.js:37-70 | returns the outcome and updates the fields as `Chosen` says |
| MatchController.Game.HandleAnswer | script.js:94-102 | updates the fields as `Answered` says |
| MatchController.Game.Continue | script.js:121-128 | updates the fields as `Continued` says |
| MatchController.Game.Stop | script.js:131-135 | updates the fields as `Stopped` says and shows both scores with the verdict |
| MatchController.Game.Display | script.js:73-118 | with the question container showing: the current player's name, the current question and the shuffled options, which contain the correct answer; with the result section showing: both players' scores, and the verdict iff `gameEnded` |

## Left out

- The page itself is not modelled: reading the form fields, toggling sections beyond the `screen` field, building the buttons and their listeners, `alert` and `console.error`.
- The page's HTML is not part of this model. It decides where the continue and stop buttons sit. The model allows stop from the question container or the result section, and continue only from the result section.
- The request to the trivia service and the decoding of its reply (lines 48-51) are not modelled. Their result is a parameter: a list of questions, or `None` for a failure in lines 48-52. Such a failure reaches the `catch` block before any state changes.
- A malformed question is not modelled. The `Question` record assumes well-formed items: `question.text` is present and `incorrectAnswers` is a list. The `try` block also wraps the call to `displayQuestion()` at line 65, which runs after the category is recorded (line 62) and the question screen is switched on (lines 63-64). An item without `question`, or with a non-iterable `incorrectAnswers`, throws at lines 79-80. That reaches the `catch` block with the category already used.
- The answer shuffle (lines 80-82) is not modelled. Its random order is a parameter, constrained only to be a permutation of the incorrect answers plus the correct one. The shuffle's distribution is out of scope.
- The result text (lines 107, 113-115) is reduced to its data: both players, their scores, and which of tie, player 0 wins or player 1 wins applies.
- The answer that `HandleAnswer` receives is the clicked button's text. The model takes it as given and does not model whether HTML markup inside an answer changes that text.
- `Points` models the lookup as a function that gives a value for exactly the three tags easy, medium and hard, and `None` for any other tag. A JavaScript object literal also inherits keys such as `toString`. This makes no difference to the game, because only easy, medium and hard questions are ever selected (`SelectOrdered`).
- Scores are unbounded naturals. The JavaScript numbers involved stay far below the range where precision is lost.
- Between rounds, `Inv` keeps nothing about the turn except that it is 0 or 1. A round stopped halfway would leave the turn with the second player, and the code keeps that turn for the next round.
