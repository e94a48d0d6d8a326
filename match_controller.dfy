/** The game object: the variables of script.js:15-20 as fields, updated in place by one
    method per event handler. Each method is specified by the transition function of
    MatchRules that says what the handler does to the whole state. */
module MatchController {
  import opened QuestionSource
  import opened MatchRules

  /** What the page shows: the question for the player whose turn it is, or the scores,
      with the verdict once the match is stopped. */
  datatype View =
    | Ask(player: string, prompt: string, options: seq<string>)
    | Scores(first: Player, second: Player, result: Option<Outcome>)

  class Game {
    var players: seq<Player>
    var currentPlayerIndex: nat
    var currentQuestionIndex: nat
    var selectedQuestions: seq<Question>
    var usedCategories: seq<string>
    var gameEnded: bool
    var screen: Screen

    function State(): MatchState
      reads this
    {
      MatchState(players, currentPlayerIndex, currentQuestionIndex, selectedQuestions,
                 usedCategories, gameEnded, screen)
    }

    predicate Valid()
      reads this
    {
      Inv(State())
    }

    constructor ()
      ensures Valid() && State() == Initial
    {
      players := [];
      currentPlayerIndex := 0;
      currentQuestionIndex := 0;
      selectedQuestions := [];
      usedCategories := [];
      gameEnded := false;
      screen := EntryForm;
    }

    /** The entry form's submit handler. */
    method Submit(name1: string, name2: string) returns (ok: bool)
      requires Valid() && screen == EntryForm
      modifies this
      ensures ok <==> name1 != [] && name2 != []
      ensures State() == Submitted(old(State()), name1, name2)
      ensures Valid()
    {
      if name1 == [] || name2 == [] {
        return false;
      }
      players := [Player(name1, 0), Player(name2, 0)];
      screen := CategoryBox;
      return true;
    }

    /** The category handler, with `fetched` standing for the service's answer (None when
        the request or its decoding fails). */
    method ChooseCategory(category: string, fetched: Option<seq<Question>>) returns (choice: Choice)
      requires Valid() && screen == CategoryBox
      modifies this
      ensures (choice, State()) == Chosen(old(State()), category, fetched)
      ensures Valid()
    {
      if category in usedCategories {
        return Duplicate;
      }
      if fetched.None? {
        return Unavailable;
      }
      selectedQuestions := Select(fetched.value);
      if |selectedQuestions| < RoundLength {
        return TooFew;
      }
      usedCategories := usedCategories + [category];
      screen := AfterDisplay(currentQuestionIndex, selectedQuestions);
      return Accepted;
    }

    /** `handleAnswer` for the question on display, followed by `displayQuestion`'s check. */
    method HandleAnswer(answer: string)
      requires Valid() && screen == QuestionContainer
      modifies this
      ensures State() == Answered(old(State()), answer)
      ensures Valid()
    {
      var question := selectedQuestions[currentQuestionIndex];
      if answer == question.correctAnswer {
        var points := Points(question.difficulty).value;
        var p := players[currentPlayerIndex];
        players := players[currentPlayerIndex := Player(p.name, p.score + points)];
      }
      currentPlayerIndex := (currentPlayerIndex + 1) % 2;
      currentQuestionIndex := currentQuestionIndex + 1;
      screen := AfterDisplay(currentQuestionIndex, selectedQuestions);
    }

    /** The continue button. */
    method Continue()
      requires Valid() && screen == ResultSection
      modifies this
      ensures State() == Continued(old(State()))
      ensures Valid()
    {
      selectedQuestions := [];
      currentQuestionIndex := 0;
      screen := CategoryBox;
      gameEnded := false;
    }

    /** The stop button; returns the result section it shows. */
    method Stop() returns (v: View)
      requires Valid() && (screen == QuestionContainer || screen == ResultSection)
      modifies this
      ensures State() == Stopped(old(State()))
      ensures Valid()
      ensures v == Scores(players[0], players[1], Some(Winner(players[0].score, players[1].score)))
    {
      gameEnded := true;
      screen := ResultSection;
      v := Display([]);
    }

    /** What the page shows now. On the question screen `shuffled` is the order the answer
        buttons come in, some ordering of the question's options. */
    method Display(shuffled: seq<string>) returns (v: View)
      requires Valid() && (screen == QuestionContainer || screen == ResultSection)
      requires screen == QuestionContainer ==> IsShuffleOf(shuffled, selectedQuestions[currentQuestionIndex])
      ensures v.Ask? <==> screen == QuestionContainer
      ensures v.Ask? ==>
                && v.player == players[currentPlayerIndex].name
                && v.prompt == selectedQuestions[currentQuestionIndex].text
                && v.options == shuffled
                && selectedQuestions[currentQuestionIndex].correctAnswer in v.options
      ensures v.Scores? ==>
                && v.first == players[0] && v.second == players[1]
                && (v.result.Some? <==> gameEnded)
                && (gameEnded ==> v.result.value == Winner(players[0].score, players[1].score))
    {
      if screen == QuestionContainer {
        var question := selectedQuestions[currentQuestionIndex];
        assert question.correctAnswer in multiset(Options(question));
        v := Ask(players[currentPlayerIndex].name, question.text, shuffled);
      } else {
        var result := if gameEnded then Some(Winner(players[0].score, players[1].score)) else None;
        v := Scores(players[0], players[1], result);
      }
    }
  }
}
