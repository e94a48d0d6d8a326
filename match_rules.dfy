/** The game state of script.js:15-20 as a value, and what each event handler does to it:
    the entry form's submit (lines 23-34), the category choice (lines 37-70), an answer
    (lines 94-102, with the end-of-round check of lines 73-77), continue (lines 121-128)
    and stop (lines 131-135). */
module MatchRules {
  import opened QuestionSource

  datatype Player = Player(name: string, score: nat)

  /** The page section on display; it decides which handler the players can trigger next. */
  datatype Screen = EntryForm | CategoryBox | QuestionContainer | ResultSection

  datatype MatchState = MatchState(
    players: seq<Player>,
    currentPlayer: nat,
    currentQuestion: nat,
    selected: seq<Question>,
    usedCategories: seq<string>,
    gameEnded: bool,
    screen: Screen)

  /** Outcome of choosing a category. */
  datatype Choice =
    | Duplicate     // already chosen in this match
    | Unavailable   // the fetch or the JSON decoding failed
    | TooFew        // fewer than six questions could be selected
    | Accepted

  datatype Outcome = Tie | Wins(player: nat)

  /** The state when the page loads. */
  const Initial: MatchState := MatchState([], 0, 0, [], [], false, EntryForm)

  predicate NoRepeats(cs: seq<string>) {
    forall i, j | 0 <= i < j < |cs| :: cs[i] != cs[j]
  }

  /** What holds of every reachable state. */
  predicate Inv(s: MatchState) {
    && s.currentPlayer < 2
    && (s.screen == EntryForm ==> s.currentQuestion == 0 && s.currentPlayer == 0)
    && (s.screen != EntryForm ==> |s.players| == 2)
    && NoRepeats(s.usedCategories)
    && (s.screen == CategoryBox ==> s.currentQuestion == 0)
    && (s.screen == QuestionContainer ==>
          s.currentQuestion < |s.selected| && AllKnown(s.selected) && Difficulties(s.selected) == FullRound)
    && (s.screen == ResultSection && !s.gameEnded ==> s.currentQuestion == |s.selected|)
    && (s.gameEnded ==> s.screen == ResultSection)
  }

  lemma InitialInv()
    ensures Inv(Initial)
  {
  }

  /** `displayQuestion`'s check: past the last question the round ends and the scores are
      shown; otherwise the next question is. */
  function AfterDisplay(index: nat, selected: seq<Question>): (r: Screen)
    ensures r == ResultSection <==> index >= |selected|
    ensures r == QuestionContainer <==> index < |selected|
  {
    if index >= |selected| then ResultSection else QuestionContainer
  }

  /** Submitting the entry form. Both names must be non-empty; then both players start at 0.
      The handler leaves the turn alone, and nothing before it can have moved it off the
      first player. */
  function Submitted(s: MatchState, name1: string, name2: string): (r: MatchState)
    requires Inv(s) && s.screen == EntryForm
    ensures Inv(r)
    ensures r == s <==> name1 == [] || name2 == []
    ensures r != s ==>
              && r.players == [Player(name1, 0), Player(name2, 0)]
              && r.screen == CategoryBox
              && r.currentPlayer == 0
              && r == s.(players := r.players, screen := r.screen)
  {
    if name1 == [] || name2 == [] then s
    else s.(players := [Player(name1, 0), Player(name2, 0)], screen := CategoryBox)
  }

  /** Choosing category `c`, where `fetched` is what the service returned, or None when the
      request or its decoding failed. */
  function Chosen(s: MatchState, c: string, fetched: Option<seq<Question>>): (r: (Choice, MatchState))
    requires Inv(s) && s.screen == CategoryBox
    ensures Inv(r.1)
    ensures r.0 == Duplicate <==> c in s.usedCategories
    ensures r.0 == Unavailable <==> c !in s.usedCategories && fetched.None?
    ensures r.0 == TooFew <==> c !in s.usedCategories && fetched.Some? && !HasFullRound(fetched.value)
    ensures r.0 == Accepted <==> c !in s.usedCategories && fetched.Some? && HasFullRound(fetched.value)
    ensures r.0 == Duplicate || r.0 == Unavailable ==> r.1 == s
    ensures r.0 == TooFew ==> fetched.Some? && r.1 == s.(selected := Select(fetched.value))
    ensures r.0 == Accepted ==>
              && r.1.usedCategories == s.usedCategories + [c]
              && r.1.selected == Select(fetched.value)
              && r.1.screen == QuestionContainer
              && r.1 == s.(usedCategories := r.1.usedCategories, selected := r.1.selected, screen := r.1.screen)
    ensures r.1.usedCategories == s.usedCategories || r.0 == Accepted
    ensures s.usedCategories <= r.1.usedCategories
  {
    if c in s.usedCategories then (Duplicate, s)
    else if fetched.None? then (Unavailable, s)
    else
      var sel := Select(fetched.value);
      SelectLength(fetched.value);
      if |sel| < RoundLength then (TooFew, s.(selected := sel))
      else
        SelectOrdered(fetched.value);
        SelectFull(fetched.value);
        (Accepted, s.(selected := sel, usedCategories := s.usedCategories + [c],
                      screen := AfterDisplay(s.currentQuestion, sel)))
  }

  /** The question on display, answered with `answer`; points go to the player whose turn
      it is when the answer is the correct one. */
  function Answered(s: MatchState, answer: string): (r: MatchState)
    requires Inv(s) && s.screen == QuestionContainer
    ensures Inv(r)
    ensures r.currentPlayer == 1 - s.currentPlayer
    ensures r.currentQuestion == s.currentQuestion + 1
    ensures var q, p := s.selected[s.currentQuestion], s.currentPlayer;
            && |r.players| == 2
            && r.players[p].name == s.players[p].name
            && r.players[p].score == s.players[p].score + (if answer == q.correctAnswer then PointsOf(q) else 0)
            && r.players[1 - p] == s.players[1 - p]
    ensures r.selected == s.selected && r.usedCategories == s.usedCategories && r.gameEnded == s.gameEnded
    ensures r.screen == ResultSection <==> r.currentQuestion == |s.selected|
  {
    var q, p := s.selected[s.currentQuestion], s.currentPlayer;
    var players := if answer == q.correctAnswer
                   then s.players[p := Player(s.players[p].name, s.players[p].score + PointsOf(q))]
                   else s.players;
    var next := s.currentQuestion + 1;
    s.(players := players, currentPlayer := (p + 1) % 2, currentQuestion := next,
       screen := AfterDisplay(next, s.selected))
  }

  /** Continue after a round: a fresh round starts with the same players, scores and used
      categories. */
  function Continued(s: MatchState): (r: MatchState)
    requires Inv(s) && s.screen == ResultSection
    ensures Inv(r)
    ensures r.selected == [] && r.currentQuestion == 0 && !r.gameEnded && r.screen == CategoryBox
    ensures r.players == s.players && r.usedCategories == s.usedCategories && r.currentPlayer == s.currentPlayer
  {
    s.(selected := [], currentQuestion := 0, gameEnded := false, screen := CategoryBox)
  }

  /** Stop: the match is marked over and the result section shows the winner. */
  function Stopped(s: MatchState): (r: MatchState)
    requires Inv(s) && (s.screen == QuestionContainer || s.screen == ResultSection)
    ensures Inv(r)
    ensures r.gameEnded && r.screen == ResultSection
    ensures r.players == s.players && r.currentPlayer == s.currentPlayer && r.currentQuestion == s.currentQuestion
    ensures r.selected == s.selected && r.usedCategories == s.usedCategories
  {
    s.(gameEnded := true, screen := ResultSection)
  }

  /** `endGame`'s verdict: equal scores tie, otherwise the strictly higher score wins. */
  function Winner(score0: int, score1: int): (r: Outcome)
    ensures r == Tie <==> score0 == score1
    ensures r == Wins(0) <==> score0 > score1
    ensures r == Wins(1) <==> score1 > score0
  {
    if score0 == score1 then Tie
    else if score0 > score1 then Wins(0)
    else Wins(1)
  }

  /** The verdict does not depend on which player is listed first. */
  lemma WinnerSymmetric(score0: int, score1: int)
    ensures Winner(score1, score0) == match Winner(score0, score1)
                                      case Tie => Tie
                                      case Wins(p) => Wins(1 - p)
  {
  }

  /** The rest of a round, answered with `answers`, one per remaining question. */
  function PlayRound(s: MatchState, answers: seq<string>): (t: MatchState)
    requires Inv(s) && s.screen == QuestionContainer
    requires |answers| == |s.selected| - s.currentQuestion
    ensures Inv(t) && t.screen == ResultSection
    decreases |answers|
  {
    var next := Answered(s, answers[0]);
    if |answers| == 1 then next else PlayRound(next, answers[1..])
  }

  /** Points player `p` earns from `answers` given to the questions from index `idx` on, when
      `player` answers first and the turn alternates after every answer. */
  function Gain(qs: seq<Question>, answers: seq<string>, idx: nat, player: nat, p: nat): nat
    requires AllKnown(qs) && idx + |answers| <= |qs|
    decreases |answers|
  {
    if answers == [] then 0
    else (if player == p && answers[0] == qs[idx].correctAnswer then PointsOf(qs[idx]) else 0)
         + Gain(qs, answers[1..], idx + 1, (player + 1) % 2, p)
  }

  /** How many of `n` alternating turns fall to player `p` when `player` goes first
      (`TurnsCountAlternation` shows that it counts the k < n with `Alternate(player, k) == p`). */
  function Turns(n: nat, player: nat, p: nat): nat {
    if n == 0 then 0 else (if player == p then 1 else 0) + Turns(n - 1, (player + 1) % 2, p)
  }

  /** Playing out a round ends it with the scores shown, the same two players, and the questions and used categories unchanged. */
  lemma {:induction false} RoundOutcome(s: MatchState, answers: seq<string>)
    requires Inv(s) && s.screen == QuestionContainer
    requires |answers| == |s.selected| - s.currentQuestion
    ensures var t := PlayRound(s, answers);
            && t.currentQuestion == |s.selected|
            && |t.players| == 2
            && (forall p | 0 <= p < 2 :: t.players[p].name == s.players[p].name)
            && t.selected == s.selected && t.usedCategories == s.usedCategories && t.gameEnded == s.gameEnded
    decreases |answers|
  {
    var next := Answered(s, answers[0]);
    if |answers| == 1 {
      assert PlayRound(s, answers) == next;
    } else {
      assert PlayRound(s, answers) == PlayRound(next, answers[1..]);
      RoundOutcome(next, answers[1..]);
    }
  }

  /** The player whose turn it is after `n` answers, `player` having had the first. */
  function Alternate(player: nat, n: nat): nat
    decreases n
  {
    if n == 0 then player else Alternate((player + 1) % 2, n - 1)
  }

  /** Over the rest of a round the turn passes once per answer. */
  lemma {:induction false} RoundTurn(s: MatchState, answers: seq<string>)
    requires Inv(s) && s.screen == QuestionContainer
    requires |answers| == |s.selected| - s.currentQuestion
    ensures PlayRound(s, answers).currentPlayer == Alternate(s.currentPlayer, |answers|)
    decreases |answers|
  {
    var next := Answered(s, answers[0]);
    if |answers| == 1 {
      assert PlayRound(s, answers) == next;
    } else {
      assert PlayRound(s, answers) == PlayRound(next, answers[1..]);
      RoundTurn(next, answers[1..]);
    }
  }

  /** Over the rest of a round each player's score grows by exactly what that player earns
      on their own turns. */
  lemma {:induction false} RoundScores(s: MatchState, answers: seq<string>)
    requires Inv(s) && s.screen == QuestionContainer
    requires |answers| == |s.selected| - s.currentQuestion
    ensures var t := PlayRound(s, answers);
            forall p | 0 <= p < 2 ::
              t.players[p].score == s.players[p].score
                                    + Gain(s.selected, answers, s.currentQuestion, s.currentPlayer, p)
    decreases |answers|
  {
    var next := Answered(s, answers[0]);
    forall p | 0 <= p < 2
      ensures next.players[p].score + Gain(s.selected, answers[1..], s.currentQuestion + 1, next.currentPlayer, p)
              == s.players[p].score + Gain(s.selected, answers, s.currentQuestion, s.currentPlayer, p)
    {
      AnswerGain(s, answers, p);
    }
    if |answers| == 1 {
      assert PlayRound(s, answers) == next;
    } else {
      assert PlayRound(s, answers) == PlayRound(next, answers[1..]);
      RoundScores(next, answers[1..]);
    }
  }

  /** One answer moves the first term of a player's gain into that player's score. */
  lemma AnswerGain(s: MatchState, answers: seq<string>, p: nat)
    requires Inv(s) && s.screen == QuestionContainer && p < 2
    requires |answers| == |s.selected| - s.currentQuestion
    ensures var next := Answered(s, answers[0]);
            next.players[p].score + Gain(s.selected, answers[1..], s.currentQuestion + 1, next.currentPlayer, p)
            == s.players[p].score + Gain(s.selected, answers, s.currentQuestion, s.currentPlayer, p)
  {
    var next := Answered(s, answers[0]);
    var cur := s.currentPlayer;
    assert next.currentPlayer == (cur + 1) % 2;
    if p != cur {
      assert p == 1 - cur;
    }
  }

  /** A player earns at most 20 points per turn. */
  lemma {:induction false} GainBound(qs: seq<Question>, answers: seq<string>, idx: nat, player: nat, p: nat)
    requires AllKnown(qs) && idx + |answers| <= |qs|
    ensures Gain(qs, answers, idx, player, p) <= 20 * Turns(|answers|, player, p)
  {
    if answers != [] {
      GainBound(qs, answers[1..], idx + 1, (player + 1) % 2, p);
    }
  }

  /** Each further turn counts towards `p` exactly when the alternation has reached `p`, so
      `Turns(n, player, p)` is the number of k < n with `Alternate(player, k) == p`. */
  lemma {:induction false} TurnsCountAlternation(n: nat, player: nat, p: nat)
    requires player < 2 && n > 0
    ensures Turns(n, player, p) == Turns(n - 1, player, p) + (if Alternate(player, n - 1) == p then 1 else 0)
  {
    if n > 1 {
      TurnsCountAlternation(n - 1, (player + 1) % 2, p);
    }
  }

  /** Six alternating turns give each player three. */
  lemma SixTurns(player: nat, p: nat)
    requires player < 2 && p < 2
    ensures Turns(RoundLength, player, p) == 3
    ensures Alternate(player, RoundLength) == player
  {
    var other := (player + 1) % 2;
    assert Turns(2, player, p) == 1 by {
      assert Turns(1, other, p) == (if other == p then 1 else 0);
    }
    assert Turns(4, player, p) == 2 by {
      assert Turns(3, other, p) == (if other == p then 1 else 0) + Turns(2, player, p);
    }
    assert Turns(5, other, p) == (if other == p then 1 else 0) + Turns(4, player, p);
    assert Alternate(player, 6) == Alternate(player, 4) == Alternate(player, 2) == Alternate(player, 0);
  }

  /** A whole six-question round gives each player three turns and at most 60 points, and
      hands the turn back to the player who started it. The turns are those of the alternation
      `RoundTurn` establishes (see `TurnsCountAlternation`). */
  lemma FullRoundTurns(s: MatchState, answers: seq<string>)
    requires Inv(s) && s.screen == QuestionContainer && s.currentQuestion == 0
    requires |answers| == |s.selected|
    ensures PlayRound(s, answers).currentPlayer == s.currentPlayer
    ensures forall p | 0 <= p < 2 :: Turns(|answers|, s.currentPlayer, p) == 3
    ensures forall p | 0 <= p < 2 ::
              PlayRound(s, answers).players[p].score <= s.players[p].score + 60
  {
    RoundTurn(s, answers);
    RoundScores(s, answers);
    assert |answers| == RoundLength;
    SixTurns(s.currentPlayer, 0);
    forall p | 0 <= p < 2
      ensures Turns(|answers|, s.currentPlayer, p) == 3
      ensures Gain(s.selected, answers, 0, s.currentPlayer, p) <= 60
    {
      SixTurns(s.currentPlayer, p);
      GainBound(s.selected, answers, 0, s.currentPlayer, p);
    }
  }

  /** Ann starts a round and answers her three questions (one of each difficulty) correctly,
      Bo answers his wrongly: Ann ends with 45, Bo with 0, and stopping declares Ann the
      winner. */
  lemma AnnBeatsBo(s: MatchState, wrong: string)
    requires Inv(s) && s.screen == QuestionContainer && s.currentQuestion == 0 && s.currentPlayer == 0
    requires s.players == [Player("Ann", 0), Player("Bo", 0)]
    requires forall k | 0 <= k < |s.selected| :: s.selected[k].correctAnswer != wrong
    ensures var answers := [s.selected[0].correctAnswer, wrong, s.selected[2].correctAnswer, wrong,
                            s.selected[4].correctAnswer, wrong];
            var t := Stopped(PlayRound(s, answers));
            && t.players == [Player("Ann", 45), Player("Bo", 0)]
            && Winner(t.players[0].score, t.players[1].score) == Wins(0)
  {
    var qs := s.selected;
    var answers := [qs[0].correctAnswer, wrong, qs[2].correctAnswer, wrong, qs[4].correctAnswer, wrong];
    RoundOutcome(s, answers);
    RoundScores(s, answers);
    assert qs[0].difficulty == Easy && qs[2].difficulty == Medium && qs[4].difficulty == Hard by {
      assert Difficulties(qs) == FullRound;
    }
    assert Gain(qs, answers[5..], 5, 1, 0) == 0;
    assert Gain(qs, answers[4..], 4, 0, 0) == 20;
    assert Gain(qs, answers[3..], 3, 1, 0) == 20;
    assert Gain(qs, answers[2..], 2, 0, 0) == 35;
    assert Gain(qs, answers[1..], 1, 1, 0) == 35;
    assert Gain(qs, answers, 0, 0, 0) == 45;
    assert Gain(qs, answers[5..], 5, 1, 1) == 0;
    assert Gain(qs, answers[4..], 4, 0, 1) == 0;
    assert Gain(qs, answers[3..], 3, 1, 1) == 0;
    assert Gain(qs, answers[2..], 2, 0, 1) == 0;
    assert Gain(qs, answers[1..], 1, 1, 1) == 0;
    assert Gain(qs, answers, 0, 0, 1) == 0;
  }
}
