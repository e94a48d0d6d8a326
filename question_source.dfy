/** Questions as the trivia service returns them, the points table, and the rule that
    picks a round's six questions out of a fetched list (script.js:52-56, 96). */
module QuestionSource {

  datatype Option<T> = None | Some(value: T)

  /** One fetched question. `difficulty` is whatever tag the service sent: nothing forces it
      to be one of the three the game knows. */
  datatype Question = Question(
    text: string,
    correctAnswer: string,
    incorrectAnswers: seq<string>,
    difficulty: string)

  const Easy: string := "easy"
  const Medium: string := "medium"
  const Hard: string := "hard"

  /** How many questions of each difficulty a round takes, and the round's length. */
  const PerDifficulty: nat := 2
  const RoundLength: nat := 6

  /** The difficulties of a full round, in the order the selection puts them. */
  const FullRound: seq<string> := [Easy, Easy, Medium, Medium, Hard, Hard]

  predicate Known(d: string) {
    d == Easy || d == Medium || d == Hard
  }

  predicate AllKnown(qs: seq<Question>) {
    forall k | 0 <= k < |qs| :: Known(qs[k].difficulty)
  }

  /** Position of a difficulty in the easy, medium, hard order; unknown tags come last. */
  function Rank(d: string): nat {
    if d == Easy then 0 else if d == Medium then 1 else if d == Hard then 2 else 3
  }

  /** The lookup `{ easy: 10, medium: 15, hard: 20 }[difficulty]`; a missing key gives None. */
  function Points(d: string): (r: Option<nat>)
    ensures r.Some? <==> Known(d)
    ensures r.Some? ==> r.value == 10 + 5 * Rank(d)
  {
    if d == Easy then Some(10)
    else if d == Medium then Some(15)
    else if d == Hard then Some(20)
    else None
  }

  function PointsOf(q: Question): nat
    requires Known(q.difficulty)
  {
    Points(q.difficulty).value
  }

  /** The answer options before shuffling: the incorrect answers, then the correct one. */
  function Options(q: Question): seq<string> {
    q.incorrectAnswers + [q.correctAnswer]
  }

  /** `opts` is some ordering of the options of `q`. */
  predicate IsShuffleOf(opts: seq<string>, q: Question) {
    multiset(opts) == multiset(Options(q))
  }

  function Difficulties(qs: seq<Question>): (r: seq<string>)
    ensures |r| == |qs|
    ensures forall k | 0 <= k < |qs| :: r[k] == qs[k].difficulty
  {
    seq(|qs|, k requires 0 <= k < |qs| => qs[k].difficulty)
  }

  /** `questions.filter((q) => q.difficulty === d)`. */
  function Filter(qs: seq<Question>, d: string): (r: seq<Question>)
    ensures |r| <= |qs|
    ensures forall k | 0 <= k < |r| :: r[k].difficulty == d
    ensures forall q | q in r :: q in qs
  {
    if qs == [] then []
    else (if qs[0].difficulty == d then [qs[0]] else []) + Filter(qs[1..], d)
  }

  /** The filter keeps every fetched question with tag `d`, as often as it was fetched, and
      no other. */
  lemma {:induction false} FilterExact(qs: seq<Question>, d: string)
    ensures forall q :: multiset(Filter(qs, d))[q] == if q.difficulty == d then multiset(qs)[q] else 0
  {
    if qs != [] {
      FilterExact(qs[1..], d);
      assert qs == [qs[0]] + qs[1..];
    }
  }

  function Count(qs: seq<Question>, d: string): nat {
    |Filter(qs, d)|
  }

  /** The count behind the "two of each difficulty" test is the number of fetched questions
      carrying that tag. */
  lemma {:induction false} CountByTag(qs: seq<Question>, d: string)
    ensures Count(qs, d) == multiset(Difficulties(qs))[d]
  {
    if qs != [] {
      CountByTag(qs[1..], d);
      assert Difficulties(qs) == [qs[0].difficulty] + Difficulties(qs[1..]);
    }
  }

  /** `slice(0, 2)`: the first two elements, or all of them when there are fewer. */
  function FirstTwo(s: seq<Question>): (r: seq<Question>)
    ensures r <= s
    ensures |r| == if |s| < PerDifficulty then |s| else PerDifficulty
  {
    if |s| <= PerDifficulty then s else s[..PerDifficulty]
  }

  /** The round's questions: the first two easy, then the first two medium, then the first
      two hard ones, each group in the order the service returned them. */
  function Select(qs: seq<Question>): seq<Question> {
    FirstTwo(Filter(qs, Easy)) + FirstTwo(Filter(qs, Medium)) + FirstTwo(Filter(qs, Hard))
  }

  /** The fetched list holds enough questions of every difficulty for a round. */
  predicate HasFullRound(qs: seq<Question>) {
    Count(qs, Easy) >= PerDifficulty && Count(qs, Medium) >= PerDifficulty && Count(qs, Hard) >= PerDifficulty
  }

  lemma {:induction false} FilterConcat(a: seq<Question>, b: seq<Question>, d: string)
    ensures Filter(a + b, d) == Filter(a, d) + Filter(b, d)
  {
    if a == [] {
      assert a + b == b;
    } else {
      assert (a + b)[0] == a[0];
      assert (a + b)[1..] == a[1..] + b;
      FilterConcat(a[1..], b, d);
    }
  }

  lemma DistinctTags()
    ensures Easy != Medium && Medium != Hard && Easy != Hard
  {
    assert Easy[0] != Medium[0] && Medium[0] != Hard[0] && Easy[0] != Hard[0];
  }

  /** Filtering a list whose elements all have difficulty `e` keeps all or nothing. */
  lemma {:induction false} FilterUniform(s: seq<Question>, e: string, d: string)
    requires forall k | 0 <= k < |s| :: s[k].difficulty == e
    ensures Filter(s, d) == if e == d then s else []
  {
    if s != [] {
      FilterUniform(s[1..], e, d);
      assert s == [s[0]] + s[1..];
    }
  }

  lemma FirstTwoUniform(s: seq<Question>, e: string)
    requires forall k | 0 <= k < |s| :: s[k].difficulty == e
    ensures forall k | 0 <= k < |FirstTwo(s)| :: FirstTwo(s)[k].difficulty == e
  {
    var r := FirstTwo(s);
    forall k | 0 <= k < |r| ensures r[k].difficulty == e {
      assert r[k] == s[k];
    }
  }

  /** Within each difficulty the selection is exactly the first two questions of that
      difficulty in fetched order: at most two of each, and their relative order kept.
      Questions of any other tag are dropped. */
  lemma SelectBucket(qs: seq<Question>, d: string)
    ensures Filter(Select(qs), d) == if Known(d) then FirstTwo(Filter(qs, d)) else []
  {
    var fe, fm, fh := Filter(qs, Easy), Filter(qs, Medium), Filter(qs, Hard);
    var e, m, h := FirstTwo(fe), FirstTwo(fm), FirstTwo(fh);
    assert Select(qs) == e + m + h;
    FilterConcat(e + m, h, d);
    FilterConcat(e, m, d);
    FirstTwoUniform(fe, Easy);
    FirstTwoUniform(fm, Medium);
    FirstTwoUniform(fh, Hard);
    FilterUniform(e, Easy, d);
    FilterUniform(m, Medium, d);
    FilterUniform(h, Hard, d);
    DistinctTags();
    if d == Easy {
      assert Filter(Select(qs), d) == e + [] + [];
    } else if d == Medium {
      assert Filter(Select(qs), d) == [] + m + [];
    } else if d == Hard {
      assert Filter(Select(qs), d) == [] + [] + h;
    }
  }

  /** Every selected question has difficulty easy, medium or hard, all easy ones come
      before all medium ones, and all medium ones before all hard ones. */
  lemma SelectOrdered(qs: seq<Question>)
    ensures AllKnown(Select(qs))
    ensures forall i, j | 0 <= i < j < |Select(qs)| ::
              Rank(Select(qs)[i].difficulty) <= Rank(Select(qs)[j].difficulty)
  {
    var e, m, h := FirstTwo(Filter(qs, Easy)), FirstTwo(Filter(qs, Medium)), FirstTwo(Filter(qs, Hard));
    FirstTwoUniform(Filter(qs, Easy), Easy);
    FirstTwoUniform(Filter(qs, Medium), Medium);
    FirstTwoUniform(Filter(qs, Hard), Hard);
    var r := Select(qs);
    forall k | 0 <= k < |r|
      ensures Rank(r[k].difficulty) == if k < |e| then 0 else if k < |e| + |m| then 1 else 2
    {
      if k < |e| {
        assert r[k] == e[k];
      } else if k < |e| + |m| {
        assert r[k] == m[k - |e|];
      } else {
        assert r[k] == h[k - |e| - |m|];
      }
    }
  }

  /** The selection is a full round exactly when the fetched list holds at least two
      questions of each difficulty; it never holds more than six. */
  lemma SelectLength(qs: seq<Question>)
    ensures |Select(qs)| <= RoundLength
    ensures |Select(qs)| == RoundLength <==> HasFullRound(qs)
  {
  }

  /** A full selection reads easy, easy, medium, medium, hard, hard. */
  lemma SelectFull(qs: seq<Question>)
    requires HasFullRound(qs)
    ensures Difficulties(Select(qs)) == FullRound
  {
    var r := Select(qs);
    SelectOrdered(qs);
    var e, m, h := FirstTwo(Filter(qs, Easy)), FirstTwo(Filter(qs, Medium)), FirstTwo(Filter(qs, Hard));
    FirstTwoUniform(Filter(qs, Easy), Easy);
    FirstTwoUniform(Filter(qs, Medium), Medium);
    FirstTwoUniform(Filter(qs, Hard), Hard);
    assert r[0] == e[0] && r[1] == e[1];
    assert r[2] == m[0] && r[3] == m[1];
    assert r[4] == h[0] && r[5] == h[1];
  }

  lemma FilterCons(x: Question, rest: seq<Question>, d: string)
    ensures multiset(Filter([x] + rest, d))
            == (if x.difficulty == d then multiset{x} else multiset{}) + multiset(Filter(rest, d))
  {
    assert ([x] + rest)[0] == x;
    assert ([x] + rest)[1..] == rest;
  }

  /** The three difficulty groups of a list are disjoint parts of it. */
  lemma {:induction false} FilterPartition(qs: seq<Question>)
    ensures multiset(Filter(qs, Easy)) + multiset(Filter(qs, Medium)) + multiset(Filter(qs, Hard))
            <= multiset(qs)
  {
    if qs != [] {
      var x, rest := qs[0], qs[1..];
      FilterPartition(rest);
      assert qs == [x] + rest;
      FilterCons(x, rest, Easy);
      FilterCons(x, rest, Medium);
      FilterCons(x, rest, Hard);
      DistinctTags();
    }
  }

  /** Every selected question is one of the fetched ones, and none is taken twice. */
  lemma SelectFromFetched(qs: seq<Question>)
    ensures multiset(Select(qs)) <= multiset(qs)
  {
    FilterPartition(qs);
    var fe, fm, fh := Filter(qs, Easy), Filter(qs, Medium), Filter(qs, Hard);
    assert fe == FirstTwo(fe) + fe[|FirstTwo(fe)|..];
    assert fm == FirstTwo(fm) + fm[|FirstTwo(fm)|..];
    assert fh == FirstTwo(fh) + fh[|FirstTwo(fh)|..];
  }
}
