/** One round of the quiz (the `QuizView` component): assembling the
    questions, then answering them one at a time. The 800 ms `setTimeout`
    after each answer splits every step in two: `Answer` records the choice
    and arms a timer bound to the index answered, `Fire` runs that timer. */
module Quiz {
  import opened Wrappers
  import opened Types
  import opened Sequences
  import opened DbService

  /** Below this many stored questions the round is topped up by the generator. */
  const MinStoreQuestions: nat := 5
  /** Most questions in one round. */
  const RoundLength: nat := 15
  /** Points per correctly answered question. */
  const PointsPerQuestion: nat := 10

  // ---------------------------------------------------------------- assembly

  /** The questions of a round: the stored ones, followed by the generated
      ones only when fewer than `MinStoreQuestions` were stored, shuffled by
      `picks`, cut to `RoundLength`. */
  function Assemble(local: seq<Question>, generated: seq<Question>, picks: seq<nat>): (r: seq<Question>)
    ensures |r| == Min(RoundLength, if |local| < MinStoreQuestions then |local| + |generated| else |local|)
    ensures |local| >= MinStoreQuestions ==> multiset(r) <= multiset(local)
    ensures |local| < MinStoreQuestions ==> multiset(r) <= multiset(local) + multiset(generated)
  {
    var combined := if |local| < MinStoreQuestions then local + generated else local;
    var shuffled := Shuffle(combined, picks);
    Take(shuffled, RoundLength)
  }

  /** Any arrangement of the pool can come out of the shuffle, so every
      first-`RoundLength` slice of a permutation of the pool is a possible round. */
  lemma AssemblyReaches(local: seq<Question>, generated: seq<Question>, p: seq<Question>) returns (picks: seq<nat>)
    requires multiset(p) == multiset(if |local| < MinStoreQuestions then local + generated else local)
    ensures Assemble(local, generated, picks) == Take(p, RoundLength)
  {
    var combined := if |local| < MinStoreQuestions then local + generated else local;
    picks := ShuffleReaches(combined, p);
  }

  /** The body of `load`: the stored questions, topped up with the generated
      ones when too few, shuffled and cut. */
  method CombineAndShuffle(local: seq<Question>, generated: seq<Question>, picks: seq<nat>) returns (r: seq<Question>)
    ensures r == Assemble(local, generated, picks)
  {
    var combined := local;
    if |combined| < MinStoreQuestions {
      combined := combined + generated;
    }
    r := Take(Shuffle(combined, picks), RoundLength);
  }

  /** With enough stored questions, every question of the round is a stored one. */
  lemma StoredRound(local: seq<Question>, generated: seq<Question>, picks: seq<nat>)
    requires |local| >= MinStoreQuestions
    ensures forall q :: q in Assemble(local, generated, picks) ==> q in local
  {
    var r := Assemble(local, generated, picks);
    forall q | q in r ensures q in local {
      assert q in multiset(r);
    }
  }

  // ----------------------------------------------------------- state machine

  /** The value of `feedback` once an answer has been given. */
  datatype Feedback = Correct | Incorrect

  /** A pending `setTimeout`, holding the `currentIndex` its closure captured. */
  datatype Timer = Advance(at: nat) | Eliminate(at: nat)

  /** The callback the round ended with: `onFinish(score)` or `onGameOver(score)`. */
  datatype Outcome = Finished(score: int) | GameOver(score: int)

  /** The component state of a loaded round. */
  datatype Round = Round(
    questions: seq<Question>,
    currentIndex: nat,
    selectedOption: Option<string>,
    feedback: Option<Feedback>,
    timer: Option<Timer>,
    outcome: Option<Outcome>)

  /** Waiting for an answer to question `i`. */
  function Awaiting(qs: seq<Question>, i: nat): Round {
    Round(qs, i, None, None, None, None)
  }

  /** The score shown while playing (`{currentIndex * 10} pts`). A game over
      reports exactly the score on screen; a finished round reports one
      question's worth more, the last answer's points never being shown. */
  function DisplayedScore(r: Round): (p: nat)
    ensures WellFormed(r) && r.outcome.Some? && r.outcome.value.GameOver? ==> r.outcome.value.score == p
    ensures WellFormed(r) && r.outcome.Some? && r.outcome.value.Finished? ==> r.outcome.value.score == p + PointsPerQuestion
  {
    r.currentIndex * PointsPerQuestion
  }

  /** A round of at least one question starts in a reachable state. */
  lemma FreshRound(qs: seq<Question>)
    requires |qs| > 0
    ensures WellFormed(Awaiting(qs, 0))
  {
  }

  /** The states a round of at least one question can reach: a timer is
      pending exactly while an answer is shown and the round is not over, the
      timer holds the index on screen, and an ended round carries the score
      its last answer earned. */
  predicate WellFormed(r: Round) {
    && r.currentIndex < |r.questions|
    && (r.feedback.None? <==> r.selectedOption.None?)
    && (r.feedback.None? ==> r.timer.None? && r.outcome.None?)
    && (r.feedback.Some? ==> (r.timer.Some? <==> r.outcome.None?))
    && (r.feedback == Some(Correct) <==> r.selectedOption == Some(r.questions[r.currentIndex].correctAnswer))
    && (r.timer.Some? ==> r.timer.value.at == r.currentIndex)
    && (r.timer.Some? ==> (r.timer.value.Advance? <==> r.feedback == Some(Correct)))
    && (r.timer.Some? ==> (r.timer.value.Eliminate? <==> r.feedback == Some(Incorrect)))
    && (r.outcome.Some? && r.outcome.value.Finished? ==>
          r.outcome.value.score == |r.questions| * PointsPerQuestion && r.currentIndex == |r.questions| - 1)
    && (r.outcome.Some? && r.outcome.value.GameOver? ==>
          r.outcome.value.score == r.currentIndex * PointsPerQuestion && r.feedback == Some(Incorrect))
  }

  /** `handleAnswer(option)`: ignored while feedback is shown; otherwise the
      option is judged by exact string equality and a timer is armed for the
      current index. */
  function Answer(r: Round, option: string): (res: Round)
    requires r.feedback.None? ==> r.currentIndex < |r.questions|
    ensures r.feedback.Some? ==> res == r
    ensures r.feedback.None? ==>
      && res.questions == r.questions && res.currentIndex == r.currentIndex && res.outcome == r.outcome
      && res.selectedOption == Some(option)
      && (res.feedback == Some(Correct) <==> option == r.questions[r.currentIndex].correctAnswer)
      && res.feedback.Some?
      && res.timer.Some? && res.timer.value.at == r.currentIndex
      && (res.timer.value.Advance? <==> res.feedback == Some(Correct))
    ensures WellFormed(r) ==> WellFormed(res)
  {
    if r.feedback.Some? then r
    else if option == r.questions[r.currentIndex].correctAnswer then
      r.(selectedOption := Some(option), feedback := Some(Correct), timer := Some(Advance(r.currentIndex)))
    else
      r.(selectedOption := Some(option), feedback := Some(Incorrect), timer := Some(Eliminate(r.currentIndex)))
  }

  /** The callback a timer ends the round with, if it ends it: a correct
      answer at the last index finishes with `(i + 1) * 10`, a wrong answer at
      `i` ends the game with `i * 10`. */
  function Ending(r: Round): (o: Option<Outcome>)
    ensures r.timer.None? ==> o.None?
    ensures r.timer.Some? && r.timer.value.Advance? ==>
      (o.Some? <==> r.timer.value.at + 1 >= |r.questions|) &&
      (o.Some? ==> o.value == Finished((r.timer.value.at + 1) * PointsPerQuestion))
    ensures r.timer.Some? && r.timer.value.Eliminate? ==>
      o == Some(GameOver(r.timer.value.at * PointsPerQuestion))
  {
    match r.timer
    case None => None
    case Some(Advance(i)) => if i + 1 >= |r.questions| then Some(Finished((i + 1) * PointsPerQuestion)) else None
    case Some(Eliminate(i)) => Some(GameOver(i * PointsPerQuestion))
  }

  /** The timeout fires: it either ends the round, or moves on to the next
      question with the selection and feedback cleared. */
  function Fire(r: Round): (res: Round)
    ensures r.timer.None? ==> res == r
    ensures res.timer.None? && res.questions == r.questions
    ensures Ending(r).Some? ==> res.outcome == Ending(r) && res.currentIndex == r.currentIndex
    ensures WellFormed(r) ==> WellFormed(res)
    ensures WellFormed(r) && r.timer.Some? && Ending(r).None? ==> res == Awaiting(r.questions, r.currentIndex + 1)
    ensures WellFormed(r) && r.timer.Some? && r.timer.value.Eliminate? ==>
      res.outcome == Some(GameOver(r.currentIndex * PointsPerQuestion))
    ensures WellFormed(r) && r.timer.Some? && r.timer.value.Advance? && Ending(r).Some? ==>
      res.outcome == Some(Finished(|r.questions| * PointsPerQuestion))
  {
    if r.timer.None? then r
    else match Ending(r)
      case Some(o) => r.(timer := None, outcome := Some(o))
      case None => r.(timer := None, currentIndex := r.currentIndex + 1, selectedOption := None, feedback := None)
  }

  /** Answers given one after another, each followed by its timer firing. */
  function Run(r: Round, answers: seq<string>): (res: Round)
    requires WellFormed(r)
    ensures WellFormed(res)
    ensures res.questions == r.questions
    ensures r.currentIndex <= res.currentIndex
    ensures r.outcome.Some? ==> res.outcome == r.outcome
    decreases |answers|
  {
    if answers == [] then r else Run(Fire(Answer(r, answers[0])), answers[1..])
  }

  /** What can happen to a loaded round: a click on an option, or the
      pending timeout (if any) firing. */
  datatype Event = Click(option: string) | Tick

  /** Events in any order, clicks while feedback is shown and ticks with no
      timer pending included. */
  function Replay(r: Round, events: seq<Event>): (res: Round)
    requires WellFormed(r)
    ensures WellFormed(res)
    ensures res.questions == r.questions
    ensures r.currentIndex <= res.currentIndex
    ensures r.outcome.Some? ==> res == r
    decreases |events|
  {
    if events == [] then r
    else
      var next := match events[0] case Click(o) => Answer(r, o) case Tick => Fire(r);
      Replay(next, events[1..])
  }

  /** The right answer to each question, in order. */
  function CorrectAnswers(qs: seq<Question>): (a: seq<string>)
    ensures |a| == |qs|
  {
    seq(|qs|, k requires 0 <= k < |qs| => qs[k].correctAnswer)
  }

  lemma {:induction false} RunConcat(r: Round, a: seq<string>, b: seq<string>)
    requires WellFormed(r)
    ensures Run(r, a + b) == Run(Run(r, a), b)
    decreases |a|
  {
    if a == [] {
      assert a + b == b;
    } else {
      assert (a + b)[0] == a[0] && (a + b)[1..] == a[1..] + b;
      RunConcat(Fire(Answer(r, a[0])), a[1..], b);
    }
  }

  /** Answering questions `i` to `j - 1` correctly moves the round to question
      `j` with nothing selected. */
  lemma {:induction false} CorrectStreak(qs: seq<Question>, i: nat, j: nat)
    requires i <= j < |qs|
    ensures Run(Awaiting(qs, i), CorrectAnswers(qs[i..j])) == Awaiting(qs, j)
    decreases j - i
  {
    var a := CorrectAnswers(qs[i..j]);
    if i < j {
      var next := Fire(Answer(Awaiting(qs, i), a[0]));
      assert next == Awaiting(qs, i + 1);
      assert a[1..] == CorrectAnswers(qs[i + 1..j]);
      CorrectStreak(qs, i + 1, j);
    }
  }

  /** After `k` correct answers from the start, the round shows question `k`
      and a score of exactly `10 * k`. */
  lemma KCorrectAnswers(qs: seq<Question>, k: nat)
    requires k < |qs|
    ensures Run(Awaiting(qs, 0), CorrectAnswers(qs[..k])) == Awaiting(qs, k)
    ensures DisplayedScore(Run(Awaiting(qs, 0), CorrectAnswers(qs[..k]))) == k * PointsPerQuestion
  {
    assert qs[..k] == qs[0..k];
    CorrectStreak(qs, 0, k);
  }

  /** Answering every question correctly finishes with `10` points per question. */
  lemma PerfectRound(qs: seq<Question>)
    requires |qs| > 0
    ensures Run(Awaiting(qs, 0), CorrectAnswers(qs)).outcome == Some(Finished(|qs| * PointsPerQuestion))
  {
    var n := |qs|;
    var last := qs[n - 1].correctAnswer;
    assert CorrectAnswers(qs) == CorrectAnswers(qs[..n - 1]) + [last];
    RunConcat(Awaiting(qs, 0), CorrectAnswers(qs[..n - 1]), [last]);
    KCorrectAnswers(qs, n - 1);
  }

  /** Correct answers up to question `i` and a wrong one there end the game
      on question `i` with `10 * i` points: the missed question earns nothing. */
  lemma FirstMiss(qs: seq<Question>, i: nat, wrong: string)
    requires i < |qs| && wrong != qs[i].correctAnswer
    ensures Run(Awaiting(qs, 0), CorrectAnswers(qs[..i]) + [wrong]).outcome == Some(GameOver(i * PointsPerQuestion))
    ensures Run(Awaiting(qs, 0), CorrectAnswers(qs[..i]) + [wrong]).currentIndex == i
  {
    RunConcat(Awaiting(qs, 0), CorrectAnswers(qs[..i]), [wrong]);
    KCorrectAnswers(qs, i);
  }

  /** Once a round has ended, no further answers or timers change it. */
  lemma {:induction false} EndedRoundIsFinal(r: Round, answers: seq<string>)
    requires WellFormed(r) && r.outcome.Some?
    ensures Run(r, answers) == r
    decreases |answers|
  {
    if answers != [] {
      assert Fire(Answer(r, answers[0])) == r;
      EndedRoundIsFinal(r, answers[1..]);
    }
  }

  // --------------------------------------------------------------- component

  /** The mounted `QuizView` for one theme. */
  class QuizView {
    const theme: Theme
    var loading: bool
    var questions: seq<Question>
    var currentIndex: nat
    var selectedOption: Option<string>
    var feedback: Option<Feedback>
    var timer: Option<Timer>
    var outcome: Option<Outcome>

    function State(): Round
      reads this
    {
      Round(questions, currentIndex, selectedOption, feedback, timer, outcome)
    }

    /** Mounting: loading, no questions yet, index 0, nothing selected. */
    constructor (theme: Theme)
      ensures this.theme == theme && loading
      ensures State() == Awaiting([], 0)
    {
      this.theme := theme;
      loading := true;
      questions := [];
      currentIndex := 0;
      selectedOption := None;
      feedback := None;
      timer := None;
      outcome := None;
    }

    /** The `load` effect: `generated` is what the question generator returns
        (empty when it fails), `picks` the shuffle's random draws. */
    method Load(db: Db, reachable: bool, generated: seq<Question>, picks: seq<nat>)
      requires State() == Awaiting([], 0)
      modifies this`loading, this`questions
      ensures !loading
      ensures State() == Awaiting(questions, 0)
      ensures |questions| > 0 ==> WellFormed(State())
      ensures questions == Assemble(db.GetQuestions(theme, reachable), generated, picks)
      ensures |db.GetQuestions(theme, reachable)| >= MinStoreQuestions ==>
        forall q :: q in questions ==> q in db.questions && q.theme == theme && q.approved
    {
      assert currentIndex == 0 && selectedOption == None && feedback == None && timer == None && outcome == None;
      loading := true;
      var local := db.GetQuestions(theme, reachable);
      questions := CombineAndShuffle(local, generated, picks);
      loading := false;
      assert |local| >= MinStoreQuestions ==>
        forall q :: q in questions ==> q in db.questions && q.theme == theme && q.approved by {
        if |local| >= MinStoreQuestions {
          StoredRound(local, generated, picks);
        }
      }
      assert State() == Awaiting(questions, 0);
      assert |questions| > 0 ==> WellFormed(State()) by {
        if |questions| > 0 {
          FreshRound(questions);
        }
      }
    }

    /** `handleAnswer(option)`, clicked on a rendered question. */
    method HandleAnswer(option: string)
      requires !loading
      requires feedback.None? ==> currentIndex < |questions|
      modifies this`selectedOption, this`feedback, this`timer
      ensures State() == Answer(old(State()), option)
    {
      if feedback.Some? {
        return;
      }
      selectedOption := Some(option);
      if option == questions[currentIndex].correctAnswer {
        feedback := Some(Correct);
        timer := Some(Advance(currentIndex));
      } else {
        feedback := Some(Incorrect);
        timer := Some(Eliminate(currentIndex));
      }
    }

    /** The pending timeout fires; `reported` is the `onFinish`/`onGameOver`
        call it makes, if any. */
    method TimerFires() returns (reported: Option<Outcome>)
      modifies this`currentIndex, this`selectedOption, this`feedback, this`timer, this`outcome
      ensures reported == Ending(old(State()))
      ensures State() == Fire(old(State()))
    {
      reported := None;
      match timer {
        case None =>
        case Some(Advance(i)) =>
          timer := None;
          if i + 1 >= |questions| {
            reported := Some(Finished((i + 1) * PointsPerQuestion));
            outcome := reported;
          } else {
            currentIndex := currentIndex + 1;
            selectedOption := None;
            feedback := None;
          }
        case Some(Eliminate(i)) =>
          timer := None;
          reported := Some(GameOver(i * PointsPerQuestion));
          outcome := reported;
      }
    }
  }
}
