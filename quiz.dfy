/** The quiz page (src/pages/Quiz.tsx): one attempt at a quiz as a state
    machine over the page's state variables `selectedQuiz`, `currentQuestion`,
    `answers`, `results`, `score` and `error`.

    `Engine` is that state as a value and `Start`, `Select`, `Next`,
    `Previous`, `Submit`, `Reset` and `Retake` are the handlers as functions
    on it; `QuizPage` holds the same state in fields (the answers in an array)
    and its methods are proved to perform exactly those transitions. */
module Quiz {
  import opened Common

  datatype Question = Question(question: string, options: seq<string>)

  datatype QuizAttempt = QuizAttempt(score: int, attemptedAt: string)

  datatype QuizDef = QuizDef(
    id: string,
    title: string,
    source: string,
    questions: seq<Question>,
    totalQuestions: int,
    bestScore: Option<int>,
    attempts: seq<QuizAttempt>)

  datatype QuizResult = QuizResult(
    question: string,
    userAnswer: string,
    correctAnswer: string,
    isCorrect: bool,
    explanation: string)

  /** What `/quiz/submit` answers with: the server's grading. */
  datatype Grade = Grade(score: int, results: seq<QuizResult>)

  const SubmitFallback := "Failed to submit quiz"

  /** The three screens the page renders: the quiz list, a question, the results. */
  datatype Phase = NoQuiz | Answering | Reviewing

  datatype Engine = Engine(
    selected: Option<QuizDef>,
    current: nat,
    answers: seq<string>,
    results: Option<seq<QuizResult>>,
    score: Option<int>,
    error: string)

  /** The `useState` initial values. */
  const Initial := Engine(None, 0, [], None, None, "")

  function PhaseOf(e: Engine): Phase {
    if e.selected.None? then NoQuiz
    else if e.results.Some? then Reviewing
    else Answering
  }

  /** The page's own consistency: with no quiz everything is reset; with a
      quiz there is one answer slot per question and the index names one. */
  predicate Valid(e: Engine) {
    match e.selected
    case None => e.current == 0 && e.answers == [] && e.results.None? && e.score.None?
    case Some(q) => |q.questions| > 0 && |e.answers| == |q.questions| && e.current < |e.answers|
  }

  function QuestionCount(e: Engine): nat
    requires e.selected.Some?
  {
    |e.selected.value.questions|
  }

  /** `startQuiz(quiz)`; `error` is not touched. */
  function Start(e: Engine, q: QuizDef): Engine
    requires |q.questions| > 0
  {
    Engine(Some(q), 0, seq(|q.questions|, _ => ""), None, None, e.error)
  }

  /** `selectAnswer(answer)`: a copy of `answers` with the current slot replaced. */
  function Select(e: Engine, answer: string): Engine
    requires e.current < |e.answers|
  {
    e.(answers := e.answers[e.current := answer])
  }

  /** `submitQuiz()` once the request has settled with `reply`. */
  function Submit(e: Engine, reply: Reply<Grade>): Engine {
    if e.selected.None? then e
    else match reply
      case Ok(g) => e.(score := Some(g.score), results := Some(g.results))
      case Failed(m) => e.(error := OrElse(m, SubmitFallback))
  }

  /** `nextQuestion()`: advance, or on the last question submit. */
  function Next(e: Engine, reply: Reply<Grade>): Engine
    requires e.selected.Some?
  {
    if e.current < QuestionCount(e) - 1 then e.(current := e.current + 1)
    else Submit(e, reply)
  }

  /** The Previous button: `setCurrentQuestion(Math.max(0, currentQuestion - 1))`. */
  function Previous(e: Engine): Engine {
    e.(current := if e.current == 0 then 0 else e.current - 1)
  }

  /** `resetQuiz()` (the Exit Quiz and Back to Quizzes buttons). */
  function Reset(e: Engine): Engine {
    Engine(None, 0, [], None, None, e.error)
  }

  /** The Retake Quiz button: `startQuiz(selectedQuiz)`. */
  function Retake(e: Engine): Engine
    requires e.selected.Some? && |e.selected.value.questions| > 0
  {
    Start(e, e.selected.value)
  }

  /** `results.filter(r => r.isCorrect).length`, shown as "k/n correct". */
  function CorrectCount(results: seq<QuizResult>): (k: nat)
    ensures k <= |results|
    ensures k == |results| <==> forall i :: 0 <= i < |results| ==> results[i].isCorrect
  {
    if results == [] then 0
    else CorrectCount(results[..|results| - 1]) + (if results[|results| - 1].isCorrect then 1 else 0)
  }

  // ---------------------------------------------------------------------
  // What the user can do, and what the page then does.

  datatype Action =
    | TakeQuiz(quiz: QuizDef)
    | Choose(option: string)
    | NextButton(reply: Reply<Grade>)
    | PreviousButton
    | ExitQuiz
    | RetakeQuiz

  /** Whether the page offers the action: the button is on screen and not
      disabled, and a chosen answer is one of the current question's options.
      The quiz list never offers a quiz without questions. */
  predicate Enabled(e: Engine, a: Action) {
    && Valid(e)
    && match a
       case TakeQuiz(q) => PhaseOf(e) == NoQuiz && |q.questions| > 0
       case Choose(o) =>
         PhaseOf(e) == Answering && o in e.selected.value.questions[e.current].options
       case NextButton(_) => PhaseOf(e) == Answering && e.answers[e.current] != ""
       case PreviousButton => PhaseOf(e) == Answering && e.current != 0
       case ExitQuiz => PhaseOf(e) != NoQuiz
       case RetakeQuiz => PhaseOf(e) == Reviewing
  }

  function Step(e: Engine, a: Action): Engine
    requires Enabled(e, a)
  {
    match a
    case TakeQuiz(q) => Start(e, q)
    case Choose(o) => Select(e, o)
    case NextButton(r) => Next(e, r)
    case PreviousButton => Previous(e)
    case ExitQuiz => Reset(e)
    case RetakeQuiz => Retake(e)
  }

  /** Every slot before the current question holds an answer. */
  predicate AnsweredBefore(e: Engine) {
    forall j :: 0 <= j < e.current && j < |e.answers| ==> e.answers[j] != ""
  }

  /** Every answer slot is empty or one of its question's options. */
  predicate AnswersFromOptions(e: Engine) {
    e.selected.Some? ==>
      forall j :: 0 <= j < |e.answers| && j < |e.selected.value.questions| ==>
        e.answers[j] == "" || e.answers[j] in e.selected.value.questions[j].options
  }

  predicate Reachable(e: Engine) {
    Valid(e) && AnsweredBefore(e) && AnswersFromOptions(e)
  }

  // ---------------------------------------------------------------------
  // Properties of each handler.

  lemma InitialValid()
    ensures Valid(Initial) && PhaseOf(Initial) == NoQuiz && Reachable(Initial)
  {
  }

  /** A started attempt is fresh: index 0, one empty answer per question,
      no results and no score. */
  lemma StartIsFresh(e: Engine, q: QuizDef)
    requires |q.questions| > 0
    ensures var s := Start(e, q);
      && Valid(s) && PhaseOf(s) == Answering && s.selected == Some(q)
      && s.current == 0 && |s.answers| == |q.questions|
      && (forall i :: 0 <= i < |s.answers| ==> s.answers[i] == "")
      && s.results.None? && s.score.None?
  {
  }

  /** Choosing an answer writes the current slot and nothing else. */
  lemma SelectWritesOneSlot(e: Engine, answer: string)
    requires Valid(e) && PhaseOf(e) == Answering
    ensures var s := Select(e, answer);
      && |s.answers| == |e.answers| && s.answers[e.current] == answer
      && (forall j :: 0 <= j < |e.answers| && j != e.current ==> s.answers[j] == e.answers[j])
      && s.selected == e.selected && s.current == e.current && s.results == e.results
      && s.score == e.score && s.error == e.error && Valid(s)
  {
  }

  /** Below the last question Next moves one question on and stays in range;
      on the last question it keeps the index and submits. */
  lemma NextAdvancesOrSubmits(e: Engine, reply: Reply<Grade>)
    requires Valid(e) && PhaseOf(e) == Answering
    ensures var s := Next(e, reply);
      if e.current < QuestionCount(e) - 1 then
        s == e.(current := e.current + 1) && s.current <= QuestionCount(e) - 1
      else
        s == Submit(e, reply) && s.current == e.current
  {
  }

  /** Previous never goes below zero and otherwise steps back exactly one. */
  lemma PreviousStepsBack(e: Engine)
    requires Valid(e)
    ensures var s := Previous(e);
      && s.current == (if e.current > 0 then e.current - 1 else 0)
      && s.current <= e.current && Valid(s)
      && s.answers == e.answers && s.selected == e.selected
  {
  }

  /** A graded submission is stored exactly as the server returned it; a
      failed one only sets the error. */
  lemma SubmitStoresGrade(e: Engine, reply: Reply<Grade>)
    requires e.selected.Some?
    ensures var s := Submit(e, reply);
      && s.selected == e.selected && s.current == e.current && s.answers == e.answers
      && match reply
         case Ok(g) => s.score == Some(g.score) && s.results == Some(g.results)
                       && s.error == e.error && PhaseOf(s) == Reviewing
         case Failed(m) => s.error == OrElse(m, SubmitFallback)
                           && s.score == e.score && s.results == e.results
  {
  }

  /** Reset returns to the quiz list with nothing of the attempt left. */
  lemma ResetClears(e: Engine)
    ensures var s := Reset(e);
      && PhaseOf(s) == NoQuiz && s.current == 0 && s.answers == []
      && s.results.None? && s.score.None? && Valid(s)
  {
  }

  /** Starting, leaving and starting the same quiz again gives the same
      state as starting it once, and a retake is such a fresh start. */
  lemma RestartIsFresh(e: Engine, q: QuizDef)
    requires |q.questions| > 0
    ensures Start(Reset(Start(e, q)), q) == Start(e, q)
    ensures Retake(Start(e, q)) == Start(e, q)
  {
  }

  /** A retake forgets the graded attempt: no results, no score, all
      answers empty, on the same quiz. */
  lemma RetakeForgetsResults(e: Engine)
    requires Valid(e) && PhaseOf(e) == Reviewing
    ensures var s := Retake(e);
      && PhaseOf(s) == Answering && s.selected == e.selected && s.current == 0
      && s.results.None? && s.score.None?
      && (forall i :: 0 <= i < |s.answers| ==> s.answers[i] == "")
  {
  }

  // ---------------------------------------------------------------------
  // Invariants of every run of the page.

  /** Every action the page offers keeps the state consistent, keeps every
      slot before the current question answered and every answer an option. */
  lemma {:induction false} StepPreservesReachable(e: Engine, a: Action)
    requires Reachable(e) && Enabled(e, a)
    ensures Reachable(Step(e, a))
  {
    var s := Step(e, a);
    match a
    case TakeQuiz(q) =>
      StartIsFresh(e, q);
    case Choose(o) =>
      var q := e.selected.value;
      SelectWritesOneSlot(e, o);
      forall j | 0 <= j < |s.answers| && j < |q.questions|
        ensures s.answers[j] == "" || s.answers[j] in q.questions[j].options
      {
        if j != e.current {
          assert s.answers[j] == e.answers[j];
        }
      }
    case NextButton(r) =>
      NextAdvancesOrSubmits(e, r);
      if e.current < QuestionCount(e) - 1 {
        forall j | 0 <= j < s.current && j < |s.answers| ensures s.answers[j] != "" {
          if j < e.current {
          } else {
            assert j == e.current;
          }
        }
      } else {
        SubmitStoresGrade(e, r);
      }
    case PreviousButton =>
      PreviousStepsBack(e);
    case ExitQuiz =>
      ResetClears(e);
    case RetakeQuiz =>
      RetakeForgetsResults(e);
  }

  /** Applies the actions in order; `None` once one is not offered. */
  function Run(e: Engine, actions: seq<Action>): Option<Engine>
    decreases |actions|
  {
    if actions == [] then Some(e)
    else if Enabled(e, actions[0]) then Run(Step(e, actions[0]), actions[1..])
    else None
  }

  /** Whatever the user does, starting from the page's initial state, the
      state stays consistent and answered up to the current question. */
  lemma {:induction false} RunPreservesReachable(e: Engine, actions: seq<Action>)
    requires Reachable(e)
    requires Run(e, actions).Some?
    ensures Reachable(Run(e, actions).value)
    decreases |actions|
  {
    if actions != [] {
      StepPreservesReachable(e, actions[0]);
      RunPreservesReachable(Step(e, actions[0]), actions[1..]);
    }
  }

  /** Submit is offered only when every question has an answer: the Next
      button is disabled on an empty answer, so a reachable state at the last
      question with its Submit button enabled has all answers non-empty. */
  lemma {:induction false} SubmitOnlyWhenComplete(actions: seq<Action>, reply: Reply<Grade>)
    requires Run(Initial, actions).Some?
    requires var e := Run(Initial, actions).value;
      Enabled(e, NextButton(reply)) && e.current == QuestionCount(e) - 1
    ensures var e := Run(Initial, actions).value;
      forall i :: 0 <= i < |e.answers| ==> e.answers[i] != ""
  {
    InitialValid();
    RunPreservesReachable(Initial, actions);
    var e := Run(Initial, actions).value;
    forall i | 0 <= i < |e.answers| ensures e.answers[i] != "" {
      if i < e.current {
      } else {
        assert i == e.current;
      }
    }
  }

  // ---------------------------------------------------------------------
  // The page's state in fields.

  class QuizPage {
    var selected: Option<QuizDef>
    var current: nat
    var answers: array<string>
    var results: Option<seq<QuizResult>>
    var score: Option<int>
    var error: string

    function State(): Engine
      reads this, answers
    {
      Engine(selected, current, answers[..], results, score, error)
    }

    constructor ()
      ensures State() == Initial
    {
      selected := None;
      current := 0;
      answers := new string[0];
      results := None;
      score := None;
      error := "";
    }

    method StartQuiz(q: QuizDef)
      requires |q.questions| > 0
      modifies this
      ensures fresh(answers)
      ensures State() == Start(old(State()), q)
    {
      selected := Some(q);
      current := 0;
      answers := new string[|q.questions|](_ => "");
      results := None;
      score := None;
    }

    method SelectAnswer(answer: string)
      requires Valid(State()) && PhaseOf(State()) == Answering
      modifies this
      ensures fresh(answers)
      ensures State() == Select(old(State()), answer)
    {
      var copy := new string[answers.Length](i reads this, answers => if 0 <= i < answers.Length then answers[i] else "");
      assert copy[..] == answers[..];
      copy[current] := answer;
      answers := copy;
    }

    method SubmitQuiz(reply: Reply<Grade>)
      modifies this
      ensures answers == old(answers)
      ensures State() == Submit(old(State()), reply)
    {
      if selected.None? {
        return;
      }
      match reply
      case Ok(g) =>
        score := Some(g.score);
        results := Some(g.results);
      case Failed(m) =>
        error := OrElse(m, SubmitFallback);
    }

    method NextQuestion(reply: Reply<Grade>)
      requires selected.Some?
      modifies this
      ensures answers == old(answers)
      ensures State() == Next(old(State()), reply)
    {
      if current < |selected.value.questions| - 1 {
        current := current + 1;
      } else {
        SubmitQuiz(reply);
      }
    }

    method PreviousQuestion()
      modifies this
      ensures answers == old(answers)
      ensures State() == Previous(old(State()))
    {
      current := if current == 0 then 0 else current - 1;
    }

    method ResetQuiz()
      modifies this
      ensures fresh(answers)
      ensures State() == Reset(old(State()))
    {
      selected := None;
      current := 0;
      answers := new string[0];
      results := None;
      score := None;
    }

    method RetakeQuiz()
      requires selected.Some? && |selected.value.questions| > 0
      modifies this
      ensures fresh(answers)
      ensures State() == Retake(old(State()))
    {
      StartQuiz(selected.value);
    }

    /** The Next/Submit button is enabled only on a non-empty answer. */
    predicate NextEnabled()
      reads this, answers
    {
      current < answers.Length && answers[current] != ""
    }

    /** The Previous button is disabled on the first question. */
    predicate PreviousEnabled()
      reads this
    {
      current != 0
    }
  }
}
