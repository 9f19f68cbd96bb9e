/** The statistics cards of src/pages/Dashboard.tsx: counts of the fetched
    guides and quizzes, the rounded average of the quizzes' best scores, and
    the user's streak. */
module DashboardStats {
  import opened Common
  import Quiz
  import StudyGuides

  datatype Stats = Stats(totalGuides: nat, totalQuizzes: nat, averageScore: int, streak: int)

  /** The two lists `fetchStats` requests together. */
  datatype Fetched = Fetched(guides: seq<StudyGuides.Guide>, quizzes: seq<Quiz.QuizDef>)

  /** `quiz.bestScore || 0`. */
  function BestOrZero(quiz: Quiz.QuizDef): int {
    if quiz.bestScore.Some? then quiz.bestScore.value else 0
  }

  /** The `reduce` over the quizzes, left to right. */
  function TotalBest(quizzes: seq<Quiz.QuizDef>): int {
    if quizzes == [] then 0 else TotalBest(quizzes[..|quizzes| - 1]) + BestOrZero(quizzes[|quizzes| - 1])
  }

  /** `Math.round` of the mean best score; 0 without quizzes. */
  function AverageScore(quizzes: seq<Quiz.QuizDef>): int {
    if |quizzes| > 0 then RoundHalfUp(TotalBest(quizzes), |quizzes|) else 0
  }

  function InitialStats(user: Option<User>): Stats {
    Stats(0, 0, 0, StreakCount(user))
  }

  function StatsFrom(fetched: Fetched, user: Option<User>): Stats {
    Stats(|fetched.guides|, |fetched.quizzes|, AverageScore(fetched.quizzes), StreakCount(user))
  }

  predicate ScoresArePercentages(quizzes: seq<Quiz.QuizDef>) {
    forall i :: 0 <= i < |quizzes| ==> 0 <= BestOrZero(quizzes[i]) <= 100
  }

  // ---------------------------------------------------------------------

  /** The sum of `n` percentages lies between 0 and `100 n`. */
  lemma {:induction false} TotalBestBounds(quizzes: seq<Quiz.QuizDef>)
    requires ScoresArePercentages(quizzes)
    ensures 0 <= TotalBest(quizzes) <= 100 * |quizzes|
    decreases |quizzes|
  {
    if quizzes != [] {
      var init := quizzes[..|quizzes| - 1];
      assert ScoresArePercentages(init) by {
        forall i | 0 <= i < |init| ensures 0 <= BestOrZero(init[i]) <= 100 {
          assert init[i] == quizzes[i];
        }
      }
      TotalBestBounds(init);
    }
  }

  /** With every best score a percentage, so is the average. */
  lemma AverageIsPercentage(quizzes: seq<Quiz.QuizDef>)
    requires ScoresArePercentages(quizzes)
    ensures 0 <= AverageScore(quizzes) <= 100
  {
    if |quizzes| > 0 {
      var n := |quizzes|;
      TotalBestBounds(quizzes);
      RoundHalfUpNearest(TotalBest(quizzes), n);
      var r := AverageScore(quizzes);
      if r < 0 {
        ScaleMonotone(2 * n, r, -1);
      }
      if r > 100 {
        ScaleMonotone(2 * n, 101, r);
      }
    }
  }

  /** Without quizzes the average is 0; otherwise it is the whole number
      nearest to the mean best score, halves rounded up, and no other. */
  lemma AverageIsRoundedMean(quizzes: seq<Quiz.QuizDef>, r: int)
    ensures |quizzes| == 0 ==> AverageScore(quizzes) == 0
    ensures |quizzes| > 0 ==>
      2 * |quizzes| * AverageScore(quizzes) - |quizzes| <= 2 * TotalBest(quizzes) < 2 * |quizzes| * AverageScore(quizzes) + |quizzes|
    ensures |quizzes| > 0 && 2 * |quizzes| * r - |quizzes| <= 2 * TotalBest(quizzes) < 2 * |quizzes| * r + |quizzes| ==>
      r == AverageScore(quizzes)
  {
    if |quizzes| > 0 {
      RoundHalfUpNearest(TotalBest(quizzes), |quizzes|);
      if 2 * |quizzes| * r - |quizzes| <= 2 * TotalBest(quizzes) < 2 * |quizzes| * r + |quizzes| {
        RoundHalfUpUnique(TotalBest(quizzes), |quizzes|, r);
      }
    }
  }

  /** A quiz without a best score weighs in as 0. */
  lemma MissingBestCountsZero(quizzes: seq<Quiz.QuizDef>, q: Quiz.QuizDef)
    requires q.bestScore.None?
    ensures TotalBest(quizzes + [q]) == TotalBest(quizzes)
  {
    assert (quizzes + [q])[..|quizzes|] == quizzes;
  }

  /** A fetch only moves the three counted cards off their initial values:
      an empty reply shows exactly the initial cards, every reply keeps the
      streak card, and the counts are zero only for an empty reply. */
  lemma FetchMovesOnlyCounts(fetched: Fetched, user: Option<User>)
    ensures StatsFrom(Fetched([], []), user) == InitialStats(user)
    ensures StatsFrom(fetched, user).streak == InitialStats(user).streak
    ensures StatsFrom(fetched, user).totalGuides + StatsFrom(fetched, user).totalQuizzes == 0 <==>
      fetched == Fetched([], [])
  {
  }

  // ---------------------------------------------------------------------

  class DashboardPage {
    var stats: Stats
    const user: Option<User>

    constructor(user: Option<User>)
      ensures stats == InitialStats(user) && this.user == user
    {
      stats := InitialStats(user);
      this.user := user;
    }

    /** `fetchStats`; a failure of either request leaves the cards as they were. */
    method FetchStats(reply: Reply<Fetched>)
      modifies this`stats
      ensures stats == if reply.Ok? then StatsFrom(reply.data, user) else old(stats)
    {
      if reply.Ok? {
        stats := StatsFrom(reply.data, user);
      }
    }
  }
}
