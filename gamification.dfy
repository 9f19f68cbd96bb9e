/** The rules of src/pages/Gamification.tsx: which of the four badges are
    earned, how many are counted, the defaults of the streak and points
    cards, and how leaderboard rows are styled and highlighted. */
module Gamification {
  import opened Common

  datatype BadgeEntry = BadgeEntry(name: string, earned: bool)

  datatype LeaderboardEntry = LeaderboardEntry(rank: int, name: string, points: int, streak: int)

  datatype RankStyle = Gold | Silver | Bronze | Plain

  const StreakGoal := 7

  /** `user?.streak && user.streak.count >= 7`. */
  predicate StreakEarned(user: Option<User>) {
    user.Some? && user.value.streak.Some? && user.value.streak.value.count >= StreakGoal
  }

  /** `mockBadges`, in display order. */
  function Badges(user: Option<User>): seq<BadgeEntry> {
    [ BadgeEntry("First Steps", true),
      BadgeEntry("Study Streak", StreakEarned(user)),
      BadgeEntry("Quiz Master", false),
      BadgeEntry("Study Legend", false) ]
  }

  /** `badges.filter(b => b.earned).length`. */
  function EarnedCount(badges: seq<BadgeEntry>): (k: nat)
    ensures k <= |badges|
    ensures k == 0 <==> forall i :: 0 <= i < |badges| ==> !badges[i].earned
  {
    if badges == [] then 0
    else EarnedCount(badges[..|badges| - 1]) + (if badges[|badges| - 1].earned then 1 else 0)
  }

  /** The "Total Points" card: `user?.totalPoints || 0`. */
  function PointsShown(user: Option<User>): int {
    if user.Some? && user.value.totalPoints.Some? then user.value.totalPoints.value else 0
  }

  function RankStyleOf(rank: int): RankStyle {
    if rank == 1 then Gold else if rank == 2 then Silver else if rank == 3 then Bronze else Plain
  }

  /** `entry.name === user?.name`. */
  predicate Highlighted(entry: LeaderboardEntry, user: Option<User>) {
    user.Some? && user.value.name == Some(entry.name)
  }

  // ---------------------------------------------------------------------

  /** One or two badges out of four are counted, two exactly when the
      streak badge is earned. */
  lemma {:induction false} EarnedIsOneOrTwo(user: Option<User>)
    ensures EarnedCount(Badges(user)) == if StreakEarned(user) then 2 else 1
    ensures 1 <= EarnedCount(Badges(user)) <= 2 < |Badges(user)|
  {
    var b := Badges(user);
    var b1, b2, b3 := b[..1], b[..2], b[..3];
    assert b1[..0] == [] && b2[..1] == b1 && b3[..2] == b2 && b[..3] == b3;
    assert EarnedCount(b1) == 1 by {
      assert EarnedCount(b1) == EarnedCount(b1[..0]) + 1;
    }
    assert EarnedCount(b2) == if StreakEarned(user) then 2 else 1 by {
      assert b2[1] == b[1];
    }
    assert EarnedCount(b3) == EarnedCount(b2) by {
      assert b3[2] == b[2];
    }
    assert EarnedCount(b) == EarnedCount(b3) by {
      assert b[3] == BadgeEntry("Study Legend", false);
    }
  }

  /** The streak card and the "Study Streak" badge agree: the badge is
      earned exactly when the card shows at least seven days. A non-zero
      points card shows the signed-in user's own total. */
  lemma CardsMatchBadges(user: Option<User>)
    ensures Badges(user)[1].earned <==> StreakCount(user) >= StreakGoal
    ensures PointsShown(user) != 0 ==> user.Some? && user.value.totalPoints == Some(PointsShown(user))
  {
  }

  /** Ranks 1, 2 and 3 each have a style of their own; every other rank
      shares the plain one. */
  lemma RankStyles(a: int, b: int)
    ensures RankStyleOf(a) != Plain <==> 1 <= a <= 3
    ensures 1 <= a <= 3 && 1 <= b <= 3 ==> (RankStyleOf(a) == RankStyleOf(b) <==> a == b)
    ensures !(1 <= a <= 3) && !(1 <= b <= 3) ==> RankStyleOf(a) == RankStyleOf(b)
  {
  }

  /** With distinct names on the leaderboard at most one row is
      highlighted, and none is without a signed-in user who has a name. */
  lemma AtMostOneHighlighted(rows: seq<LeaderboardEntry>, user: Option<User>)
    requires forall i, j :: 0 <= i < j < |rows| ==> rows[i].name != rows[j].name
    ensures forall i, j :: 0 <= i < j < |rows| && Highlighted(rows[i], user) ==> !Highlighted(rows[j], user)
    ensures user.None? || user.value.name.None? ==> forall i :: 0 <= i < |rows| ==> !Highlighted(rows[i], user)
  {
  }
}
