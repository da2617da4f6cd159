/**
 * Ranking approved mentors by points: the deterministic keyword fallback of
 * the learner dashboard's recommendation, the leaderboard and the mentor
 * profile list.
 */
module Ranking {
  import opened Models
  import opened Text
  import opened Querysets

  /** The sort key of `order_by('-points')`. */
  function DescendingPoints(m: Mentor): int { -m.points }

  predicate IsApproved(m: Mentor) { m.status == Approved }

  /** The fallback filter: approved, and the specialization mentions the goal with `_` read as a space, in any case. */
  predicate SuitsGoal(m: Mentor, goal: string)
  {
    IsApproved(m) && ContainsIgnoreCase(m.specialization, ReplaceChar(goal, '_', ' '))
  }

  /** The `k` mentors of `mentors` with the most points, most points first. */
  function TopByPoints(mentors: seq<Mentor>, k: nat): seq<Mentor>
  {
    Take(SortBy(mentors, DescendingPoints), k)
  }

  /** TopByPoints keeps min(k, n) of the n candidates, all taken from them, in non-increasing order of points. */
  lemma TopByPointsOrdered(mentors: seq<Mentor>, k: nat)
    ensures var r := TopByPoints(mentors, k);
      && |r| == (if |mentors| <= k then |mentors| else k)
      && multiset(r) <= multiset(mentors)
      && (forall m :: m in r ==> m in mentors)
      && (forall i, j :: 0 <= i < j < |r| ==> r[i].points >= r[j].points)
  {
    var sorted := SortBy(mentors, DescendingPoints);
    var r := Take(sorted, k);
    forall i, j | 0 <= i < j < |r|
      ensures r[i].points >= r[j].points
    {
      assert DescendingPoints(sorted[i]) <= DescendingPoints(sorted[j]);
    }
    forall m | m in r
      ensures m in mentors
    {
      assert m in multiset(r);
    }
  }

  /** A candidate left out of TopByPoints means the list is full and every mentor on it has at least as many points. */
  lemma TopByPointsComplete(mentors: seq<Mentor>, k: nat, m: Mentor)
    requires m in mentors && m !in TopByPoints(mentors, k)
    ensures |TopByPoints(mentors, k)| == k
    ensures forall x :: x in TopByPoints(mentors, k) ==> x.points >= m.points
  {
    var sorted := SortBy(mentors, DescendingPoints);
    var r := Take(sorted, k);
    var i :| 0 <= i < |sorted| && sorted[i] == m;
    assert i >= |r|;
    forall x | x in r
      ensures x.points >= m.points
    {
      var j :| 0 <= j < |r| && r[j] == x;
      assert DescendingPoints(sorted[j]) <= DescendingPoints(sorted[i]);
    }
  }

  /** The dashboard's fallback recommendation: the three best-scoring approved mentors that suit the goal. */
  function FallbackRecommendation(mentors: seq<Mentor>, goal: string): seq<Mentor>
  {
    TopByPoints(Filter(mentors, m => SuitsGoal(m, goal)), 3)
  }

  lemma FallbackRecommendationSpec(mentors: seq<Mentor>, goal: string)
    ensures var r := FallbackRecommendation(mentors, goal);
      && |r| <= 3
      && multiset(r) <= multiset(mentors)
      && (forall m :: m in r ==>
            m in mentors && IsApproved(m) && ContainsIgnoreCase(m.specialization, ReplaceChar(goal, '_', ' ')))
      && (forall i, j :: 0 <= i < j < |r| ==> r[i].points >= r[j].points)
      && (forall m :: m in mentors && SuitsGoal(m, goal) && m !in r ==>
            |r| == 3 && forall x :: x in r ==> x.points >= m.points)
  {
    var eligible := Filter(mentors, m => SuitsGoal(m, goal));
    var r := TopByPoints(eligible, 3);
    TopByPointsOrdered(eligible, 3);
    FilterSubmultiset(mentors, m => SuitsGoal(m, goal));
    forall m | m in mentors && SuitsGoal(m, goal) && m !in r
      ensures |r| == 3 && forall x :: x in r ==> x.points >= m.points
    {
      TopByPointsComplete(eligible, 3, m);
    }
  }

  /** The leaderboard: the ten approved mentors with the most points. */
  function Leaderboard(mentors: seq<Mentor>): seq<Mentor>
  {
    TopByPoints(Filter(mentors, IsApproved), 10)
  }

  lemma LeaderboardSpec(mentors: seq<Mentor>)
    ensures var r := Leaderboard(mentors);
      && |r| <= 10
      && multiset(r) <= multiset(mentors)
      && (forall m :: m in r ==> m in mentors && IsApproved(m))
      && (forall i, j :: 0 <= i < j < |r| ==> r[i].points >= r[j].points)
      && (forall m :: m in mentors && IsApproved(m) && m !in r ==>
            |r| == 10 && forall x :: x in r ==> x.points >= m.points)
  {
    var approved := Filter(mentors, IsApproved);
    var r := TopByPoints(approved, 10);
    TopByPointsOrdered(approved, 10);
    FilterSubmultiset(mentors, IsApproved);
    forall m | m in mentors && IsApproved(m) && m !in r
      ensures |r| == 10 && forall x :: x in r ==> x.points >= m.points
    {
      TopByPointsComplete(approved, 10, m);
    }
  }

  /** The mentor profile page: every approved mentor, most points first. */
  function MentorProfiles(mentors: seq<Mentor>): (r: seq<Mentor>)
    ensures forall m :: m in r <==> m in mentors && IsApproved(m)
    ensures multiset(r) == multiset(Filter(mentors, IsApproved))
    ensures |r| <= |mentors|
    ensures forall i, j :: 0 <= i < j < |r| ==> r[i].points >= r[j].points
  {
    var r := SortBy(Filter(mentors, IsApproved), DescendingPoints);
    assert forall i, j :: 0 <= i < j < |r| ==> DescendingPoints(r[i]) <= DescendingPoints(r[j]);
    r
  }
}
