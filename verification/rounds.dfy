/** Why taking turns is enough: rounds of moves over a measure that some kinds of moves always decrease. */
module Rounds {
  import opened Types

  /**
   * Moves of two kinds, states that count as healthy, busy or at the goal, and
   * the work a state has left.
   */
  datatype System<!S> = System(
    pass: (S, S) -> bool,
    job: (S, S) -> bool,
    healthy: S -> bool,
    busy: S -> bool,
    goal: S -> bool,
    work: S -> nat)

  ghost predicate Move<S>(sys: System<S>, s: S, t: S) { sys.pass(s, t) || sys.job(s, t) }

  /** Passes never add work, jobs always take some away, and so do passes while nothing is busy; no work is left exactly at the goal. */
  ghost predicate Diligent<S(!new)>(sys: System<S>) {
    && (forall s, t :: sys.healthy(s) && sys.pass(s, t) ==> sys.healthy(t) && sys.work(t) <= sys.work(s))
    && (forall s, t :: sys.healthy(s) && sys.job(s, t) ==> sys.healthy(t) && sys.work(t) < sys.work(s))
    && (forall s, t :: sys.healthy(s) && sys.pass(s, t) && !sys.goal(s) && !sys.busy(s) ==> sys.work(t) < sys.work(s))
    && (forall s :: sys.healthy(s) ==> (sys.goal(s) <==> sys.work(s) == 0))
  }

  ghost predicate MoveAt<S>(sys: System<S>, moves: seq<S>, i: nat) { i + 1 < |moves| && Move(sys, moves[i], moves[i + 1]) }

  ghost predicate PassAt<S>(sys: System<S>, moves: seq<S>, i: nat) { i + 1 < |moves| && sys.pass(moves[i], moves[i + 1]) }

  ghost predicate JobAt<S>(sys: System<S>, moves: seq<S>, i: nat) { i + 1 < |moves| && sys.job(moves[i], moves[i + 1]) }

  ghost predicate Moves<S>(sys: System<S>, moves: seq<S>) {
    |moves| > 0 && forall i :: 0 <= i < |moves| - 1 ==> MoveAt(sys, moves, i)
  }

  /** Any moves in any order, among them a pass and, if something is busy at the start, a job. */
  ghost predicate Round<S>(sys: System<S>, moves: seq<S>) {
    && Moves(sys, moves)
    && (exists i: nat :: PassAt(sys, moves, i))
    && (sys.busy(moves[0]) ==> exists i: nat :: JobAt(sys, moves, i))
  }

  /** Along any sequence of moves the work never grows. */
  lemma {:induction false} MovesShrink<S(!new)>(sys: System<S>, moves: seq<S>, i: nat, j: nat)
    requires Diligent(sys) && Moves(sys, moves) && i <= j < |moves| && sys.healthy(moves[i])
    ensures sys.healthy(moves[j]) && sys.work(moves[j]) <= sys.work(moves[i])
    decreases j - i
  {
    if i < j {
      MovesShrink(sys, moves, i, j - 1);
      assert MoveAt(sys, moves, j - 1);
    }
  }

  /** Every round short of the goal strictly decreases the remaining work. */
  lemma RoundShrinks<S(!new)>(sys: System<S>, moves: seq<S>)
    requires Diligent(sys) && Round(sys, moves) && sys.healthy(moves[0]) && !sys.goal(moves[0])
    ensures sys.healthy(moves[|moves| - 1]) && sys.work(moves[|moves| - 1]) < sys.work(moves[0])
  {
    if i: nat :| JobAt(sys, moves, i) {
      MovesShrink(sys, moves, 0, i);
      MovesShrink(sys, moves, i + 1, |moves| - 1);
    } else {
      assert MoveAt(sys, moves, 0) && !JobAt(sys, moves, 0);
      MovesShrink(sys, moves, 1, |moves| - 1);
    }
  }

  lemma ShortRound<S>(sys: System<S>, s: S, u: S)
    requires sys.pass(s, u) && !sys.busy(s)
    ensures Round(sys, [s, u])
  {
    assert PassAt(sys, [s, u], 0);
  }

  lemma LongRound<S>(sys: System<S>, s: S, t: S, u: S)
    requires sys.job(s, t) && sys.pass(t, u)
    ensures Round(sys, [s, t, u])
  {
    assert JobAt(sys, [s, t, u], 0) && PassAt(sys, [s, t, u], 1);
  }

  /** Where the first `k` rounds lead. */
  ghost function Reached<S>(rounds: seq<seq<S>>, s: S, k: nat): S
    requires k <= |rounds|
  {
    if k == 0 || rounds[k - 1] == [] then s else rounds[k - 1][|rounds[k - 1]| - 1]
  }

  ghost predicate RoundAt<S>(sys: System<S>, rounds: seq<seq<S>>, s: S, k: nat) {
    k < |rounds| && Round(sys, rounds[k]) && rounds[k][0] == Reached(rounds, s, k)
  }

  /** Rounds one after the other, from `s` to `t`. */
  ghost predicate Schedule<S>(sys: System<S>, rounds: seq<seq<S>>, s: S, t: S) {
    (forall k: nat :: k < |rounds| ==> RoundAt(sys, rounds, s, k)) && t == Reached(rounds, s, |rounds|)
  }

  lemma {:induction false} RoundsShrink<S(!new)>(sys: System<S>, rounds: seq<seq<S>>, s: S, t: S, k: nat)
    requires Diligent(sys) && sys.healthy(s) && Schedule(sys, rounds, s, t) && k <= |rounds|
    ensures sys.healthy(Reached(rounds, s, k)) && sys.work(Reached(rounds, s, k)) <= Max(0, sys.work(s) - k)
  {
    if k > 0 {
      RoundsShrink(sys, rounds, s, t, k - 1);
      assert RoundAt(sys, rounds, s, k - 1);
      var moves := rounds[k - 1];
      if sys.goal(moves[0]) { MovesShrink(sys, moves, 0, |moves| - 1); } else { RoundShrinks(sys, moves); }
    }
  }

  /** A schedule of rounds takes away at least one unit of work per round, down to none. */
  lemma ScheduleShrinks<S(!new)>(sys: System<S>, rounds: seq<seq<S>>, s: S, t: S)
    requires Diligent(sys) && sys.healthy(s) && Schedule(sys, rounds, s, t)
    ensures sys.healthy(t) && sys.work(t) <= Max(0, sys.work(s) - |rounds|)
  {
    RoundsShrink(sys, rounds, s, t, |rounds|);
  }
}
