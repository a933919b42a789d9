/**
  Ranked ballots and the Condorcet winner of a weighted election.

  A `PreOrder` is one ranking of candidates, most preferred first. A `Vote`
  is a candidate set and a list of ballots, each ballot being the number of
  voters who cast it together with their common ranking.
 */
module SocialChoice {

  datatype Option<T> = None | Some(value: T)

  /** Index of the first occurrence of `x` in `s`, or `|s|` when `x` is absent. */
  function FirstIndex<T(==)>(s: seq<T>, x: T): (i: nat)
    ensures i <= |s|
    ensures i < |s| <==> x in s
    ensures i < |s| ==> s[i] == x
    ensures x !in s[..i]
  {
    if s == [] then 0
    else if s[0] == x then 0
    else
      var j := FirstIndex(s[1..], x);
      assert s[..j + 1] == [s[0]] + s[1..][..j];
      1 + j
  }

  /** A ranking of candidates, strictly decreasing in preference. */
  datatype PreOrder<T(==)> = PreOrder(ranking: seq<T>)
  {
    /** Scans the ranking from most to least preferred and returns whichever
        of `a` and `b` it meets first, or `None` when it meets neither. */
    function WhoIsFirst(a: T, b: T): (r: Option<T>)
      ensures r.Some? ==> r.value == a || r.value == b
      ensures r.None? <==> a !in ranking && b !in ranking
      decreases |ranking|
    {
      if ranking == [] then None
      else if a == ranking[0] then Some(a)
      else if b == ranking[0] then Some(b)
      else PreOrder(ranking[1..]).WhoIsFirst(a, b)
    }

    /** The ballot tells `a` and `b` apart: it ranks at least one of them. */
    predicate Covers(a: T, b: T) {
      a in ranking || b in ranking
    }

    /** The ballot tells apart every two distinct members of `cs`. */
    predicate CoversAll(cs: set<T>) {
      forall a, b :: a in cs && b in cs && a != b ==> Covers(a, b)
    }

    /** The ballot ranks every member of `cs`. */
    predicate RanksAll(cs: set<T>) {
      forall c :: c in cs ==> c in ranking
    }
  }

  /** `WhoIsFirst` returns the candidate of the two that occupies the smaller
      index of the ranking. */
  lemma {:induction false} WhoIsFirstIsEarliest<T>(p: PreOrder<T>, a: T, b: T)
    ensures p.WhoIsFirst(a, b) == Some(a) <==>
              a in p.ranking && FirstIndex(p.ranking, a) <= FirstIndex(p.ranking, b)
    ensures a != b ==>
              (p.WhoIsFirst(a, b) == Some(b) <==>
                 b in p.ranking && FirstIndex(p.ranking, b) < FirstIndex(p.ranking, a))
    decreases |p.ranking|
  {
    if p.ranking != [] && a != p.ranking[0] && b != p.ranking[0] {
      WhoIsFirstIsEarliest(PreOrder(p.ranking[1..]), a, b);
    }
  }

  /** For distinct candidates, the order of the arguments does not matter. */
  lemma {:induction false} WhoIsFirstSymmetric<T>(p: PreOrder<T>, a: T, b: T)
    requires a != b
    ensures p.WhoIsFirst(a, b) == p.WhoIsFirst(b, a)
  {
    WhoIsFirstIsEarliest(p, a, b);
    WhoIsFirstIsEarliest(p, b, a);
  }

  /** A ballot: how many voters cast it, and their common ranking. */
  type Ballot<T(==)> = (nat, PreOrder<T>)

  /** The weight of every ballot together. */
  function TotalWeight<T>(ballots: seq<Ballot<T>>): nat {
    if ballots == [] then 0
    else TotalWeight(ballots[..|ballots| - 1]) + ballots[|ballots| - 1].0
  }

  /** The pairwise tally of `c` against `o`: the summed weight of the ballots
      on which `c` comes first, and the summed weight of all the others. */
  function Tally<T>(ballots: seq<Ballot<T>>, c: T, o: T): (scores: (nat, nat))
  {
    if ballots == [] then (0, 0)
    else
      var prev := Tally(ballots[..|ballots| - 1], c, o);
      var (voters, ballot) := ballots[|ballots| - 1];
      if ballot.WhoIsFirst(c, o) == Some(c) then (prev.0 + voters, prev.1)
      else (prev.0, prev.1 + voters)
  }

  /** Every voter is counted on exactly one side of a matchup. */
  lemma {:induction false} TallySplitsTotal<T>(ballots: seq<Ballot<T>>, c: T, o: T)
    ensures Tally(ballots, c, o).0 + Tally(ballots, c, o).1 == TotalWeight(ballots)
  {
    if ballots != [] {
      TallySplitsTotal(ballots[..|ballots| - 1], c, o);
    }
  }

  /** The tally over one more ballot adds that ballot's weight to one side. */
  lemma TallyPrefix<T>(ballots: seq<Ballot<T>>, k: nat, c: T, o: T)
    requires k < |ballots|
    ensures var prev := Tally(ballots[..k], c, o);
            Tally(ballots[..k + 1], c, o) ==
              if ballots[k].1.WhoIsFirst(c, o) == Some(c) then (prev.0 + ballots[k].0, prev.1)
              else (prev.0, prev.1 + ballots[k].0)
  {
    assert ballots[..k + 1][..k] == ballots[..k];
  }

  /** Reversing a matchup swaps the two sums when every ballot tells the two
      candidates apart. */
  lemma {:induction false} TallySwap<T>(ballots: seq<Ballot<T>>, c: T, o: T)
    requires c != o
    requires forall i :: 0 <= i < |ballots| ==> ballots[i].1.Covers(c, o)
    ensures Tally(ballots, o, c) == (Tally(ballots, c, o).1, Tally(ballots, c, o).0)
  {
    if ballots != [] {
      var init := ballots[..|ballots| - 1];
      assert forall i :: 0 <= i < |init| ==> init[i] == ballots[i];
      TallySwap(init, c, o);
      WhoIsFirstSymmetric(ballots[|ballots| - 1].1, c, o);
    }
  }

  /** Whatever the ballots, the weight that prefers `c` to `o` is also weight
      that does not prefer `o` to `c`. */
  lemma {:induction false} TallyOpposed<T>(ballots: seq<Ballot<T>>, c: T, o: T)
    requires c != o
    ensures Tally(ballots, c, o).0 <= Tally(ballots, o, c).1
  {
    if ballots != [] {
      TallyOpposed(ballots[..|ballots| - 1], c, o);
      WhoIsFirstSymmetric(ballots[|ballots| - 1].1, c, o);
    }
  }

  /** An election: the candidates that can win and the weighted ballots. */
  datatype Vote<T(==)> = Vote(candidates: set<T>, ballots: seq<Ballot<T>>)
  {
    /** Every ballot ranks at least one of every two distinct candidates, so
        that the head-to-head query never comes back empty. */
    predicate WellFormed() {
      forall i :: 0 <= i < |ballots| ==> ballots[i].1.CoversAll(candidates)
    }

    /** Every ballot ranks every candidate. */
    predicate RanksEveryCandidate() {
      forall i :: 0 <= i < |ballots| ==> ballots[i].1.RanksAll(candidates)
    }

    /** `c` strictly beats `o` head to head; a tie is not a win. */
    predicate Beats(c: T, o: T) {
      Tally(ballots, c, o).0 > Tally(ballots, c, o).1
    }

    /** `w` is a candidate that strictly beats every other candidate. */
    ghost predicate IsCondorcetWinner(w: T) {
      w in candidates && forall o :: o in candidates && o != w ==> Beats(w, o)
    }

    /** `r` names the Condorcet winner, or there is none and every candidate
        has some opponent it fails to strictly beat. */
    ghost predicate IsCondorcetOutcome(r: Option<T>) {
      && (r.Some? ==> IsCondorcetWinner(r.value))
      && (r.None? ==> forall c :: c in candidates ==>
                        exists o :: o in candidates && o != c && !Beats(c, o))
    }

    /** The loop over the ballots for one matchup: sums the weight of the
        ballots that rank `candidate` above `other`, and the weight of the rest. */
    method HeadToHead(candidate: T, other: T) returns (scores: (nat, nat))
      requires WellFormed()
      requires candidate in candidates && other in candidates && candidate != other
      ensures scores == Tally(ballots, candidate, other)
    {
      scores := (0, 0);
      for k := 0 to |ballots|
        invariant scores == Tally(ballots[..k], candidate, other)
      {
        var (voters, ballot) := ballots[k];
        assert ballot.CoversAll(candidates);
        var first := ballot.WhoIsFirst(candidate, other);
        TallyPrefix(ballots, k, candidate, other);
        assert first.value == candidate <==> first == Some(candidate);
        if first.value == candidate {
          scores := (scores.0 + voters, scores.1);
        } else {
          scores := (scores.0, scores.1 + voters);
        }
      }
      assert ballots[..|ballots|] == ballots;
    }

    /** Visits the candidates in an arbitrary order; a candidate is dropped at
        the first opponent it does not strictly beat, and one that beats them
        all is recorded. */
    method CondorcetWinner() returns (res: Option<T>)
      requires WellFormed()
      ensures IsCondorcetOutcome(res)
    {
      res := None;
      var todo := candidates;
      label outer:
      while todo != {}
        invariant todo <= candidates
        invariant res.Some? ==> IsCondorcetWinner(res.value)
        invariant res.None? ==> forall c :: c in candidates - todo ==>
                                  exists o :: o in candidates && o != c && !Beats(c, o)
        decreases todo
      {
        var candidate :| candidate in todo;
        ghost var visited := candidates - todo;
        todo := todo - {candidate};
        assert candidates - todo == visited + {candidate};
        var others := candidates - {candidate};
        while others != {}
          invariant others <= candidates - {candidate}
          invariant forall o :: o in candidates - {candidate} - others ==> Beats(candidate, o)
          decreases others
        {
          var other :| other in others;
          others := others - {other};
          var scores := HeadToHead(candidate, other);
          if scores.0 <= scores.1 {
            assert other in candidates && other != candidate && !Beats(candidate, other);
            continue outer;
          }
        }
        res := Some(candidate);
      }
      assert candidates - todo == candidates;
    }
  }

  /** Ballots that rank every candidate meet the precondition of the head-to-head query. */
  lemma CompleteBallotsAreWellFormed<T>(vote: Vote<T>)
    requires vote.RanksEveryCandidate()
    ensures vote.WellFormed()
  {
  }

  /** Strictly beating is asymmetric: two candidates cannot both beat each other. */
  lemma BeatsAsymmetric<T>(vote: Vote<T>, c: T, o: T)
    requires c != o
    ensures vote.Beats(c, o) ==> !vote.Beats(o, c)
  {
    TallyOpposed(vote.ballots, c, o);
    TallyOpposed(vote.ballots, o, c);
  }

  /** At most one candidate strictly beats every other. */
  lemma CondorcetWinnerUnique<T>(vote: Vote<T>, w1: T, w2: T)
    requires vote.IsCondorcetWinner(w1) && vote.IsCondorcetWinner(w2)
    ensures w1 == w2
  {
    if w1 != w2 {
      BeatsAsymmetric(vote, w1, w2);
    }
  }

  /** The outcome is determined by the election alone, so it cannot depend on
      the order in which the candidate set is enumerated. */
  lemma CondorcetOutcomeUnique<T>(vote: Vote<T>, r1: Option<T>, r2: Option<T>)
    requires vote.IsCondorcetOutcome(r1) && vote.IsCondorcetOutcome(r2)
    ensures r1 == r2
  {
    if r1.Some? && r2.Some? {
      CondorcetWinnerUnique(vote, r1.value, r2.value);
    }
  }
}
