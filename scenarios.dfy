/**
  Concrete elections: the two test elections of the Condorcet rule in src/lib.rs,
  a tied matchup, and a cyclic majority.
 */
module SocialChoiceScenarios {
  import opened SocialChoice

  /** Candidates {a, b, c}; 35 voters a>b>c, 25 voters b>c>a, 15 voters c>b>a. */
  function ThreeCandidates(): Vote<char> {
    Vote({'a', 'b', 'c'},
         [(35, PreOrder(['a', 'b', 'c'])),
          (25, PreOrder(['b', 'c', 'a'])),
          (15, PreOrder(['c', 'b', 'a']))])
  }

  /** Every ballot ranks every candidate, so no head-to-head query comes back empty. */
  lemma ThreeCandidatesWellFormed()
    ensures ThreeCandidates().WellFormed()
  {
    CompleteBallotsAreWellFormed(ThreeCandidates());
  }

  // Each of the lemmas named <Election>Tally<C><O> works out one head-to-head
  // tally ballot by ballot.

  lemma ThreeCandidatesTallyBA()
    ensures Tally(ThreeCandidates().ballots, 'b', 'a') == (40, 35)
  {
    var ballots := ThreeCandidates().ballots;
    assert ballots[..0] == [];
    assert ballots[..3] == ballots;
    assert ballots[0].1.WhoIsFirst('b', 'a') == Some('a');
    TallyPrefix(ballots, 0, 'b', 'a');
    assert Tally(ballots[..1], 'b', 'a') == (0, 35);
    assert ballots[1].1.WhoIsFirst('b', 'a') == Some('b');
    TallyPrefix(ballots, 1, 'b', 'a');
    assert Tally(ballots[..2], 'b', 'a') == (25, 35);
    assert ballots[2].1.WhoIsFirst('b', 'a') == Some('b');
    TallyPrefix(ballots, 2, 'b', 'a');
    assert Tally(ballots, 'b', 'a') == (40, 35);
  }

  lemma ThreeCandidatesTallyBC()
    ensures Tally(ThreeCandidates().ballots, 'b', 'c') == (60, 15)
  {
    var ballots := ThreeCandidates().ballots;
    assert ballots[..0] == [];
    assert ballots[..3] == ballots;
    assert ballots[0].1.WhoIsFirst('b', 'c') == Some('b');
    TallyPrefix(ballots, 0, 'b', 'c');
    assert Tally(ballots[..1], 'b', 'c') == (35, 0);
    assert ballots[1].1.WhoIsFirst('b', 'c') == Some('b');
    TallyPrefix(ballots, 1, 'b', 'c');
    assert Tally(ballots[..2], 'b', 'c') == (60, 0);
    assert ballots[2].1.WhoIsFirst('b', 'c') == Some('c');
    TallyPrefix(ballots, 2, 'b', 'c');
    assert Tally(ballots, 'b', 'c') == (60, 15);
  }

  lemma ThreeCandidatesWinnerIsB()
    ensures ThreeCandidates().IsCondorcetWinner('b')
  {
    var v := ThreeCandidates();
    forall o | o in v.candidates && o != 'b' ensures v.Beats('b', o) {
      if o == 'a' {
        ThreeCandidatesTallyBA();
      } else {
        ThreeCandidatesTallyBC();
      }
    }
  }

  method CondorcetThreeCandidates() returns (winner: Option<char>)
    ensures winner == Some('b')
  {
    var v := ThreeCandidates();
    ThreeCandidatesWellFormed();
    ThreeCandidatesWinnerIsB();
    winner := v.CondorcetWinner();
    CondorcetOutcomeUnique(v, winner, Some('b'));
  }

  /** Candidates {a, b, c, d}; 42 voters a>b>c>d, 26 voters b>c>d>a,
      17 voters d>c>b>a, 15 voters c>d>b>a. */
  function FourCandidates(): Vote<char> {
    Vote({'a', 'b', 'c', 'd'},
         [(42, PreOrder(['a', 'b', 'c', 'd'])),
          (26, PreOrder(['b', 'c', 'd', 'a'])),
          (17, PreOrder(['d', 'c', 'b', 'a'])),
          (15, PreOrder(['c', 'd', 'b', 'a']))])
  }

  /** Every ballot ranks every candidate, so no head-to-head query comes back empty. */
  lemma FourCandidatesWellFormed()
    ensures FourCandidates().WellFormed()
  {
    CompleteBallotsAreWellFormed(FourCandidates());
  }

  lemma FourCandidatesTallyBA()
    ensures Tally(FourCandidates().ballots, 'b', 'a') == (58, 42)
  {
    var ballots := FourCandidates().ballots;
    assert ballots[..0] == [];
    assert ballots[..4] == ballots;
    assert ballots[0].1.WhoIsFirst('b', 'a') == Some('a');
    TallyPrefix(ballots, 0, 'b', 'a');
    assert Tally(ballots[..1], 'b', 'a') == (0, 42);
    assert ballots[1].1.WhoIsFirst('b', 'a') == Some('b');
    TallyPrefix(ballots, 1, 'b', 'a');
    assert Tally(ballots[..2], 'b', 'a') == (26, 42);
    assert ballots[2].1.WhoIsFirst('b', 'a') == Some('b');
    TallyPrefix(ballots, 2, 'b', 'a');
    assert Tally(ballots[..3], 'b', 'a') == (43, 42);
    assert ballots[3].1.WhoIsFirst('b', 'a') == Some('b');
    TallyPrefix(ballots, 3, 'b', 'a');
    assert Tally(ballots, 'b', 'a') == (58, 42);
  }

  lemma FourCandidatesTallyBC()
    ensures Tally(FourCandidates().ballots, 'b', 'c') == (68, 32)
  {
    var ballots := FourCandidates().ballots;
    assert ballots[..0] == [];
    assert ballots[..4] == ballots;
    assert ballots[0].1.WhoIsFirst('b', 'c') == Some('b');
    TallyPrefix(ballots, 0, 'b', 'c');
    assert Tally(ballots[..1], 'b', 'c') == (42, 0);
    assert ballots[1].1.WhoIsFirst('b', 'c') == Some('b');
    TallyPrefix(ballots, 1, 'b', 'c');
    assert Tally(ballots[..2], 'b', 'c') == (68, 0);
    assert ballots[2].1.WhoIsFirst('b', 'c') == Some('c');
    TallyPrefix(ballots, 2, 'b', 'c');
    assert Tally(ballots[..3], 'b', 'c') == (68, 17);
    assert ballots[3].1.WhoIsFirst('b', 'c') == Some('c');
    TallyPrefix(ballots, 3, 'b', 'c');
    assert Tally(ballots, 'b', 'c') == (68, 32);
  }

  lemma FourCandidatesTallyBD()
    ensures Tally(FourCandidates().ballots, 'b', 'd') == (68, 32)
  {
    var ballots := FourCandidates().ballots;
    assert ballots[..0] == [];
    assert ballots[..4] == ballots;
    assert ballots[0].1.WhoIsFirst('b', 'd') == Some('b');
    TallyPrefix(ballots, 0, 'b', 'd');
    assert Tally(ballots[..1], 'b', 'd') == (42, 0);
    assert ballots[1].1.WhoIsFirst('b', 'd') == Some('b');
    TallyPrefix(ballots, 1, 'b', 'd');
    assert Tally(ballots[..2], 'b', 'd') == (68, 0);
    assert ballots[2].1.WhoIsFirst('b', 'd') == Some('d');
    TallyPrefix(ballots, 2, 'b', 'd');
    assert Tally(ballots[..3], 'b', 'd') == (68, 17);
    assert ballots[3].1.WhoIsFirst('b', 'd') == Some('d');
    TallyPrefix(ballots, 3, 'b', 'd');
    assert Tally(ballots, 'b', 'd') == (68, 32);
  }

  lemma FourCandidatesWinnerIsB()
    ensures FourCandidates().IsCondorcetWinner('b')
  {
    var v := FourCandidates();
    forall o | o in v.candidates && o != 'b' ensures v.Beats('b', o) {
      if o == 'a' {
        FourCandidatesTallyBA();
      } else if o == 'c' {
        FourCandidatesTallyBC();
      } else {
        FourCandidatesTallyBD();
      }
    }
  }

  method CondorcetFourCandidates() returns (winner: Option<char>)
    ensures winner == Some('b')
  {
    var v := FourCandidates();
    FourCandidatesWellFormed();
    FourCandidatesWinnerIsB();
    winner := v.CondorcetWinner();
    CondorcetOutcomeUnique(v, winner, Some('b'));
  }

  /** Candidates {a, b}; 10 voters a>b, 10 voters b>a: the only matchup is tied. */
  function TiedPair(): Vote<char> {
    Vote({'a', 'b'},
         [(10, PreOrder(['a', 'b'])),
          (10, PreOrder(['b', 'a']))])
  }

  /** Every ballot ranks every candidate, so no head-to-head query comes back empty. */
  lemma TiedPairWellFormed()
    ensures TiedPair().WellFormed()
  {
    CompleteBallotsAreWellFormed(TiedPair());
  }

  lemma TiedPairTallyAB()
    ensures Tally(TiedPair().ballots, 'a', 'b') == (10, 10)
  {
    var ballots := TiedPair().ballots;
    assert ballots[..0] == [];
    assert ballots[..2] == ballots;
    assert ballots[0].1.WhoIsFirst('a', 'b') == Some('a');
    TallyPrefix(ballots, 0, 'a', 'b');
    assert Tally(ballots[..1], 'a', 'b') == (10, 0);
    assert ballots[1].1.WhoIsFirst('a', 'b') == Some('b');
    TallyPrefix(ballots, 1, 'a', 'b');
    assert Tally(ballots, 'a', 'b') == (10, 10);
  }

  lemma TiedPairTallyBA()
    ensures Tally(TiedPair().ballots, 'b', 'a') == (10, 10)
  {
    var ballots := TiedPair().ballots;
    assert ballots[..0] == [];
    assert ballots[..2] == ballots;
    assert ballots[0].1.WhoIsFirst('b', 'a') == Some('a');
    TallyPrefix(ballots, 0, 'b', 'a');
    assert Tally(ballots[..1], 'b', 'a') == (0, 10);
    assert ballots[1].1.WhoIsFirst('b', 'a') == Some('b');
    TallyPrefix(ballots, 1, 'b', 'a');
    assert Tally(ballots, 'b', 'a') == (10, 10);
  }

  lemma TiedPairHasNoWinner()
    ensures forall w :: !TiedPair().IsCondorcetWinner(w)
  {
    TiedPairTallyAB();
    TiedPairTallyBA();
  }

  method CondorcetTiedPair() returns (winner: Option<char>)
    ensures winner == None
  {
    var v := TiedPair();
    TiedPairWellFormed();
    TiedPairHasNoWinner();
    winner := v.CondorcetWinner();
  }

  /** Candidates {a, b, c}; one voter each a>b>c, b>c>a and c>a>b: a beats b,
      b beats c and c beats a, each by 2 to 1. */
  function Cycle(): Vote<char> {
    Vote({'a', 'b', 'c'},
         [(1, PreOrder(['a', 'b', 'c'])),
          (1, PreOrder(['b', 'c', 'a'])),
          (1, PreOrder(['c', 'a', 'b']))])
  }

  /** Every ballot ranks every candidate, so no head-to-head query comes back empty. */
  lemma CycleWellFormed()
    ensures Cycle().WellFormed()
  {
    CompleteBallotsAreWellFormed(Cycle());
  }

  lemma CycleTallyAC()
    ensures Tally(Cycle().ballots, 'a', 'c') == (1, 2)
  {
    var ballots := Cycle().ballots;
    assert ballots[..0] == [];
    assert ballots[..3] == ballots;
    assert ballots[0].1.WhoIsFirst('a', 'c') == Some('a');
    TallyPrefix(ballots, 0, 'a', 'c');
    assert Tally(ballots[..1], 'a', 'c') == (1, 0);
    assert ballots[1].1.WhoIsFirst('a', 'c') == Some('c');
    TallyPrefix(ballots, 1, 'a', 'c');
    assert Tally(ballots[..2], 'a', 'c') == (1, 1);
    assert ballots[2].1.WhoIsFirst('a', 'c') == Some('c');
    TallyPrefix(ballots, 2, 'a', 'c');
    assert Tally(ballots, 'a', 'c') == (1, 2);
  }

  lemma CycleTallyBA()
    ensures Tally(Cycle().ballots, 'b', 'a') == (1, 2)
  {
    var ballots := Cycle().ballots;
    assert ballots[..0] == [];
    assert ballots[..3] == ballots;
    assert ballots[0].1.WhoIsFirst('b', 'a') == Some('a');
    TallyPrefix(ballots, 0, 'b', 'a');
    assert Tally(ballots[..1], 'b', 'a') == (0, 1);
    assert ballots[1].1.WhoIsFirst('b', 'a') == Some('b');
    TallyPrefix(ballots, 1, 'b', 'a');
    assert Tally(ballots[..2], 'b', 'a') == (1, 1);
    assert ballots[2].1.WhoIsFirst('b', 'a') == Some('a');
    TallyPrefix(ballots, 2, 'b', 'a');
    assert Tally(ballots, 'b', 'a') == (1, 2);
  }

  lemma CycleTallyCB()
    ensures Tally(Cycle().ballots, 'c', 'b') == (1, 2)
  {
    var ballots := Cycle().ballots;
    assert ballots[..0] == [];
    assert ballots[..3] == ballots;
    assert ballots[0].1.WhoIsFirst('c', 'b') == Some('b');
    TallyPrefix(ballots, 0, 'c', 'b');
    assert Tally(ballots[..1], 'c', 'b') == (0, 1);
    assert ballots[1].1.WhoIsFirst('c', 'b') == Some('b');
    TallyPrefix(ballots, 1, 'c', 'b');
    assert Tally(ballots[..2], 'c', 'b') == (0, 2);
    assert ballots[2].1.WhoIsFirst('c', 'b') == Some('c');
    TallyPrefix(ballots, 2, 'c', 'b');
    assert Tally(ballots, 'c', 'b') == (1, 2);
  }

  lemma CycleHasNoWinner()
    ensures forall w :: !Cycle().IsCondorcetWinner(w)
  {
    CycleTallyAC();
    CycleTallyBA();
    CycleTallyCB();
  }

  method CondorcetCycle() returns (winner: Option<char>)
    ensures winner == None
  {
    var v := Cycle();
    CycleWellFormed();
    CycleHasNoWinner();
    winner := v.CondorcetWinner();
  }
}
