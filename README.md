# Condorcet winner of a weighted ranked-ballot election

This project models the social-choice core of `src/lib.rs` in Dafny and proves what it promises.

- A `PreOrder` is one ranking of candidates, most preferred first. Its query `WhoIsFirst(a, b)` scans the ranking and returns whichever of `a` and `b` it meets first. It returns `None` when it meets neither.
- A `Vote` is a candidate set plus a list of ballots. A ballot is a voter count paired with a ranking.
- `Vote.CondorcetWinner` visits every candidate. For each other candidate it sums the ballot weights that put the first candidate ahead and the weights that do not. It drops the candidate at the first opponent it does not strictly beat, so a tie counts as a loss. A candidate that survives every matchup is recorded as the result.

The candidate type is a generic `T(==)`. The candidate set is a Dafny `set<T>`. The method picks the next candidate with `:|`, so its proof covers every enumeration order a hash set could produce. The head-to-head tally (`Tally`) is a function over a prefix of the ballot list. The innermost loop, over the ballots of one matchup, is the method `Vote.HeadToHead`, which `CondorcetWinner` calls from its loop over opponents. Keeping it separate keeps each proof small. Its loop invariant ties the running `scores` pair to the tally of the ballots seen so far. The `continue 'outer` of the source is a labelled `continue outer` in the model.

What is proved:
- `WhoIsFirst` only ever returns one of its two arguments. It returns `None` exactly when neither is ranked. Otherwise it returns the one at the smaller index. For distinct arguments their order does not matter.
- A returned winner strictly beats every other candidate. `None` means every candidate has an opponent it fails to strictly beat.
- Strict majority is asymmetric, so at most one candidate can win. Any two results that meet the method's contract are therefore equal, and the result cannot depend on iteration order.
- Both test elections of the source return `b`. A tied two-candidate election and a cyclic three-candidate election return no winner.

The source's `unwrap()` on `who_is_first` panics when a ballot ranks neither of the two candidates being compared. The model makes this the method's precondition `WellFormed`: every ballot ranks at least one of every two distinct candidates. Ballots that rank every candidate satisfy it (`CompleteBallotsAreWellFormed`).

The code contains no plurality ("one-stage") rule, so none is modelled. The loop would keep the last of several candidates that beat everyone. `CondorcetWinnerUnique` shows that there can never be two such candidates, so the order of the visit cannot change the result.

## Model

| member | source | states |
|---|---|---|
| SocialChoice.PreOrder.WhoIsFirst | src/lib.rs:21-31 | the result is `Some(a)` or `Some(b)` and nothing else; it is `None` exactly when neither `a` nor `b` is in the ranking |
| SocialChoice.WhoIsFirstIsEarliest | src/lib.rs:22-30 | returns `Some(a)` exactly when `a` is ranked and its first index is no later than `b`'s; for `a != b`, returns `Some(b)` exactly when `b` is ranked strictly earlier than `a` |
| SocialChoice.WhoIsFirstSymmetric | src/lib.rs:22-29 | for distinct `a` and `b`, `WhoIsFirst(a, b) == WhoIsFirst(b, a)` |
| SocialChoice.TallyPrefix | src/lib.rs:50-55 | counting one more ballot adds its weight to the first side when that ballot prefers the first candidate, and to the second side otherwise |
| SocialChoice.TallySplitsTotal | src/lib.rs:49-56 | the two sums of a matchup add up to the total weight of all ballots |
| SocialChoice.TallySwap | src/lib.rs:49-56 | when every ballot ranks `c` or `o`, the tally of `o` against `c` is the tally of `c` against `o` with its two sides swapped |
| SocialChoice.TallyOpposed | src/lib.rs:51-55 | for any ballots, the weight preferring `c` over `o` is at most the weight the reversed matchup counts against `o` |
| SocialChoice.Vote.HeadToHead | src/lib.rs:49-56 | given well-formed ballots and two distinct candidates, the returned `scores` equal the tally of the whole ballot list: `scores.0` is the weight of ballots ranking `candidate` first of the two, `scores.1` the weight of the rest |
| SocialChoice.Vote.CondorcetWinner | src/lib.rs:43-64 | given that every ballot ranks one of each compared pair, a returned `Some(w)` has `w` in the candidate set and strictly beating every other candidate; `None` means every candidate has an opponent whose tally it does not strictly exceed, ties included |
| SocialChoice.CompleteBallotsAreWellFormed | src/lib.rs:51 | ballots that rank every candidate meet the precondition that keeps the `unwrap` from failing |
| SocialChoice.BeatsAsymmetric | src/lib.rs:57-58 | two distinct candidates cannot both strictly beat each other |
| SocialChoice.CondorcetWinnerUnique | src/lib.rs:45-62 | at most one candidate strictly beats all others |
| SocialChoice.CondorcetOutcomeUnique | src/lib.rs:45-63 | any two results that meet the method's contract are equal, so the result does not depend on the order in which the candidate set is visited |
| SocialChoiceScenarios.ThreeCandidatesWinnerIsB | src/lib.rs:73-86 | with ballots 35 a>b>c, 25 b>c>a, 15 c>b>a, `b` beats `a` 40 to 35 and `c` 60 to 15 |
| SocialChoiceScenarios.CondorcetThreeCandidates | src/lib.rs:73-86 | the method returns `Some('b')` on that election |
| SocialChoiceScenarios.FourCandidatesWinnerIsB | src/lib.rs:90-104 | with ballots 42 a>b>c>d, 26 b>c>d>a, 17 d>c>b>a, 15 c>d>b>a, `b` beats `a` 58 to 42, and beats `c` and `d` 68 to 32 |
| SocialChoiceScenarios.CondorcetFourCandidates | src/lib.rs:90-104 | the method returns `Some('b')` on that election |
| SocialChoiceScenarios.TiedPairHasNoWinner | src/lib.rs:57-58 | with ballots 10 a>b and 10 b>a, the matchup ties 10 to 10, so neither candidate wins |
| SocialChoiceScenarios.CondorcetTiedPair | src/lib.rs:57-59 | the method returns `None` on the tied election |
| SocialChoiceScenarios.CycleHasNoWinner | src/lib.rs:57-58 | with one ballot each of a>b>c, b>c>a and c>a>b, each candidate loses one matchup 1 to 2, so nobody wins |
| SocialChoiceScenarios.CondorcetCycle | src/lib.rs:45-63 | the method returns `None` on the cyclic election |

## Left out

- The `HashSet` and its hashing (src/lib.rs:38). The candidate set is a `set<T>`, and the method chooses the next candidate arbitrarily. Rust's actual iteration order is not reproduced; the proofs hold for every order.
- The singleton set and `difference` (src/lib.rs:46-48). These are modelled directly as the set `candidates - {candidate}`.
- The `Condorcet` trait (src/lib.rs:5-7). `CondorcetWinner` is a member of `Vote` itself.
- The `Deref` impl and the derived `Clone`, `Debug`, `Eq`, `PartialEq` and `PartialOrd` traits (src/lib.rs:9-18, 36). They carry no behaviour that the algorithm uses.
- Returning references into the candidate set. The model returns the candidate value. Rust compares the references by value, so the behaviour is the same.
- SocialChoice.Vote.CondorcetWinner: does not model the panic of `unwrap()` on a ballot that ranks neither compared candidate. `WellFormed` excludes that input instead of yielding an error result, because the source gives no recoverable behaviour for it.
- SocialChoice.Vote.CondorcetWinner: does not model `usize` overflow of the `scores` sums (src/lib.rs:52-54). Weights and sums are unbounded `nat`.
- The `sugars` `hset!` macro used by the tests (src/lib.rs:70). The test elections are rebuilt as literal values. They use `char` candidates instead of `&str`, which the generic model does not distinguish.
- Any plurality rule. None exists in the code.
