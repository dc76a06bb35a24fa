/**
 A whole tiered council run (velune/cognition/orchestrator.py) and the check of its ledger against the
 tier's contract (velune/cognition/council/contracts.py).
 */
module CouncilRun {
  import opened Optional
  import opened CouncilLedger
  import opened Debate
  import T = ExecutionTrace

  /** One of the Coder's samples: its turn, and its text if a usable one came back. */
  datatype Sample = Sample(attempt: Attempt, text: Option<string>)

  /** Everything the run does not decide: model replies and failures, timeouts, resources. */
  datatype World = World(
    planner: Attempt,
    supply: nat,
    samples: nat -> Sample,
    choice: seq<string> -> nat,
    picks: seq<Seat>,
    verdicts: Reports,
    challenge: Option<Challenge>,
    cycles: nat,
    lowResource: bool,
    turns: nat -> Turn,
    synthesizer: Attempt)

  datatype Result =
    | NoCandidate(trace: Ledger)
    | Unjudged(trace: Ledger, answer: string)
    | Debated(trace: Ledger, council: Council)

  // ---- the run ----

  /** Samples to draw: the contract's, fewer when resources are short, never none. */
  function SampleCount(contract: Contract, supply: nat): nat {
    var n := Least(contract.coderSamples, supply);
    if n == 0 then 1 else n
  }

  function Sampled(ledger: Ledger, n: nat, samples: nat -> Sample): Ledger {
    if n == 0 then ledger
    else
      Attempted(Sampled(ledger, n - 1, samples), Coder, if n == 1 then T.Primary else T.SelfConsistency,
                samples(n - 1).attempt)
  }

  /** The usable candidates, in the order they were drawn. */
  function Pool(n: nat, samples: nat -> Sample): seq<string> {
    if n == 0 then []
    else
      Pool(n - 1, samples) + if samples(n - 1).text.Some? then [samples(n - 1).text.value] else []
  }

  /** The seats that judge: the Reviewer, and whichever critics the contract activates. */
  function Jury(contract: Contract): set<Seat> {
    {Reviewer} + set s | s in {Challenger, Scalability, Security, Performance, Maintainability} && contract.Activates(s)
  }

  /** A judge whose call failed abstains. */
  function Verdicts(contract: Contract, verdicts: Reports): Reports {
    map s | s in Jury(contract) - {Challenger} :: if s in verdicts then verdicts[s] else Verdict(false, false, 0.0)
  }

  function Challenging(contract: Contract, challenge: Option<Challenge>): Option<Challenge> {
    if Challenger in Jury(contract) then Some(challenge.GetOr(Challenge(false, 0.0))) else None
  }

  function Candidate(pool: seq<string>, choice: seq<string> -> nat): string
    requires pool != []
  {
    pool[choice(pool) % |pool|]
  }

  function Planned(contract: Contract, w: World): Ledger {
    if Planner in contract.required then Attempted([], Planner, T.Primary, w.planner) else []
  }

  function Coded(contract: Contract, w: World): Ledger {
    Sampled(Planned(contract, w), SampleCount(contract, w.supply), w.samples)
  }

  function Reviewed(contract: Contract, w: World): Ledger {
    Round(Coded(contract, w), Jury(contract), T.Primary, w.picks, {})
  }

  function Deliberated(contract: Contract, w: World, proposal: string): Council {
    var challenge := Challenging(contract, w.challenge);
    var c := Opening(proposal, Verdicts(contract, w.verdicts), challenge, Reviewed(contract, w));
    Held(contract, w.cycles, w.lowResource, c, challenge, w.turns)
  }

  function Execute(contract: Contract, w: World): Result {
    var pool := Pool(SampleCount(contract, w.supply), w.samples);
    if pool == [] then NoCandidate(Coded(contract, w))
    else
      var proposal := Candidate(pool, w.choice);
      if Reviewer !in contract.required then Unjudged(Coded(contract, w), proposal)
      else
        var council := Deliberated(contract, w, proposal);
        var trace :=
          if Synthesizer in contract.required
          then Attempted(council.ledger, Synthesizer, T.Primary, w.synthesizer)
          else council.ledger;
        Debated(trace, council)
  }

  // ---- no unexplained repeat ----

  lemma {:induction false} SampledClean(ledger: Ledger, n: nat, samples: nat -> Sample, all: set<Seat>)
    requires Clean(ledger) && Within(ledger, all) && Coder in all && Absent(ledger, Coder)
    ensures Clean(Sampled(ledger, n, samples)) && Within(Sampled(ledger, n, samples), all)
  {
    hide Clean, Within, Absent, Attempted;
    if n > 0 {
      SampledClean(ledger, n - 1, samples, all);
      SampledNothing(ledger, samples);
      AttemptClean(Sampled(ledger, n - 1, samples), Coder, if n == 1 then T.Primary else T.SelfConsistency,
                   samples(n - 1).attempt, all);
    }
  }

  lemma SampledNothing(ledger: Ledger, samples: nat -> Sample)
    ensures Sampled(ledger, 0, samples) == ledger
  {
  }

  lemma CodedClean(contract: Contract, w: World)
    ensures Clean(Coded(contract, w)) && Within(Coded(contract, w), {Planner, Coder})
    ensures Planner !in contract.required ==> Within(Coded(contract, w), {Coder})
  {
    hide Attempted, Sampled, SampleCount;
    var none: Ledger := [];
    AttemptClean(none, Planner, T.Primary, w.planner, {Planner});
    var planned := Planned(contract, w);
    assert Clean(planned);
    assert Planner !in contract.required ==> planned == [];
    WithinAbsent(planned, {Planner}, Coder);
    WithinMore(planned, {Planner}, {Planner, Coder});
    SampledClean(planned, SampleCount(contract, w.supply), w.samples, {Planner, Coder});
    if Planner !in contract.required {
      SampledClean(planned, SampleCount(contract, w.supply), w.samples, {Coder});
    }
  }

  function Working(contract: Contract): set<Seat> {
    if Planner in contract.required then {Planner, Coder} else {Coder}
  }

  /** The seats a judged run can draw on before the Synthesizer. */
  function Bench(contract: Contract): set<Seat> {
    Working(contract) + Jury(contract)
  }

  lemma ReviewedClean(contract: Contract, w: World)
    ensures Clean(Reviewed(contract, w)) && Within(Reviewed(contract, w), Bench(contract))
  {
    hide Coded, Clean, Within, Absent;
    CodedClean(contract, w);
    var coded := Coded(contract, w);
    assert Within(coded, Working(contract));
    WithinMore(coded, Working(contract), Bench(contract));
    forall s | s in Jury(contract)
      ensures Absent(coded, s)
    {
      WithinAbsent(coded, Working(contract), s);
    }
    RoundClean(coded, Jury(contract), T.Primary, w.picks, {}, Bench(contract));
  }

  lemma DeliberatedClean(contract: Contract, w: World, proposal: string)
    ensures var ledger := Deliberated(contract, w, proposal).ledger;
            Clean(ledger) && Within(ledger, Bench(contract))
  {
    hide Clean, Within, Reviewed, Debate.Debated, MaxTurns, Failing, Unheard;
    ReviewedClean(contract, w);
    var challenge := Challenging(contract, w.challenge);
    var c := Opening(proposal, Verdicts(contract, w.verdicts), challenge, Reviewed(contract, w));
    var max := MaxTurns(contract, w.cycles, w.lowResource, c, challenge);
    assert c.reports.Keys <= Bench(contract);
    DebateClean(c, 1, max, w.turns, Bench(contract));
  }

  /** No run makes an unexplained repeat, whatever fails, times out or interleaves, for any contract. */
  lemma RunExplained(contract: Contract, w: World)
    ensures T.Unexplained(Execute(contract, w).trace) == []
    ensures Within(Execute(contract, w).trace, Bench(contract) + {Synthesizer})
  {
    hide Within, Coded, Deliberated, Absent;
    var all := Bench(contract) + {Synthesizer};
    CodedClean(contract, w);
    WithinMore(Coded(contract, w), Working(contract), all);
    var pool := Pool(SampleCount(contract, w.supply), w.samples);
    if pool != [] {
      var council := Deliberated(contract, w, Candidate(pool, w.choice));
      DeliberatedClean(contract, w, Candidate(pool, w.choice));
      WithinAbsent(council.ledger, Bench(contract), Synthesizer);
      WithinMore(council.ledger, Bench(contract), all);
      AttemptClean(council.ledger, Synthesizer, T.Primary, w.synthesizer, all);
    }
  }

  // ---- the contract ----

  datatype Violation =
    | MissingSeat(seat: Seat) | UnauthorizedSeat(name: string) | CallBudgetExceeded
    | UnexplainedRepeat(call: T.Call) | SampleBudgetExceeded

  ghost predicate Spoke(ledger: Ledger, name: string) {
    exists k :: 0 <= k < |ledger| && ledger[k].seat == name && Deliberate(ledger[k])
  }

  predicate ActivatesName(contract: Contract, name: string) {
    exists s :: s in contract.required + contract.optional && SeatName(s) == name
  }

  ghost function Violations(ledger: Ledger, contract: Contract): set<Violation> {
    (set s | s in contract.required && !Spoke(ledger, SeatName(s)) :: MissingSeat(s))
    + (set c | c in ledger && Deliberate(c) && !ActivatesName(contract, c.seat) :: UnauthorizedSeat(c.seat))
    + (if Deliberations(ledger) > contract.MaxCalls() then {CallBudgetExceeded} else {})
    + (set c | c in T.Unexplained(ledger) :: UnexplainedRepeat(c))
    + (if Samples(ledger) > contract.coderSamples then {SampleBudgetExceeded} else {})
  }

  lemma {:induction false} SampledCounts(ledger: Ledger, n: nat, samples: nat -> Sample)
    ensures Deliberations(Sampled(ledger, n, samples)) <= Deliberations(ledger) + n
    ensures Samples(Sampled(ledger, n, samples)) <= Samples(ledger) + n
  {
    hide Deliberations, Samples, Attempted;
    if n > 0 {
      SampledCounts(ledger, n - 1, samples);
      AttemptCounts(Sampled(ledger, n - 1, samples), Coder, if n == 1 then T.Primary else T.SelfConsistency,
                    samples(n - 1).attempt);
    }
  }

  function One(b: bool): nat {
    if b then 1 else 0
  }

  lemma CodedCounts(contract: Contract, w: World)
    requires contract.coderSamples >= 1
    ensures Deliberations(Coded(contract, w)) <= One(Planner in contract.required) + contract.coderSamples
    ensures Samples(Coded(contract, w)) <= contract.coderSamples
  {
    hide Attempted, Sampled;
    var none: Ledger := [];
    AttemptCounts(none, Planner, T.Primary, w.planner);
    SampledCounts(Planned(contract, w), SampleCount(contract, w.supply), w.samples);
  }

  lemma DeliberatedCounts(contract: Contract, w: World, proposal: string)
    requires contract.coderSamples >= 1
    ensures var ledger := Deliberated(contract, w, proposal).ledger;
            && Deliberations(ledger) <= One(Planner in contract.required) + contract.coderSamples + |Jury(contract)|
                                        + Budget(contract.maxDebateTurns, |Jury(contract)|)
            && Samples(ledger) <= contract.coderSamples
  {
    hide Deliberations, Samples, Revisions, Coded, Debate.Debated, Failing, Unheard, Budget;
    CodedCounts(contract, w);
    var jury := Jury(contract);
    RoundCounts(Coded(contract, w), jury, T.Primary, w.picks, {});
    assert jury - {} == jury;
    var challenge := Challenging(contract, w.challenge);
    var c := Opening(proposal, Verdicts(contract, w.verdicts), challenge, Reviewed(contract, w));
    var max := MaxTurns(contract, w.cycles, w.lowResource, c, challenge);
    DebateCost(c, 1, max, w.turns, jury);
    BudgetGrows(max, contract.maxDebateTurns, |jury|, |jury|);
  }

  lemma BudgetGrows(turns: nat, more: nat, judges: nat, many: nat)
    requires turns <= more && judges <= many
    ensures Budget(turns, judges) <= Budget(more, many)
  {
    assert turns * (1 + judges) <= more * (1 + judges) <= more * (1 + many);
  }

  lemma SeatCount(contract: Contract)
    requires contract.optional == {} && Coder in contract.required && Reviewer in contract.required
    ensures One(Planner in contract.required) + |Jury(contract)| + One(Synthesizer in contract.required)
         <= |contract.required| - 1
    ensures |Jury(contract)| <= |contract.required - {Planner, Coder}|
  {
    hide Jury;
    var jury, rest := Jury(contract), contract.required - {Planner, Coder};
    JuryFits(contract);
    assert contract.required == {Coder} + (if Planner in contract.required then {Planner} else {}) + rest;
    SubsetSize(jury + if Synthesizer in contract.required then {Synthesizer} else {}, rest);
    SubsetSize(jury, rest);
  }

  lemma JuryFits(contract: Contract)
    requires contract.optional == {} && Reviewer in contract.required
    ensures Jury(contract) <= contract.required - {Planner, Coder, Synthesizer}
  {
  }

  /** The whole run stays within the declared calls and samples. */
  lemma RunBudget(contract: Contract, w: World)
    requires contract.optional == {} && Coder in contract.required && contract.coderSamples >= 1
    ensures Deliberations(Execute(contract, w).trace) <= contract.MaxCalls()
    ensures Samples(Execute(contract, w).trace) <= contract.coderSamples
  {
    hide Deliberations, Samples, Revisions, Coded, Deliberated;
    CodedCounts(contract, w);
    AtLeastCoder(contract);
    var pool := Pool(SampleCount(contract, w.supply), w.samples);
    if pool != [] && Reviewer in contract.required {
      var council := Deliberated(contract, w, Candidate(pool, w.choice));
      DeliberatedCounts(contract, w, Candidate(pool, w.choice));
      SeatCount(contract);
      BudgetGrows(contract.maxDebateTurns, contract.maxDebateTurns, |Jury(contract)|,
                  |contract.required - {Planner, Coder}|);
      AttemptCounts(council.ledger, Synthesizer, T.Primary, w.synthesizer);
    }
  }

  lemma AtLeastCoder(contract: Contract)
    requires Coder in contract.required
    ensures One(Planner in contract.required) + contract.coderSamples <= contract.MaxCalls()
  {
    var working := Working(contract);
    SubsetSize(working, contract.required);
    BudgetGrows(0, contract.maxDebateTurns, 0, |contract.required - {Planner, Coder}|);
    assert |working| == 1 + One(Planner in contract.required);
  }

  lemma {:induction false} Shorter(ledger: Ledger, k: nat)
    requires k <= |ledger|
    ensures Deliberations(ledger[..k]) <= Deliberations(ledger) && Samples(ledger[..k]) <= Samples(ledger)
    ensures Clean(ledger) ==> Clean(ledger[..k])
    decreases |ledger|
  {
    if k == |ledger| {
      assert ledger[..k] == ledger;
    } else {
      var front := ledger[..|ledger| - 1];
      assert front[..k] == ledger[..k];
      hide SeatName, T.Seen, Deliberate;
      Shorter(front, k);
    }
  }

  /** A run honours its contract whenever it is looked at, also when it is abandoned part-way: the only
      thing that can be wrong is a required seat that has not spoken. */
  lemma ContractHonoured(contract: Contract, w: World, k: nat)
    requires contract.optional == {} && Coder in contract.required && contract.coderSamples >= 1
    requires k <= |Execute(contract, w).trace|
    ensures var seen := Execute(contract, w).trace[..k];
            && (forall v :: v in Violations(seen, contract) ==> v.MissingSeat?)
            && (Violations(seen, contract) == {}
                <==> forall s :: s in contract.required ==> Spoke(seen, SeatName(s)))
  {
    hide Execute, Deliberations, Samples, SeatName, Contract.MaxCalls;
    var trace := Execute(contract, w).trace;
    RunExplained(contract, w);
    RunBudget(contract, w);
    Shorter(trace, k);
    var seen := trace[..k];
    forall c | c in seen
      ensures ActivatesName(contract, c.seat)
    {
      RunAuthorized(contract, w, c);
    }
    forall s | s in contract.required && !Spoke(seen, SeatName(s))
      ensures MissingSeat(s) in Violations(seen, contract)
    {
    }
  }

  lemma RunAuthorized(contract: Contract, w: World, c: T.Call)
    requires contract.optional == {} && Coder in contract.required
    requires c in Execute(contract, w).trace
    ensures ActivatesName(contract, c.seat)
  {
    hide Coded, Deliberated;
    CodedClean(contract, w);
    var pool := Pool(SampleCount(contract, w.supply), w.samples);
    if pool == [] || Reviewer !in contract.required {
      assert Within(Coded(contract, w), Working(contract));
      NamedActive(Coded(contract, w), Working(contract), contract, c);
    } else {
      var council := Deliberated(contract, w, Candidate(pool, w.choice));
      DeliberatedClean(contract, w, Candidate(pool, w.choice));
      var more := Bench(contract) + if Synthesizer in contract.required then {Synthesizer} else {};
      WithinMore(council.ledger, Bench(contract), more);
      WithinAbsent(council.ledger, Bench(contract), Synthesizer);
      if Synthesizer in contract.required {
        AttemptClean(council.ledger, Synthesizer, T.Primary, w.synthesizer, more);
      }
      NamedActive(Execute(contract, w).trace, more, contract, c);
    }
  }

  lemma NamedActive(ledger: Ledger, seats: set<Seat>, contract: Contract, c: T.Call)
    requires Within(ledger, seats) && seats <= contract.required && c in ledger
    ensures ActivatesName(contract, c.seat)
  {
    var k :| 0 <= k < |ledger| && ledger[k] == c;
    assert Names(seats, ledger[k].seat);
    var s :| s in seats && SeatName(s) == c.seat;
    assert s in contract.required + contract.optional;
  }

  /** The contract in force: the tier's, or that minus the critics when they are switched off. */
  function InForce(tier: Tier, critics: bool): Contract {
    if critics then ContractFor(tier) else ContractFor(tier).WithoutCritics()
  }

  /** Hence every tier: a run looked at at any moment breaks nothing but, at worst, a seat's attendance. */
  lemma TierHonoured(tier: Tier, critics: bool, w: World, k: nat)
    requires k <= |Execute(InForce(tier, critics), w).trace|
    ensures var seen := Execute(InForce(tier, critics), w).trace[..k];
            forall v :: v in Violations(seen, InForce(tier, critics)) ==> v.MissingSeat?
  {
    hide Execute, Violations;
    ContractHonoured(InForce(tier, critics), w, k);
  }

  lemma {:induction false} PoolMember(n: nat, samples: nat -> Sample, text: string)
    ensures text in Pool(n, samples) <==> exists k :: 0 <= k < n && samples(k).text == Some(text)
  {
    if n > 0 {
      PoolMember(n - 1, samples, text);
    }
  }

  /** What a judged run hands to arbitration is a usable sample or a revision that came back, and it counts
      as converged exactly when no judge objects to it any more and no challenge went unanswered. */
  lemma RunProposal(contract: Contract, w: World)
    requires Execute(contract, w).Debated?
    ensures var d := Execute(contract, w).council;
            || (exists k :: 0 <= k < SampleCount(contract, w.supply) && w.samples(k).text == Some(d.proposal))
            || (exists k :: 1 <= k <= d.turns && CameBack(w.turns(k)) && d.proposal == w.turns(k).revision.text)
    ensures var d := Execute(contract, w).council;
            && d.turns <= contract.maxDebateTurns && d.turns <= w.cycles
            && (d.converged ==> AllContent(d.reports))
            && (d.converged <==> d.objections == [])
  {
    hide Held, Failing, AllContent, Standing, Heard, Unheard, Revisions, Reviewed, CameBack, LastReturned, WasCut;
    var n := SampleCount(contract, w.supply);
    var pool := Pool(n, w.samples);
    var proposal := Candidate(pool, w.choice);
    PoolMember(n, w.samples, proposal);
    var challenge := Challenging(contract, w.challenge);
    ConvergedIff(contract, w.cycles, w.lowResource, proposal, Verdicts(contract, w.verdicts), challenge,
                 Reviewed(contract, w), w.turns);
    ProposalSource(contract, w.cycles, w.lowResource, proposal, Verdicts(contract, w.verdicts), challenge,
                   Reviewed(contract, w), w.turns);
  }
}
