/**
 Seats, tier contracts and what a council run adds to the call ledger
 (velune/cognition/council/contracts.py, velune/cognition/orchestrator.py).  A seat's turn opens one
 call carrying the reason of its scope and then a FALLBACK call for each alternate provider it tries.
 */
module CouncilLedger {
  import opened Optional
  import T = ExecutionTrace

  datatype Seat =
    | Planner | Coder | Reviewer | Challenger | Scalability | Security | Performance | Maintainability | Synthesizer

  function SeatName(seat: Seat): string {
    match seat
    case Planner => "planner"
    case Coder => "coder"
    case Reviewer => "reviewer"
    case Challenger => "challenger"
    case Scalability => "scalability_critic"
    case Security => "security_critic"
    case Performance => "performance_critic"
    case Maintainability => "maintainability_critic"
    case Synthesizer => "synthesizer"
  }

  lemma NamesDiffer(a: Seat, b: Seat)
    ensures SeatName(a) == SeatName(b) <==> a == b
  {
    assert |SeatName(Planner)| == 7 && |SeatName(Coder)| == 5 && |SeatName(Reviewer)| == 8;
    assert |SeatName(Challenger)| == 10 && |SeatName(Scalability)| == 18 && |SeatName(Security)| == 15;
    assert |SeatName(Performance)| == 18 && |SeatName(Maintainability)| == 22 && |SeatName(Synthesizer)| == 11;
    assert SeatName(Scalability)[0] == 's' && SeatName(Performance)[0] == 'p';
  }

  // ---- contracts ----

  datatype Tier = Instant | Minimal | Standard | Full

  datatype Contract = Contract(required: set<Seat>, optional: set<Seat>, coderSamples: nat, maxDebateTurns: nat) {
    predicate Activates(seat: Seat) {
      seat in required || seat in optional
    }

    predicate HasCritics() {
      Scalability in required || Security in required || Performance in required || Maintainability in required
    }

    /** Most calls a run may make, debate included, retries and fallbacks aside. */
    function MaxCalls(): int {
      |required| - 1 + coderSamples + maxDebateTurns * (1 + |required - {Planner, Coder}|)
    }

    function WithoutCritics(): Contract {
      var dropped := {Challenger, Scalability, Security, Performance, Maintainability};
      this.(required := required - dropped, optional := optional - dropped)
    }
  }

  function ContractFor(tier: Tier): Contract {
    match tier
    case Instant => Contract({Coder}, {}, 1, 0)
    case Minimal => Contract({Planner, Coder}, {}, 1, 0)
    case Standard => Contract({Planner, Coder, Reviewer, Synthesizer}, {}, 1, 1)
    case Full =>
      Contract({Planner, Coder, Reviewer, Challenger, Scalability, Security, Performance, Maintainability, Synthesizer},
               {}, 3, 3)
  }

  // ---- opening calls ----

  type Ledger = seq<T.Call>

  function Open(ledger: Ledger, seat: Seat, reason: T.Reason): Ledger {
    ledger + [T.Call(|ledger| + 1, SeatName(seat), "", "", reason, None)]
  }

  /** A seat's turn: stopped before any call, or one call and then so many fallbacks. */
  datatype Attempt = Unopened | Opened(fallbacks: nat)

  function FallBack(ledger: Ledger, seat: Seat, times: nat): Ledger {
    if times == 0 then ledger else Open(FallBack(ledger, seat, times - 1), seat, T.Fallback)
  }

  function Attempted(ledger: Ledger, seat: Seat, reason: T.Reason, attempt: Attempt): Ledger {
    match attempt
    case Unopened => ledger
    case Opened(fallbacks) => FallBack(Open(ledger, seat, reason), seat, fallbacks)
  }

  /** A scheduled round: each pick lets one seat open its next call, in any interleaving at all. */
  function Round(ledger: Ledger, seats: set<Seat>, reason: T.Reason, picks: seq<Seat>, started: set<Seat>): Ledger
    decreases |picks|
  {
    if picks == [] then ledger
    else
      var seat := picks[0];
      if seat !in seats then Round(ledger, seats, reason, picks[1..], started)
      else if seat in started then Round(Open(ledger, seat, T.Fallback), seats, reason, picks[1..], started)
      else Round(Open(ledger, seat, reason), seats, reason, picks[1..], started + {seat})
  }

  // ---- the ledger stays explained ----

  ghost predicate Clean(ledger: Ledger) {
    T.Unexplained(ledger) == []
  }

  ghost predicate Absent(ledger: Ledger, seat: Seat) {
    !T.Seen(ledger, SeatName(seat))
  }

  ghost predicate Names(seats: set<Seat>, name: string) {
    exists s :: s in seats && SeatName(s) == name
  }

  /** Only the given seats occur. */
  ghost predicate Within(ledger: Ledger, seats: set<Seat>) {
    forall k :: 0 <= k < |ledger| ==> Names(seats, ledger[k].seat)
  }

  lemma NotNamed(seats: set<Seat>, name: string, seat: Seat)
    requires Names(seats, name) && seat !in seats
    ensures name != SeatName(seat)
  {
    var s :| s in seats && SeatName(s) == name;
    NamesDiffer(s, seat);
  }

  lemma WithinAbsent(ledger: Ledger, seats: set<Seat>, seat: Seat)
    requires Within(ledger, seats) && seat !in seats
    ensures Absent(ledger, seat)
  {
    forall k | 0 <= k < |ledger|
      ensures ledger[k].seat != SeatName(seat)
    {
      NotNamed(seats, ledger[k].seat, seat);
    }
  }

  lemma WithinMore(ledger: Ledger, few: set<Seat>, many: set<Seat>)
    requires Within(ledger, few) && few <= many
    ensures Within(ledger, many)
  {
    forall k | 0 <= k < |ledger|
      ensures Names(many, ledger[k].seat)
    {
      assert Names(few, ledger[k].seat);
      var s :| s in few && SeatName(s) == ledger[k].seat;
    }
  }

  lemma OpenClean(ledger: Ledger, seat: Seat, reason: T.Reason, seats: set<Seat>)
    requires Clean(ledger) && Within(ledger, seats) && seat in seats
    requires reason == T.Primary ==> Absent(ledger, seat)
    ensures Clean(Open(ledger, seat, reason)) && Within(Open(ledger, seat, reason), seats)
  {
    hide SeatName;
    var after := Open(ledger, seat, reason);
    assert after[..|ledger|] == ledger;
    forall k | 0 <= k < |after|
      ensures Names(seats, after[k].seat)
    {
      assert k < |ledger| ==> after[k] == ledger[k];
    }
  }

  lemma {:induction false} FallBackClean(ledger: Ledger, seat: Seat, times: nat, seats: set<Seat>)
    requires Clean(ledger) && Within(ledger, seats) && seat in seats
    ensures Clean(FallBack(ledger, seat, times)) && Within(FallBack(ledger, seat, times), seats)
  {
    hide Clean, Within, Open;
    if times > 0 {
      FallBackClean(ledger, seat, times - 1, seats);
      OpenClean(FallBack(ledger, seat, times - 1), seat, T.Fallback, seats);
    }
  }

  lemma AttemptClean(ledger: Ledger, seat: Seat, reason: T.Reason, attempt: Attempt, seats: set<Seat>)
    requires Clean(ledger) && Within(ledger, seats) && seat in seats
    requires reason == T.Primary ==> Absent(ledger, seat)
    ensures Clean(Attempted(ledger, seat, reason, attempt)) && Within(Attempted(ledger, seat, reason, attempt), seats)
  {
    hide Clean, Within, Open, Absent;
    if attempt.Opened? {
      OpenClean(ledger, seat, reason, seats);
      FallBackClean(Open(ledger, seat, reason), seat, attempt.fallbacks, seats);
    }
  }

  lemma OpenOther(ledger: Ledger, seat: Seat, reason: T.Reason, other: Seat)
    requires Absent(ledger, other) && seat != other
    ensures Absent(Open(ledger, seat, reason), other)
  {
    hide SeatName;
    NamesDiffer(seat, other);
  }

  /** A round whose seats have not called before explains itself; so does a round of revisions. */
  lemma {:induction false} RoundClean(ledger: Ledger, seats: set<Seat>, reason: T.Reason, picks: seq<Seat>,
                                      started: set<Seat>, all: set<Seat>)
    requires Clean(ledger) && Within(ledger, all) && seats <= all
    requires reason == T.Primary ==> forall s :: s in seats && s !in started ==> Absent(ledger, s)
    ensures Clean(Round(ledger, seats, reason, picks, started))
    ensures Within(Round(ledger, seats, reason, picks, started), all)
    decreases |picks|
  {
    hide Clean, Within, Open, Absent;
    if picks != [] {
      var seat := picks[0];
      if seat !in seats {
        RoundClean(ledger, seats, reason, picks[1..], started, all);
      } else {
        var why := if seat in started then T.Fallback else reason;
        OpenClean(ledger, seat, why, all);
        forall s | s in seats && s !in started + {seat} && reason == T.Primary
          ensures Absent(Open(ledger, seat, why), s)
        {
          OpenOther(ledger, seat, why, s);
        }
        RoundClean(Open(ledger, seat, why), seats, reason, picks[1..], started + {seat}, all);
        assert seat in started ==> started + {seat} == started;
      }
    }
  }

  // ---- how many calls ----

  predicate Deliberate(call: T.Call) {
    call.reason != T.Retry && call.reason != T.Fallback
  }

  /** Calls other than provider-owned retries and fallbacks. */
  function Deliberations(ledger: Ledger): nat {
    if ledger == [] then 0
    else Deliberations(ledger[..|ledger| - 1]) + if Deliberate(ledger[|ledger| - 1]) then 1 else 0
  }

  /** Coder calls that are neither revisions nor provider-owned. */
  function Samples(ledger: Ledger): nat {
    if ledger == [] then 0
    else
      var last := ledger[|ledger| - 1];
      Samples(ledger[..|ledger| - 1])
      + if Deliberate(last) && last.seat == SeatName(Coder) && last.reason != T.Revision then 1 else 0
  }

  /** Coder calls made to revise, fallbacks aside. */
  function Revisions(ledger: Ledger): nat {
    if ledger == [] then 0
    else
      var last := ledger[|ledger| - 1];
      Revisions(ledger[..|ledger| - 1]) + if last.seat == SeatName(Coder) && last.reason == T.Revision then 1 else 0
  }

  lemma OpenCounts(ledger: Ledger, seat: Seat, reason: T.Reason)
    ensures Deliberations(Open(ledger, seat, reason))
         == Deliberations(ledger) + if reason != T.Retry && reason != T.Fallback then 1 else 0
    ensures Samples(Open(ledger, seat, reason))
         == Samples(ledger)
            + if reason != T.Retry && reason != T.Fallback && seat == Coder && reason != T.Revision then 1 else 0
    ensures Revisions(Open(ledger, seat, reason))
         == Revisions(ledger) + if seat == Coder && reason == T.Revision then 1 else 0
  {
    hide SeatName;
    NamesDiffer(seat, Coder);
    assert Open(ledger, seat, reason)[..|ledger|] == ledger;
  }

  lemma {:induction false} FallBackCounts(ledger: Ledger, seat: Seat, times: nat)
    ensures Deliberations(FallBack(ledger, seat, times)) == Deliberations(ledger)
    ensures Samples(FallBack(ledger, seat, times)) == Samples(ledger)
    ensures Revisions(FallBack(ledger, seat, times)) == Revisions(ledger)
  {
    hide Open, Deliberations, Samples, Revisions;
    if times > 0 {
      FallBackCounts(ledger, seat, times - 1);
      OpenCounts(FallBack(ledger, seat, times - 1), seat, T.Fallback);
    }
  }

  lemma AttemptCounts(ledger: Ledger, seat: Seat, reason: T.Reason, attempt: Attempt)
    ensures Deliberations(Attempted(ledger, seat, reason, attempt)) <= Deliberations(ledger) + 1
    ensures Samples(ledger) <= Samples(Attempted(ledger, seat, reason, attempt))
         <= Samples(ledger) + if seat == Coder && reason != T.Revision then 1 else 0
    ensures Revisions(Attempted(ledger, seat, reason, attempt))
         <= Revisions(ledger) + if seat == Coder && reason == T.Revision then 1 else 0
  {
    hide Open, Deliberations, Samples, Revisions, FallBack;
    if attempt.Opened? {
      OpenCounts(ledger, seat, reason);
      FallBackCounts(Open(ledger, seat, reason), seat, attempt.fallbacks);
    }
  }

  lemma {:induction false} RoundCounts(ledger: Ledger, seats: set<Seat>, reason: T.Reason, picks: seq<Seat>,
                                       started: set<Seat>)
    requires Coder !in seats
    ensures Deliberations(Round(ledger, seats, reason, picks, started)) <= Deliberations(ledger) + |seats - started|
    ensures Samples(Round(ledger, seats, reason, picks, started)) == Samples(ledger)
    ensures Revisions(Round(ledger, seats, reason, picks, started)) == Revisions(ledger)
    decreases |picks|
  {
    hide Open, Deliberations, Samples, Revisions;
    if picks != [] {
      var seat := picks[0];
      if seat !in seats {
        RoundCounts(ledger, seats, reason, picks[1..], started);
      } else if seat in started {
        OpenCounts(ledger, seat, T.Fallback);
        RoundCounts(Open(ledger, seat, T.Fallback), seats, reason, picks[1..], started);
      } else {
        OpenCounts(ledger, seat, reason);
        RoundCounts(Open(ledger, seat, reason), seats, reason, picks[1..], started + {seat});
        assert seats - (started + {seat}) == (seats - started) - {seat};
      }
    }
  }
}
