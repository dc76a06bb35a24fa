/**
 The council's debate (velune/cognition/orchestrator.py, debate phase of a tiered run;
 velune/cognition/council/debate.py).  Objecting judges send the Coder back, and only they judge the
 revision again.  Model replies, failures, timeouts and the wall clock are the inputs `turns`.
 */
module Debate {
  import opened Optional
  import opened CouncilLedger
  import T = ExecutionTrace

  /** What a reviewer or critic said; one that could not be used abstains. */
  datatype Verdict = Verdict(usable: bool, passed: bool, score: real) {
    predicate Objects() {
      usable && !passed
    }
  }

  datatype Challenge = Challenge(usable: bool, severity: real) {
    predicate Loud() {
      usable && severity > 0.6
    }
  }

  /** The reviewers and critics that are part of the run. */
  type Reports = map<Seat, Verdict>

  const JUDGES: seq<Seat> := [Reviewer, Scalability, Security, Performance, Maintainability]

  datatype Absence = Judging(seat: Seat) | Rejudging(seat: Seat)

  datatype Council = Council(
    proposal: string,
    refined: string,
    reports: Reports,
    objections: seq<Seat>,
    converged: bool,
    turns: nat,
    unavailable: seq<Absence>,
    ledger: Ledger)

  // ---- objections ----

  /** The seats of `order` whose report is an objection, in that order. */
  function Failing(order: seq<Seat>, reports: Reports): seq<Seat> {
    if order == [] then []
    else
      var last := order[|order| - 1];
      Failing(order[..|order| - 1], reports)
      + if last in reports && reports[last].Objects() then [last] else []
  }

  function Challenged(challenge: Option<Challenge>): seq<Seat> {
    if challenge.Some? && challenge.value.Loud() then [Challenger] else []
  }

  lemma {:induction false} FailingMember(order: seq<Seat>, reports: Reports, seat: Seat)
    ensures seat in Failing(order, reports) <==> seat in order && seat in reports && reports[seat].Objects()
  {
    if order != [] {
      var n := |order| - 1;
      FailingMember(order[..n], reports, seat);
      assert order == order[..n] + [order[n]];
    }
  }

  lemma FailingAll(reports: Reports)
    ensures forall s: Seat :: s in Failing(JUDGES, reports) <==> s in JUDGES && s in reports && reports[s].Objects()
  {
    forall s: Seat {
      FailingMember(JUDGES, reports, s);
    }
  }

  ghost predicate AllContent(reports: Reports) {
    forall s :: s in JUDGES && s in reports ==> !reports[s].Objects()
  }

  lemma NoneFailing(reports: Reports)
    ensures Failing(JUDGES, reports) == [] <==> AllContent(reports)
  {
    var failing := Failing(JUDGES, reports);
    FailingAll(reports);
    if failing != [] {
      assert failing[0] in failing;
    }
  }

  // ---- one turn ----

  datatype Revision = Returned(text: string) | TimedOut | CoderFailed | CutOff

  /** What happens in one turn: whether the wall time is spent, how the Coder's call goes, how the
      re-judging round's calls interleave, whether it is cut off, and the verdicts that came back. */
  datatype Turn = Turn(
    spent: bool,
    attempt: Attempt,
    revision: Revision,
    picks: seq<Seat>,
    stalled: bool,
    verdicts: Reports)

  datatype Step = Again(council: Council) | Leave(council: Council) | Cut(council: Council)

  function Among(names: seq<Seat>): set<Seat> {
    set s | s in names
  }

  predicate Confirmed(verdicts: Reports, seat: Seat) {
    seat in verdicts && verdicts[seat].usable
  }

  /** The seats that could not judge the revision. */
  function Gone(names: seq<Seat>, verdicts: Reports): seq<Seat> {
    if names == [] then []
    else
      var last := names[|names| - 1];
      Gone(names[..|names| - 1], verdicts) + if Confirmed(verdicts, last) then [] else [last]
  }

  /** A seat that judged again holds its new report; the others keep theirs. */
  function Refreshed(reports: Reports, names: seq<Seat>, verdicts: Reports): Reports {
    map s | s in reports :: if s in names && Confirmed(verdicts, s) then verdicts[s] else reports[s]
  }

  predicate Delighted(names: seq<Seat>, verdicts: Reports) {
    forall s :: s in names && Confirmed(verdicts, s) ==> verdicts[s].passed && verdicts[s].score > 0.8
  }

  function Judge(c: Council, names: seq<Seat>, verdicts: Reports): Step {
    var gone := Gone(names, verdicts);
    var after := c.(reports := Refreshed(c.reports, names, verdicts));
    if gone == [] && Delighted(names, verdicts) then
      Leave(after.(proposal := c.refined, objections := [], converged := true))
    else
      var left := after.(objections := Failing(JUDGES, after.reports));
      if gone != [] then
        Leave(left.(unavailable := c.unavailable + seq(|gone|, k requires 0 <= k < |gone| => Rejudging(gone[k])),
                    proposal := c.refined, converged := false))
      else if left.objections == [] then
        Leave(left.(proposal := c.refined, converged := true))
      else
        Again(left)
  }

  function TakeTurn(c: Council, n: nat, turn: Turn): Step {
    if turn.spent then Leave(c)
    else
      var asked := c.(turns := n, ledger := Attempted(c.ledger, Coder, T.Revision, turn.attempt));
      match turn.revision
      case CutOff => Cut(asked)
      case TimedOut => Leave(asked)
      case CoderFailed => Leave(asked)
      case Returned(text) =>
        var revised := asked.(refined := text);
        var names := Failing(JUDGES, c.reports);
        if names == [] then
          Leave(revised.(objections := [], proposal := text, converged := true))
        else
          var heard := revised.(ledger := Round(revised.ledger, Among(names), T.Revision, turn.picks, {}));
          if turn.stalled then Cut(heard) else Judge(heard, names, turn.verdicts)
  }

  // ---- the whole debate ----

  function Settle(c: Council): Council {
    if c.objections != [] then c.(proposal := c.refined, converged := false) else c
  }

  function Debated(c: Council, n: nat, max: nat, turns: nat -> Turn): Council
    decreases max + 1 - n
  {
    if n > max then Settle(c)
    else
      match TakeTurn(c, n, turns(n))
      case Again(d) => Debated(d, n + 1, max, turns)
      case Leave(d) => Settle(d)
      case Cut(d) => d.(converged := false)
  }

  /** The loop, with the state its closure shares with the run. */
  method RunDebate(start: Council, max: nat, turns: nat -> Turn) returns (c: Council)
    ensures c == Debated(start.(refined := start.proposal), 1, max, turns)
  {
    hide Attempted, Round, Failing, Gone, Refreshed, Delighted;
    c := start.(refined := start.proposal);
    ghost var first := c;
    var n := 1;
    while n <= max
      invariant 1 <= n
      invariant Debated(first, 1, max, turns) == Debated(c, n, max, turns)
      decreases max + 1 - n
    {
      var turn := turns(n);
      if turn.spent {
        break;
      }
      c := c.(turns := n, ledger := Attempted(c.ledger, Coder, T.Revision, turn.attempt));
      match turn.revision {
        case CutOff =>
          c := c.(converged := false);
          return;
        case TimedOut =>
          break;
        case CoderFailed =>
          break;
        case Returned(text) =>
          c := c.(refined := text);
      }
      var names := ToJudgeAgain(c.reports);
      if names == [] {
        c := c.(objections := [], proposal := c.refined, converged := true);
        break;
      }
      c := c.(ledger := Round(c.ledger, Among(names), T.Revision, turn.picks, {}));
      if turn.stalled {
        c := c.(converged := false);
        return;
      }
      FailingAll(c.reports);
      var reports, gone, delighted := Hear(c.reports, names, turn.verdicts);
      c := c.(reports := reports);
      if gone == [] && delighted {
        c := c.(proposal := c.refined, objections := [], converged := true);
        break;
      }
      c := c.(objections := Failing(JUDGES, c.reports));
      if gone != [] {
        c := c.(unavailable := c.unavailable + seq(|gone|, k requires 0 <= k < |gone| => Rejudging(gone[k])),
                proposal := c.refined, converged := false);
        break;
      }
      if c.objections == [] {
        c := c.(proposal := c.refined, converged := true);
        break;
      }
      n := n + 1;
    }
    if c.objections != [] {
      c := c.(proposal := c.refined, converged := false);
    }
  }

  /** The jobs of a re-judging round: the seats that objected. */
  method ToJudgeAgain(reports: Reports) returns (names: seq<Seat>)
    ensures names == Failing(JUDGES, reports)
  {
    names := [];
    for k := 0 to |JUDGES|
      invariant names == Failing(JUDGES[..k], reports)
    {
      var seat := JUDGES[k];
      if seat in reports && reports[seat].Objects() {
        names := names + [seat];
      }
      assert JUDGES[..k + 1][..k] == JUDGES[..k];
    }
    assert JUDGES[..|JUDGES|] == JUDGES;
  }

  lemma HearNothing(reports: Reports, verdicts: Reports)
    ensures Refreshed(reports, [], verdicts) == reports && Gone([], verdicts) == [] && Delighted([], verdicts)
  {
  }

  lemma RefreshOne(reports: Reports, names: seq<Seat>, seat: Seat, verdicts: Reports)
    requires seat in reports
    ensures Refreshed(reports, names + [seat], verdicts)
         == (if Confirmed(verdicts, seat) then Refreshed(reports, names, verdicts)[seat := verdicts[seat]]
             else Refreshed(reports, names, verdicts))
  {
    hide Confirmed;
  }

  lemma GoneOne(names: seq<Seat>, seat: Seat, verdicts: Reports)
    ensures Gone(names + [seat], verdicts)
         == Gone(names, verdicts) + if Confirmed(verdicts, seat) then [] else [seat]
  {
    assert (names + [seat])[..|names|] == names;
  }

  lemma DelightOne(names: seq<Seat>, seat: Seat, verdicts: Reports)
    ensures Delighted(names + [seat], verdicts)
       <==> Delighted(names, verdicts)
            && (Confirmed(verdicts, seat) ==> verdicts[seat].passed && verdicts[seat].score > 0.8)
  {
    assert forall s :: s in names + [seat] <==> s in names || s == seat;
  }

  method Hear(reports: Reports, names: seq<Seat>, verdicts: Reports)
    returns (after: Reports, gone: seq<Seat>, delighted: bool)
    requires forall s :: s in names ==> s in reports
    ensures after == Refreshed(reports, names, verdicts)
    ensures gone == Gone(names, verdicts)
    ensures delighted <==> Delighted(names, verdicts)
  {
    hide Refreshed, Gone, Delighted;
    after, gone, delighted := reports, [], true;
    HearNothing(reports, verdicts);
    for k := 0 to |names|
      invariant after == Refreshed(reports, names[..k], verdicts)
      invariant gone == Gone(names[..k], verdicts)
      invariant delighted <==> Delighted(names[..k], verdicts)
    {
      var seat := names[k];
      assert names[..k + 1] == names[..k] + [seat];
      RefreshOne(reports, names[..k], seat, verdicts);
      GoneOne(names[..k], seat, verdicts);
      DelightOne(names[..k], seat, verdicts);
      if seat !in verdicts || !verdicts[seat].usable {
        gone := gone + [seat];
      } else {
        after := after[seat := verdicts[seat]];
        if !verdicts[seat].passed || verdicts[seat].score <= 0.8 {
          delighted := false;
        }
      }
    }
    assert names[..|names|] == names;
  }

  // ---- what a debate comes to ----

  /** The objections are those of the reports, with the challenger's on top if `challenged`. */
  ghost predicate Current(c: Council, challenged: bool) {
    c.objections == Failing(JUDGES, c.reports) + if challenged then [Challenger] else []
  }

  /** The revision of this turn came back and somebody's verdict on it was awaited to the end. */
  predicate Heard(c: Council, turn: Turn) {
    !turn.spent && turn.revision.Returned? && (Failing(JUDGES, c.reports) == [] || !turn.stalled)
  }

  lemma HappyRound(c: Council, names: seq<Seat>, verdicts: Reports)
    requires names == Failing(JUDGES, c.reports) && Gone(names, verdicts) == [] && Delighted(names, verdicts)
    ensures Failing(JUDGES, Refreshed(c.reports, names, verdicts)) == []
  {
    var after := Refreshed(c.reports, names, verdicts);
    forall s | s in JUDGES && s in after
      ensures !after[s].Objects()
    {
      GoneMember(names, verdicts, s);
      FailingMember(JUDGES, c.reports, s);
    }
    NoneFailing(after);
  }

  lemma {:induction false} GoneMember(names: seq<Seat>, verdicts: Reports, seat: Seat)
    ensures seat in Gone(names, verdicts) <==> seat in names && !Confirmed(verdicts, seat)
  {
    if names != [] {
      var n := |names| - 1;
      GoneMember(names[..n], verdicts, seat);
      assert names == names[..n] + [names[n]];
    }
  }

  /** A judge that could not come back keeps the objection it had. */
  lemma GoneObjects(c: Council, names: seq<Seat>, verdicts: Reports)
    requires names == Failing(JUDGES, c.reports) && Gone(names, verdicts) != []
    ensures Failing(JUDGES, Refreshed(c.reports, names, verdicts)) != []
  {
    var after := Refreshed(c.reports, names, verdicts);
    var s := Gone(names, verdicts)[0];
    GoneMember(names, verdicts, s);
    FailingMember(JUDGES, c.reports, s);
    assert after[s] == c.reports[s];
    NoneFailing(after);
  }

  /** How a turn leaves the council. */
  ghost predicate TurnFair(c: Council, step: Step, heard: bool, challenged: bool) {
    var d := step.council;
    && Current(d, challenged && !heard)
    && (step.Leave? ==> (d.converged <==> d.objections == []))
    && (!step.Leave? ==> d.objections != [] && !d.converged && d.unavailable == c.unavailable)
    && (step.Again? ==> heard)
    && (d.unavailable == c.unavailable || (c.unavailable <= d.unavailable && !d.converged))
  }

  lemma TurnOutcome(c: Council, n: nat, turn: Turn, challenged: bool)
    requires Current(c, challenged) && c.objections != [] && !c.converged
    ensures TurnFair(c, TakeTurn(c, n, turn), Heard(c, turn), challenged)
  {
    hide Attempted, Round, Failing, Gone, Refreshed, Delighted, Among;
    var names := Failing(JUDGES, c.reports);
    if Heard(c, turn) && names != [] {
      if Gone(names, turn.verdicts) != [] {
        GoneObjects(c, names, turn.verdicts);
      } else if Delighted(names, turn.verdicts) {
        HappyRound(c, names, turn.verdicts);
      }
    }
  }

  ghost predicate Concluded(c: Council, d: Council, challenged: bool) {
    && (d.converged <==> d.objections == [])
    && Current(d, challenged)
    && (d.unavailable == c.unavailable || (c.unavailable <= d.unavailable && !d.converged))
  }

  lemma SettledConcluded(c: Council, step: Step, heard: bool, challenged: bool)
    requires TurnFair(c, step, heard, challenged)
    ensures step.Leave? ==> Concluded(c, Settle(step.council), challenged && !heard)
    ensures step.Cut? ==> Concluded(c, step.council.(converged := false), challenged && !heard)
  {
    hide Failing;
  }

  /** After a debate the council has converged exactly when no objection is outstanding.  What is
      outstanding are the objections of the latest reports, and the challenger's until a revision has
      been heard.  Whoever could not judge again keeps the council from converging. */
  lemma {:induction false} DebateOutcome(c: Council, n: nat, max: nat, turns: nat -> Turn, challenged: bool)
    requires Current(c, challenged) && c.objections != [] && !c.converged
    ensures Concluded(c, Debated(c, n, max, turns), challenged && (n > max || !Heard(c, turns(n))))
    decreases max + 1 - n
  {
    hide TakeTurn, Heard, Failing, Settle;
    if n <= max {
      var step := TakeTurn(c, n, turns(n));
      TurnOutcome(c, n, turns(n), challenged);
      SettledConcluded(c, step, Heard(c, turns(n)), challenged);
      if step.Again? {
        DebateOutcome(step.council, n + 1, max, turns, false);
      }
    } else {
      SettledConcluded(c, Leave(c), false, challenged);
    }
  }

  // ---- which proposal comes out ----

  predicate CameBack(turn: Turn) {
    !turn.spent && turn.revision.Returned?
  }

  /** The latest revision that came back in turns `n` to `last`. */
  function LastReturned(otherwise: string, n: nat, last: nat, turns: nat -> Turn): string
    decreases last + 1 - n
  {
    if last < n then otherwise
    else if CameBack(turns(last)) then turns(last).revision.text
    else if last == n then otherwise
    else LastReturned(otherwise, n, last - 1, turns)
  }

  lemma {:induction false} LastReturnedFrom(a: string, n: nat, last: nat, turns: nat -> Turn)
    requires n <= last
    ensures LastReturned(a, n, last, turns)
         == LastReturned(if CameBack(turns(n)) then turns(n).revision.text else a, n + 1, last, turns)
  {
    if n < last && !CameBack(turns(last)) {
      LastReturnedFrom(a, n, last - 1, turns);
    }
  }

  /** The outer timeout ends the debate. */
  predicate WasCut(c: Council, n: nat, max: nat, turns: nat -> Turn)
    decreases max + 1 - n
  {
    n <= max &&
    match TakeTurn(c, n, turns(n))
    case Again(d) => WasCut(d, n + 1, max, turns)
    case Leave(_) => false
    case Cut(_) => true
  }

  ghost predicate Drafted(c: Council, n: nat, turn: Turn, step: Step) {
    var d := step.council;
    && d.turns == (if turn.spent then c.turns else n)
    && d.refined == (if CameBack(turn) then turn.revision.text else c.refined)
    && (!step.Leave? ==> d.proposal == c.proposal)
    && (step.Leave? ==> Settle(d).proposal == d.refined)
    && (step.Again? ==> d.objections != [] && !turn.spent)
  }

  lemma TurnDrafts(c: Council, n: nat, turn: Turn)
    requires c.objections != []
    ensures Drafted(c, n, turn, TakeTurn(c, n, turn))
  {
    hide Attempted, Round, Failing, Gone, Refreshed, Delighted, Among;
  }

  /** The proposal is the one that entered the debate if the wall-time limit cut the debate off, and the
      latest revision that came back otherwise; it is never the leavings of a failed call. */
  lemma {:induction false} DebateProposal(c: Council, n: nat, max: nat, turns: nat -> Turn)
    requires c.objections != [] && c.turns + 1 == n <= max + 1
    ensures var d := Debated(c, n, max, turns);
            && c.turns <= d.turns <= max
            && d.refined == LastReturned(c.refined, n, d.turns, turns)
            && d.proposal == if WasCut(c, n, max, turns) then c.proposal else d.refined
    decreases max + 1 - n
  {
    hide TakeTurn, LastReturned;
    if n <= max {
      TurnDrafts(c, n, turns(n));
      var step := TakeTurn(c, n, turns(n));
      if step.Again? {
        DebateProposal(step.council, n + 1, max, turns);
        LastReturnedFrom(c.refined, n, Debated(c, n, max, turns).turns, turns);
      } else if !turns(n).spent {
        LastReturnedFrom(c.refined, n, n, turns);
        NothingReturned(step.council.refined, n + 1, n, turns);
      } else {
        NothingReturned(c.refined, n, c.turns, turns);
      }
    } else {
      NothingReturned(c.refined, n, c.turns, turns);
    }
  }

  lemma NothingReturned(a: string, n: nat, last: nat, turns: nat -> Turn)
    requires last < n
    ensures LastReturned(a, n, last, turns) == a
  {
  }

  // ---- what a debate leaves alone ----

  ghost predicate Standing(before: Reports, after: Reports) {
    && after.Keys == before.Keys
    && forall s :: s in before && !(s in JUDGES && before[s].Objects()) ==> after[s] == before[s]
  }

  lemma TurnStands(c: Council, n: nat, turn: Turn)
    ensures Standing(c.reports, TakeTurn(c, n, turn).council.reports)
  {
    hide Attempted, Round, Gone, Delighted, Among;
    FailingAll(c.reports);
  }

  /** Only a seat that objected is ever asked again: a pass or an abstention stands to the end. */
  lemma {:induction false} DebateStands(c: Council, n: nat, max: nat, turns: nat -> Turn)
    ensures Standing(c.reports, Debated(c, n, max, turns).reports)
    decreases max + 1 - n
  {
    hide TakeTurn, Standing;
    if n <= max {
      TurnStands(c, n, turns(n));
      var step := TakeTurn(c, n, turns(n));
      if step.Again? {
        DebateStands(step.council, n + 1, max, turns);
        StandingChain(c.reports, step.council.reports, Debated(step.council, n + 1, max, turns).reports);
      }
    } else {
      StandingSame(c.reports);
    }
  }

  lemma StandingSame(a: Reports)
    ensures Standing(a, a)
  {
  }

  lemma StandingChain(a: Reports, b: Reports, c: Reports)
    requires Standing(a, b) && Standing(b, c)
    ensures Standing(a, c)
  {
    forall s | s in a && !(s in JUDGES && a[s].Objects())
      ensures c[s] == a[s]
    {
      assert b[s] == a[s];
    }
  }

  // ---- what a debate costs ----

  lemma TurnClean(c: Council, n: nat, turn: Turn, all: set<Seat>)
    requires Clean(c.ledger) && Within(c.ledger, all) && Coder in all && c.reports.Keys <= all
    ensures Clean(TakeTurn(c, n, turn).council.ledger) && Within(TakeTurn(c, n, turn).council.ledger, all)
  {
    hide Clean, Within, Attempted, Round, Gone, Refreshed, Delighted, Failing, Absent;
    var asked := Attempted(c.ledger, Coder, T.Revision, turn.attempt);
    AttemptClean(c.ledger, Coder, T.Revision, turn.attempt, all);
    FailingAll(c.reports);
    RoundClean(asked, Among(Failing(JUDGES, c.reports)), T.Revision, turn.picks, {}, all);
  }

  lemma TurnCost(c: Council, n: nat, turn: Turn, judges: set<Seat>)
    requires Coder !in judges && c.reports.Keys <= judges
    ensures Deliberations(TakeTurn(c, n, turn).council.ledger) <= Deliberations(c.ledger) + 1 + |judges|
    ensures Samples(TakeTurn(c, n, turn).council.ledger) == Samples(c.ledger)
    ensures Revisions(TakeTurn(c, n, turn).council.ledger) <= Revisions(c.ledger) + 1
  {
    hide Deliberations, Samples, Revisions, Attempted, Round, Gone, Refreshed, Delighted, Failing;
    var asked := Attempted(c.ledger, Coder, T.Revision, turn.attempt);
    AttemptCounts(c.ledger, Coder, T.Revision, turn.attempt);
    FailingAll(c.reports);
    var names := Among(Failing(JUDGES, c.reports));
    RoundCounts(asked, names, T.Revision, turn.picks, {});
    SubsetSize(names - {}, judges);
  }

  lemma {:induction false} SubsetSize(few: set<Seat>, many: set<Seat>)
    requires few <= many
    ensures |few| <= |many|
  {
    if few != {} {
      var s :| s in few;
      SubsetSize(few - {s}, many - {s});
    }
  }

  /** However a debate goes, no call it adds is an unexplained repeat and no other seat is drawn in. */
  lemma {:induction false} DebateClean(c: Council, n: nat, max: nat, turns: nat -> Turn, all: set<Seat>)
    requires Clean(c.ledger) && Within(c.ledger, all) && Coder in all && c.reports.Keys <= all
    ensures Clean(Debated(c, n, max, turns).ledger) && Within(Debated(c, n, max, turns).ledger, all)
    decreases max + 1 - n
  {
    hide TakeTurn, Clean, Within, Standing;
    if n <= max {
      TurnClean(c, n, turns(n), all);
      KeysStand(c, n, turns(n));
      var step := TakeTurn(c, n, turns(n));
      if step.Again? {
        DebateClean(step.council, n + 1, max, turns, all);
      }
    }
  }

  lemma KeysStand(c: Council, n: nat, turn: Turn)
    ensures TakeTurn(c, n, turn).council.reports.Keys == c.reports.Keys
  {
    hide TakeTurn;
    TurnStands(c, n, turn);
  }

  function Budget(turns: nat, judges: nat): nat {
    turns * (1 + judges)
  }

  lemma BudgetStep(turns: nat, judges: nat)
    ensures Budget(turns + 1, judges) == Budget(turns, judges) + 1 + judges
  {
  }

  /** A debate costs at most one Coder call and one call per judge in each turn; none is a sample. */
  lemma {:induction false} DebateCost(c: Council, n: nat, max: nat, turns: nat -> Turn, judges: set<Seat>)
    requires Coder !in judges && c.reports.Keys <= judges
    requires n <= max + 1
    ensures Deliberations(Debated(c, n, max, turns).ledger) <= Deliberations(c.ledger) + Budget(max + 1 - n, |judges|)
    ensures Samples(Debated(c, n, max, turns).ledger) == Samples(c.ledger)
    ensures Revisions(Debated(c, n, max, turns).ledger) <= Revisions(c.ledger) + (max + 1 - n)
    decreases max + 1 - n
  {
    hide TakeTurn, Deliberations, Samples, Revisions, Budget, Standing;
    if n <= max {
      TurnCost(c, n, turns(n), judges);
      KeysStand(c, n, turns(n));
      BudgetStep(max - n, |judges|);
      var step := TakeTurn(c, n, turns(n));
      if step.Again? {
        DebateCost(step.council, n + 1, max, turns, judges);
      }
    }
  }

  // ---- from the judges' reports to the end of the debate ----

  const SEATED: seq<Seat> := [Reviewer, Challenger, Scalability, Security, Performance, Maintainability]

  /** The seats of the run whose first report cannot be used. */
  function Unheard(order: seq<Seat>, reports: Reports, challenge: Option<Challenge>): seq<Absence> {
    if order == [] then []
    else
      var last := order[|order| - 1];
      var silent :=
        if last == Challenger then challenge.Some? && !challenge.value.usable
        else last in reports && !reports[last].usable;
      Unheard(order[..|order| - 1], reports, challenge) + if silent then [Judging(last)] else []
  }

  function Opening(proposal: string, reports: Reports, challenge: Option<Challenge>, ledger: Ledger): Council {
    var objections := Failing(JUDGES, reports) + Challenged(challenge);
    Council(proposal, proposal, reports, objections, objections == [], 0, Unheard(SEATED, reports, challenge), ledger)
  }

  /** How many turns the objections deserve. */
  function Ceiling(reports: Reports, challenge: Option<Challenge>): nat {
    var base := if Security in reports && reports[Security].Objects() then 4 else 3;
    var more := if challenge.Some? && challenge.value.usable && challenge.value.severity > 0.8 then 1 else 0;
    if base + more > 5 then 5 else base + more
  }

  function Least(a: nat, b: nat): nat {
    if a <= b then a else b
  }

  /** The tier's contract bounds the debate first, the run's review cycles second. */
  function MaxTurns(contract: Contract, cycles: nat, lowResource: bool, c: Council, challenge: Option<Challenge>): nat {
    if c.objections == [] || contract.maxDebateTurns == 0 || lowResource then 0
    else
      Least(Least(contract.maxDebateTurns, cycles),
            if contract.HasCritics() then Ceiling(c.reports, challenge) else 1)
  }

  function Held(contract: Contract, cycles: nat, lowResource: bool, c: Council, challenge: Option<Challenge>,
                turns: nat -> Turn): Council
  {
    var max := MaxTurns(contract, cycles, lowResource, c, challenge);
    if max > 0 then Debated(c, 1, max, turns) else c
  }

  /** The council has converged exactly when no judge's latest report objects and the challenger, if it
      objected, has been answered by a revision that was heard.  Passing judges and abstaining ones keep
      their first report; the turns and the revisions stay within the contract and the review cycles. */
  lemma ConvergedIff(contract: Contract, cycles: nat, lowResource: bool, proposal: string, reports: Reports,
                     challenge: Option<Challenge>, ledger: Ledger, turns: nat -> Turn)
    requires forall s :: s in reports ==> s in JUDGES
    ensures var c := Opening(proposal, reports, challenge, ledger);
            var max := MaxTurns(contract, cycles, lowResource, c, challenge);
            var d := Held(contract, cycles, lowResource, c, challenge, turns);
            && (d.converged <==> d.objections == [])
            && (d.converged <==>
                AllContent(d.reports) && (Challenged(challenge) == [] || (max > 0 && Heard(c, turns(1)))))
            && Standing(reports, d.reports)
            && d.turns <= max <= contract.maxDebateTurns && max <= cycles && max <= 5
            && Revisions(d.ledger) <= Revisions(ledger) + max
  {
    hide Failing, Debated, Heard, Standing, Revisions, Unheard, AllContent, Deliberations, Samples;
    var c := Opening(proposal, reports, challenge, ledger);
    var max := MaxTurns(contract, cycles, lowResource, c, challenge);
    var d := Held(contract, cycles, lowResource, c, challenge, turns);
    NoneFailing(reports);
    NoneFailing(d.reports);
    StandingSame(reports);
    if max > 0 {
      DebateOutcome(c, 1, max, turns, Challenged(challenge) != []);
      DebateProposal(c, 1, max, turns);
      DebateStands(c, 1, max, turns);
      DebateCost(c, 1, max, turns, c.reports.Keys);
    }
  }

  /** The proposal that leaves the debate is the one that entered it or a revision that came back in one
      of the turns taken; when the debate was not cut off, the latest such revision. */
  lemma ProposalSource(contract: Contract, cycles: nat, lowResource: bool, proposal: string, reports: Reports,
                       challenge: Option<Challenge>, ledger: Ledger, turns: nat -> Turn)
    ensures var c := Opening(proposal, reports, challenge, ledger);
            var max := MaxTurns(contract, cycles, lowResource, c, challenge);
            var d := Held(contract, cycles, lowResource, c, challenge, turns);
            d.proposal == if WasCut(c, 1, max, turns) then proposal else LastReturned(proposal, 1, d.turns, turns)
    ensures var c := Opening(proposal, reports, challenge, ledger);
            var d := Held(contract, cycles, lowResource, c, challenge, turns);
            d.proposal == proposal
            || exists k :: 1 <= k <= d.turns && CameBack(turns(k)) && d.proposal == turns(k).revision.text
  {
    hide Failing, Unheard, TakeTurn;
    var c := Opening(proposal, reports, challenge, ledger);
    var max := MaxTurns(contract, cycles, lowResource, c, challenge);
    var d := Held(contract, cycles, lowResource, c, challenge, turns);
    if max > 0 {
      DebateProposal(c, 1, max, turns);
    }
    LastReturnedIs(proposal, 1, d.turns, turns);
  }

  lemma {:induction false} LastReturnedIs(otherwise: string, n: nat, last: nat, turns: nat -> Turn)
    ensures LastReturned(otherwise, n, last, turns) == otherwise
         || exists k :: n <= k <= last && CameBack(turns(k))
                        && LastReturned(otherwise, n, last, turns) == turns(k).revision.text
  {
    if last > n {
      LastReturnedIs(otherwise, n, last - 1, turns);
    }
  }

  /** The challenger's objection is dropped without asking the challenger: here a severity of 0.9 is
      outstanding, one revision comes back, nobody else objects, and the council has converged. */
  lemma ChallengerNotAskedAgain()
    ensures var reports := map[Reviewer := Verdict(true, true, 0.9)];
            var c := Opening("a", reports, Some(Challenge(true, 0.9)), []);
            var turns: nat -> Turn := _ => Turn(false, Opened(0), Returned("b"), [], false, map[]);
            var d := Held(ContractFor(Full), 2, false, c, Some(Challenge(true, 0.9)), turns);
            c.objections == [Challenger] && d.converged && d.proposal == "b" && d.turns == 1
  {
    var reports := map[Reviewer := Verdict(true, true, 0.9)];
    assert AllContent(reports);
    NoneFailing(reports);
  }
}
