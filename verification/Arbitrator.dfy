/**
 The arbiter of a council run (velune/cognition/arbitrator.py): judges that abstained are left out
 of every computation and reported as missing, confidence is capped by how much of the review is
 missing, and a human is asked whenever a real objection or a missing reviewer leaves doubt.
 */
module Arbitrator {
  import opened Optional
  import C = Consensus

  datatype ReviewerReport = ReviewerReport(usable: bool, passed: bool, issues: seq<string>, confidence: real)
  datatype ChallengerReport = ChallengerReport(usable: bool, vectors: seq<string>, severity: real)
  datatype CriticReport = CriticReport(usable: bool, passed: bool, issues: seq<string>, score: real)

  const CRITICS: seq<string> := ["scalability", "security", "performance", "maintainability"]
  const LABELS: seq<string> := ["Scalability", "Security", "Performance", "Maintainability"]

  const UNAVAILABLE_CAP := 0.60
  const MAJORITY_CAP := 0.40
  const NO_REVIEW_CAP := 0.30

  /** What the arbiter is given; a seat that is not part of the run has no report. */
  datatype Case = Case(
    reviewer: Option<ReviewerReport>,
    challenger: Option<ChallengerReport>,
    critics: seq<Option<CriticReport>>,
    shi: Option<real>,
    unavailableSeats: seq<string>,
    accuracy: real)

  datatype Ruling = Ruling(
    review: bool, claims: seq<string>, confidence: real, flags: seq<string>, instructions: string)

  predicate WellFormed(c: Case) {
    |c.critics| == |CRITICS|
  }

  // ---- who is missing ----

  function Judge(c: Case, k: nat): (name: string)
    requires WellFormed(c) && k < 6
  {
    if k == 0 then "reviewer" else if k == 1 then "challenger" else CRITICS[k - 2]
  }

  predicate Present(c: Case, k: nat)
    requires WellFormed(c) && k < 6
  {
    if k == 0 then c.reviewer.Some? else if k == 1 then c.challenger.Some? else c.critics[k - 2].Some?
  }

  predicate Abstained(c: Case, k: nat)
    requires WellFormed(c) && k < 6
  {
    if k == 0 then c.reviewer.Some? && !c.reviewer.value.usable
    else if k == 1 then c.challenger.Some? && !c.challenger.value.usable
    else c.critics[k - 2].Some? && !c.critics[k - 2].value.usable
  }

  function CountPresent(c: Case, upto: nat): nat
    requires WellFormed(c) && upto <= 6
  {
    if upto == 0 then 0 else CountPresent(c, upto - 1) + if Present(c, upto - 1) then 1 else 0
  }

  function AbstainedNames(c: Case, upto: nat): seq<string>
    requires WellFormed(c) && upto <= 6
  {
    if upto == 0 then []
    else AbstainedNames(c, upto - 1) + if Abstained(c, upto - 1) then [Judge(c, upto - 1)] else []
  }

  function AddNew(names: seq<string>, more: seq<string>): (r: seq<string>)
    ensures forall n :: n in r <==> n in names || n in more
    ensures names <= r
    decreases |more|
  {
    if more == [] then names
    else AddNew(if more[0] in names then names else names + [more[0]], more[1..])
  }

  function Unavailable(c: Case): seq<string>
    requires WellFormed(c)
  {
    AddNew(AbstainedNames(c, 6), c.unavailableSeats)
  }

  /** The seat behind a name such as "security(re-review)". */
  function Base(name: string): string {
    if name == "" || name[0] == '(' then "" else [name[0]] + Base(name[1..])
  }

  function Bases(names: seq<string>): set<string> {
    set n | n in names :: Base(n)
  }

  function Max(a: nat, b: nat): nat {
    if a >= b then a else b
  }

  function Expected(c: Case): nat
    requires WellFormed(c)
  {
    Max(CountPresent(c, 6), |Bases(Unavailable(c))|)
  }

  /** The reviewer, or at least half of the judges, delivered nothing. */
  predicate MajorityMissing(bases: set<string>, expected: nat) {
    "reviewer" in bases || |bases| * 2 >= expected
  }

  function Cap(bases: set<string>, expected: nat): real {
    if |bases| >= expected then NO_REVIEW_CAP
    else if MajorityMissing(bases, expected) then MAJORITY_CAP
    else UNAVAILABLE_CAP
  }

  // ---- what the others said ----

  function UsableReviewer(c: Case): Option<ReviewerReport> {
    if c.reviewer.Some? && c.reviewer.value.usable then c.reviewer else None
  }

  function UsableChallenger(c: Case): Option<ChallengerReport> {
    if c.challenger.Some? && c.challenger.value.usable then c.challenger else None
  }

  /** Labelled reports of the critics that delivered a verdict, in seat order. */
  function UsableCritics(c: Case, upto: nat): (r: seq<(string, CriticReport)>)
    requires WellFormed(c) && upto <= |CRITICS|
    ensures forall p :: p in r ==> p.1.usable
  {
    if upto == 0 then []
    else
      UsableCritics(c, upto - 1)
      + (if c.critics[upto - 1].Some? && c.critics[upto - 1].value.usable
         then [(LABELS[upto - 1], c.critics[upto - 1].value)] else [])
  }

  function ReviewerIssues(c: Case): seq<string> {
    match UsableReviewer(c)
    case Some(r) => r.issues
    case None => ["Reviewer unavailable"]
  }

  function Vectors(c: Case): seq<string> {
    match UsableChallenger(c)
    case Some(r) => r.vectors
    case None => []
  }

  function Severity(c: Case): real {
    match UsableChallenger(c)
    case Some(r) => r.severity
    case None => 0.0
  }

  function Failed(critics: seq<(string, CriticReport)>): seq<string> {
    if critics == [] then []
    else
      Failed(critics[..|critics| - 1])
      + (if critics[|critics| - 1].1.passed then [] else [critics[|critics| - 1].0])
  }

  function Prefixed(prefix: string, items: seq<string>): (r: seq<string>)
    ensures |r| == |items|
  {
    seq(|items|, k requires 0 <= k < |items| => prefix + items[k])
  }

  function CriticIssues(critics: seq<(string, CriticReport)>): seq<string> {
    if critics == [] then []
    else
      CriticIssues(critics[..|critics| - 1])
      + Prefixed(critics[|critics| - 1].0 + " Critic: ", critics[|critics| - 1].1.issues)
  }

  function CriticVerdicts(critics: seq<(string, CriticReport)>): (r: seq<C.Verdict>)
    ensures |r| == |critics|
  {
    seq(|critics|, k requires 0 <= k < |critics| => C.Verdict(true, critics[k].1.score, critics[k].1.passed))
  }

  function ReviewerVerdict(c: Case): C.Verdict {
    match UsableReviewer(c)
    case Some(r) => C.Verdict(true, r.confidence, r.passed)
    case None => C.Verdict(false, 0.5, true)
  }

  /** The measured signals: of the usable verdicts and of nothing else. */
  function SignalsOf(c: Case): C.Signals
    requires WellFormed(c)
  {
    var seen := C.Usable([ReviewerVerdict(c)] + CriticVerdicts(UsableCritics(c, 4)));
    C.SignalsOf(C.Scores(seen), C.Flags(seen), Severity(c))
  }

  /** Confidence before any cap for missing judges. */
  function Overall(c: Case, rounded: real -> real): real
    requires WellFormed(c)
  {
    rounded(C.Confidence(SignalsOf(c), c.accuracy))
  }

  predicate Critical(c: Case)
    requires WellFormed(c)
  {
    || ReviewerIssues(c) != []
    || (Severity(c) > 0.7 && Vectors(c) != [])
    || Failed(UsableCritics(c, 4)) != []
  }

  predicate AllPassed(c: Case)
    requires WellFormed(c)
  {
    (UsableReviewer(c).Some? ==> UsableReviewer(c).value.passed) && Failed(UsableCritics(c, 4)) == []
  }

  /** The confidence a change must reach, stricter where the subsystem is in poor health. */
  function Threshold(shi: Option<real>): real {
    if shi.Some? && shi.value < 0.6 then 0.75
    else if shi.Some? && shi.value < 0.8 then 0.65
    else 0.55
  }

  // ---- the ruling ----

  function Review(c: Case, rounded: real -> real): bool
    requires WellFormed(c)
  {
    || Critical(c)
    || Overall(c, rounded) < Threshold(c.shi)
    || (Unavailable(c) != [] && MajorityMissing(Bases(Unavailable(c)), Expected(c)))
  }

  function Confidence(c: Case, rounded: real -> real): real
    requires WellFormed(c)
  {
    if Unavailable(c) == [] then Overall(c, rounded)
    else C.Min(Overall(c, rounded), Cap(Bases(Unavailable(c)), Expected(c)))
  }

  function NarrativeFlags(c: Case): seq<string>
    requires WellFormed(c)
  {
    if AllPassed(c) && Severity(c) < 0.3 then []
    else if !AllPassed(c) && Severity(c) > 0.6 then ["CRITICAL_BUGS_DETECTED"]
    else ["CONTRADICTION_DETECTED"]
  }

  function Flags(c: Case): seq<string>
    requires WellFormed(c)
  {
    if Unavailable(c) == [] then NarrativeFlags(c)
    else NarrativeFlags(c) + Prefixed("JUDGE_UNAVAILABLE:", Unavailable(c))
         + (if |Bases(Unavailable(c))| >= Expected(c) then ["NO_REVIEW"] else [])
  }

  function Claims(c: Case): seq<string>
    requires WellFormed(c)
  {
    if AllPassed(c) && Severity(c) < 0.3 then
      ["Coder solution is syntactically sound and logical."]
      + (if UsableCritics(c, 4) == [] then []
         else if Unavailable(c) != [] then ["Available specialized critics approved the proposed implementation."]
         else ["All specialized critics approved the proposed implementation."])
    else if !AllPassed(c) && Severity(c) > 0.6 then
      ["Coder proposal contains bugs and architectural violations."]
    else ["Proposed edits are partially sound but require refactoring."]
  }

  function Lines(prefix: string, items: seq<string>): string {
    if items == [] then "" else Lines(prefix, items[..|items| - 1]) + prefix + items[|items| - 1] + "\n"
  }

  function Instructions(c: Case): string
    requires WellFormed(c)
  {
    var criticIssues := CriticIssues(UsableCritics(c, 4));
    "Consolidate the code patch and resolve the following:\n"
    + Lines("- Fix Reviewer critical issue: ", ReviewerIssues(c))
    + Lines("- Mitigate Challenger failure vector: ", Vectors(c))
    + Lines("- Resolve Critic issue: ", criticIssues)
    + (if ReviewerIssues(c) == [] && Vectors(c) == [] && criticIssues == []
       then "- The solution was fully approved. Prepare clean summary of accomplishments." else "")
  }

  // ---- what a ruling means ----

  /** No human is asked only when a usable reviewer raised no issue, no usable critic failed, the
      challenger brought no severe failure, the confidence before any cap reached the threshold and
      strictly fewer than half of the judges are missing. */
  lemma NoReviewMeans(c: Case, rounded: real -> real)
    requires WellFormed(c)
    ensures !Review(c, rounded) <==>
              && UsableReviewer(c).Some? && UsableReviewer(c).value.issues == []
              && (forall p :: p in UsableCritics(c, 4) ==> p.1.passed)
              && (Severity(c) <= 0.7 || Vectors(c) == [])
              && Overall(c, rounded) >= Threshold(c.shi)
              && "reviewer" !in Bases(Unavailable(c)) && 2 * |Bases(Unavailable(c))| < Expected(c)
  {
    FailedNone(UsableCritics(c, 4));
    hide Overall, Threshold, UsableCritics, Failed;
    if Unavailable(c) == [] {
      assert Bases(Unavailable(c)) == {};
      if c.reviewer.Some? {
        SeatCounted(c, 0);
      }
    }
  }

  lemma {:induction false} FailedNone(critics: seq<(string, CriticReport)>)
    ensures Failed(critics) == [] <==> forall p :: p in critics ==> p.1.passed
  {
    if critics != [] {
      var n := |critics| - 1;
      assert critics == critics[..n] + [critics[n]];
      FailedNone(critics[..n]);
    }
  }

  lemma SeatCounted(c: Case, k: nat)
    requires WellFormed(c) && k < 6 && Present(c, k)
    ensures CountPresent(c, 6) >= 1
  {
    CountGrows(c, k + 1, 6);
  }

  lemma {:induction false} CountGrows(c: Case, k: nat, upto: nat)
    requires WellFormed(c) && k <= upto <= 6
    ensures CountPresent(c, k) <= CountPresent(c, upto)
    decreases upto
  {
    if k < upto {
      CountGrows(c, k, upto - 1);
    }
  }

  /** The more seats are missing, the lower the cap, for a fixed number of reports in the run. */
  lemma CapNeverRises(few: set<string>, many: set<string>, reports: nat)
    requires few <= many
    ensures Cap(many, Max(reports, |many|)) <= Cap(few, Max(reports, |few|))
  {
    assert many == few + (many - few);
    assert |few| <= |many|;
  }

  /** Confidence after the cap can lie below the threshold without a human being asked: exactly when
      a seat is missing and the subsystem's threshold is above the cap for any missing seat. */
  lemma BelowThresholdWithoutReview(c: Case, rounded: real -> real)
    requires WellFormed(c) && !Review(c, rounded)
    ensures Confidence(c, rounded) < Threshold(c.shi) <==>
              Unavailable(c) != [] && c.shi.Some? && c.shi.value < 0.8
  {
    NoReviewMeans(c, rounded);
  }

  /** A missing judge is never an approval: it costs confidence, and a missing reviewer, half of the
      judges or all of them also cost the automatic pass. */
  lemma MissingIsNoApproval(c: Case, rounded: real -> real)
    requires WellFormed(c) && Unavailable(c) != []
    ensures Confidence(c, rounded) <= 0.60
    ensures MajorityMissing(Bases(Unavailable(c)), Expected(c)) ==> Review(c, rounded) && Confidence(c, rounded) <= 0.40
    ensures |Bases(Unavailable(c))| >= Expected(c) ==> Review(c, rounded) && Confidence(c, rounded) <= 0.30
  {
    hide Overall, Unavailable;
  }

  /** The case with everything an abstaining judge may have written replaced by nothing. */
  function Silenced(c: Case): Case {
    c.(reviewer := if c.reviewer.Some? && !c.reviewer.value.usable
                   then Some(ReviewerReport(false, false, [], 0.0)) else c.reviewer,
       challenger := if c.challenger.Some? && !c.challenger.value.usable
                     then Some(ChallengerReport(false, [], 0.0)) else c.challenger,
       critics := seq(|c.critics|, k requires 0 <= k < |c.critics| =>
                    if c.critics[k].Some? && !c.critics[k].value.usable
                    then Some(CriticReport(false, false, [], 0.0)) else c.critics[k]))
  }

  /** Nothing an abstaining judge wrote reaches the ruling. */
  lemma AbstainersAreSilent(c: Case, rounded: real -> real)
    requires WellFormed(c)
    ensures WellFormed(Silenced(c))
    ensures Review(Silenced(c), rounded) == Review(c, rounded)
    ensures Confidence(Silenced(c), rounded) == Confidence(c, rounded)
    ensures Flags(Silenced(c)) == Flags(c) && Claims(Silenced(c)) == Claims(c)
    ensures Instructions(Silenced(c)) == Instructions(c)
  {
    SilencedSeats(c, 6);
    SilencedCritics(c, 4);
    var d := Silenced(c);
    assert UsableReviewer(d) == UsableReviewer(c) && UsableChallenger(d) == UsableChallenger(c);
    SameSignals(c, d);
    SameNumbers(c, d, rounded);
    SameWords(c, d);
  }

  lemma SameSignals(c: Case, d: Case)
    requires WellFormed(c) && WellFormed(d)
    requires UsableReviewer(c) == UsableReviewer(d) && UsableChallenger(c) == UsableChallenger(d)
    requires UsableCritics(c, 4) == UsableCritics(d, 4)
    ensures SignalsOf(c) == SignalsOf(d)
  {
    hide UsableReviewer, UsableChallenger, UsableCritics, C.Usable, CriticVerdicts, C.SignalsOf;
  }

  ghost predicate Alike(c: Case, d: Case) {
    && WellFormed(c) && WellFormed(d)
    && UsableReviewer(c) == UsableReviewer(d) && UsableChallenger(c) == UsableChallenger(d)
    && UsableCritics(c, 4) == UsableCritics(d, 4)
    && Unavailable(c) == Unavailable(d) && CountPresent(c, 6) == CountPresent(d, 6)
    && c.shi == d.shi && c.accuracy == d.accuracy
  }

  lemma SameNumbers(c: Case, d: Case, rounded: real -> real)
    requires Alike(c, d) && SignalsOf(c) == SignalsOf(d)
    ensures Review(d, rounded) == Review(c, rounded) && Confidence(d, rounded) == Confidence(c, rounded)
  {
    hide UsableReviewer, UsableChallenger, UsableCritics, SignalsOf, Unavailable, CountPresent, Bases,
         MajorityMissing, Cap, Threshold, Failed, C.Confidence;
  }

  lemma SameWords(c: Case, d: Case)
    requires Alike(c, d)
    ensures Flags(d) == Flags(c) && Claims(d) == Claims(c) && Instructions(d) == Instructions(c)
  {
    hide Flags, Claims, Instructions, Alike, ReviewerIssues, Vectors;
    SameReadings(c, d);
    SameFlags(c, d);
    SameClaims(c, d);
    SameInstructions(c, d);
  }

  lemma SameReadings(c: Case, d: Case)
    requires Alike(c, d)
    ensures WellFormed(c) && WellFormed(d) && UsableCritics(c, 4) == UsableCritics(d, 4)
    ensures ReviewerIssues(c) == ReviewerIssues(d) && Vectors(c) == Vectors(d)
  {
    hide UsableCritics, Unavailable, CountPresent;
  }

  lemma SameFlags(c: Case, d: Case)
    requires Alike(c, d)
    ensures Flags(d) == Flags(c)
  {
    assert Severity(c) == Severity(d) && AllPassed(c) == AllPassed(d) && Expected(c) == Expected(d);
    hide Severity, AllPassed, UsableReviewer, UsableChallenger, UsableCritics, Unavailable, CountPresent, Bases, Failed,
         Prefixed, Expected;
  }

  lemma SameClaims(c: Case, d: Case)
    requires Alike(c, d)
    ensures Claims(d) == Claims(c)
  {
    assert Severity(c) == Severity(d) && AllPassed(c) == AllPassed(d);
    hide Severity, AllPassed, UsableReviewer, UsableChallenger, UsableCritics, Unavailable, CountPresent, Bases, Failed;
  }

  lemma SameInstructions(c: Case, d: Case)
    requires WellFormed(c) && WellFormed(d) && UsableCritics(c, 4) == UsableCritics(d, 4)
    requires ReviewerIssues(c) == ReviewerIssues(d) && Vectors(c) == Vectors(d)
    ensures Instructions(d) == Instructions(c)
  {
    hide ReviewerIssues, Vectors, UsableCritics, CriticIssues, Lines;
  }

  lemma {:induction false} SilencedSeats(c: Case, upto: nat)
    requires WellFormed(c) && upto <= 6
    ensures CountPresent(Silenced(c), upto) == CountPresent(c, upto)
    ensures AbstainedNames(Silenced(c), upto) == AbstainedNames(c, upto)
  {
    if upto > 0 {
      SilencedSeats(c, upto - 1);
    }
  }

  lemma {:induction false} SilencedCritics(c: Case, upto: nat)
    requires WellFormed(c) && upto <= 4
    ensures UsableCritics(Silenced(c), upto) == UsableCritics(c, upto)
  {
    if upto > 0 {
      SilencedCritics(c, upto - 1);
    }
  }

  /** Everybody passes at score one but the challenger, who is missing. */
  const CHALLENGER_MISSING: Case :=
    var pass := CriticReport(true, true, [], 1.0);
    Case(Some(ReviewerReport(true, true, [], 1.0)), Some(ChallengerReport(false, [], 0.0)),
         [Some(pass), Some(pass), Some(pass), Some(pass)], Some(0.5), [], 0.85)

  lemma ChallengerMissingSignals()
    ensures WellFormed(CHALLENGER_MISSING)
    ensures C.Confidence(SignalsOf(CHALLENGER_MISSING), 0.85) == 0.9625
  {
    MissingCritics();
    var c := CHALLENGER_MISSING;
    hide UsableCritics, C.Confidence;
    var verdicts := [ReviewerVerdict(c)] + CriticVerdicts(UsableCritics(c, 4));
    AllUsable(verdicts);
    C.ConfidenceCeiling(C.Scores(verdicts), C.Flags(verdicts), 0.0, 0.85);
  }

  lemma {:induction false} AllUsable(vs: seq<C.Verdict>)
    requires forall v :: v in vs ==> v.usable
    ensures C.Usable(vs) == vs
  {
    if vs != [] {
      assert vs == [vs[0]] + vs[1..];
      AllUsable(vs[1..]);
    }
  }

  /** `round(x, 3)`: a nearest whole number of thousandths. */
  ghost predicate ToThousandths(rounded: real -> real) {
    forall x :: (rounded(x) * 1000.0).Floor as real == rounded(x) * 1000.0 && x - 0.0005 <= rounded(x) <= x + 0.0005
  }

  /** Rounding halves upwards is such a rounding. */
  function HalvesUp(x: real): real {
    (x * 1000.0 + 0.5).Floor as real / 1000.0
  }

  lemma HalvesUpRounds()
    ensures ToThousandths(HalvesUp)
  {
    forall x: real
      ensures (HalvesUp(x) * 1000.0).Floor as real == HalvesUp(x) * 1000.0
      ensures x - 0.0005 <= HalvesUp(x) <= x + 0.0005
    {
      assert HalvesUp(x) * 1000.0 == (x * 1000.0 + 0.5).Floor as real;
    }
  }

  lemma RoundedNear(rounded: real -> real, x: real)
    requires ToThousandths(rounded)
    ensures x - 0.0005 <= rounded(x) <= x + 0.0005
  {
  }

  /** The unanimous review with one judge missing: confidence ends at 0.60 under a threshold of 0.75,
      and nobody is asked. */
  lemma BelowThresholdExample(rounded: real -> real)
    requires ToThousandths(rounded)
    ensures WellFormed(CHALLENGER_MISSING) && !Review(CHALLENGER_MISSING, rounded)
    ensures Confidence(CHALLENGER_MISSING, rounded) == 0.60 < Threshold(CHALLENGER_MISSING.shi) == 0.75
  {
    hide ToThousandths, Overall, UsableCritics, C.Confidence, Unavailable, CountPresent, SignalsOf, Failed, Bases;
    ChallengerMissingOverall(rounded);
    ChallengerMissingSeats();
  }

  lemma ChallengerMissingOverall(rounded: real -> real)
    requires ToThousandths(rounded)
    ensures WellFormed(CHALLENGER_MISSING) && 0.962 <= Overall(CHALLENGER_MISSING, rounded) <= 0.963
  {
    hide ToThousandths, C.Confidence, SignalsOf, WellFormed;
    RoundedNear(rounded, 0.9625);
    ChallengerMissingSignals();
  }

  lemma ChallengerMissingSeats()
    ensures var c := CHALLENGER_MISSING;
            && Unavailable(c) == ["challenger"] && CountPresent(c, 6) == 6
            && Bases(Unavailable(c)) == {Base("challenger")} && Base("challenger") != "reviewer"
            && Failed(UsableCritics(c, 4)) == []
  {
    var c := CHALLENGER_MISSING;
    hide AbstainedNames, CountPresent, Failed, UsableCritics, AddNew, Bases, Base;
    ChallengerAbstains();
    AddNothing(["challenger"]);
    OneBase("challenger");
    BaseStarts("challenger");
    AllPresent();
    CriticsPass();
  }

  lemma OneBase(name: string)
    ensures Bases([name]) == {Base(name)}
  {
  }

  lemma BaseStarts(name: string)
    requires name != "" && name[0] != '('
    ensures Base(name) != "" && Base(name)[0] == name[0]
  {
  }

  lemma CriticsPass()
    ensures Failed(UsableCritics(CHALLENGER_MISSING, 4)) == []
  {
    hide UsableCritics;
    MissingCritics();
    FailedNone(UsableCritics(CHALLENGER_MISSING, 4));
  }

  lemma ChallengerAbstains()
    ensures AbstainedNames(CHALLENGER_MISSING, 6) == ["challenger"]
  {
    assert AbstainedNames(CHALLENGER_MISSING, 2) == ["challenger"];
    assert AbstainedNames(CHALLENGER_MISSING, 4) == ["challenger"];
  }

  lemma AllPresent()
    ensures CountPresent(CHALLENGER_MISSING, 6) == 6
  {
    assert CountPresent(CHALLENGER_MISSING, 3) == 3;
  }

  lemma MissingCritics()
    ensures var pass := CriticReport(true, true, [], 1.0);
            UsableCritics(CHALLENGER_MISSING, 4)
              == [("Scalability", pass), ("Security", pass), ("Performance", pass), ("Maintainability", pass)]
  {
    var pass := CriticReport(true, true, [], 1.0);
    assert UsableCritics(CHALLENGER_MISSING, 2) == [("Scalability", pass), ("Security", pass)];
  }

  method CheckSeats(c: Case) returns (names: seq<string>, present: nat)
    requires WellFormed(c)
    ensures names == AbstainedNames(c, 6) && present == CountPresent(c, 6)
  {
    hide Present, Abstained, Judge;
    names, present := [], 0;
    for k := 0 to 6
      invariant names == AbstainedNames(c, k) && present == CountPresent(c, k)
    {
      if Present(c, k) {
        present := present + 1;
      }
      if Abstained(c, k) {
        names := names + [Judge(c, k)];
      }
    }
  }

  lemma AddNewStep(names: seq<string>, more: seq<string>)
    requires more != []
    ensures AddNew(names, more) == AddNew(if more[0] in names then names else names + [more[0]], more[1..])
  {
  }

  lemma AddNothing(names: seq<string>)
    ensures AddNew(names, []) == names
  {
  }

  method FindUnavailable(c: Case) returns (names: seq<string>, present: nat)
    requires WellFormed(c)
    ensures names == Unavailable(c) && present == CountPresent(c, 6)
  {
    hide AbstainedNames, CountPresent, AddNew;
    names, present := CheckSeats(c);
    for k := 0 to |c.unavailableSeats|
      invariant AddNew(names, c.unavailableSeats[k..]) == Unavailable(c)
    {
      AddNewStep(names, c.unavailableSeats[k..]);
      assert c.unavailableSeats[k..][1..] == c.unavailableSeats[k + 1..];
      if c.unavailableSeats[k] !in names {
        names := names + [c.unavailableSeats[k]];
      }
    }
    AddNothing(names);
  }

  method PrefixEach(prefix: string, items: seq<string>) returns (r: seq<string>)
    ensures r == Prefixed(prefix, items)
  {
    r := [];
    for k := 0 to |items|
      invariant r == Prefixed(prefix, items)[..k]
    {
      r := r + [prefix + items[k]];
    }
  }

  lemma OneMoreCritic(critics: seq<(string, CriticReport)>, title: string, report: CriticReport)
    ensures Failed(critics + [(title, report)]) == Failed(critics) + (if report.passed then [] else [title])
    ensures CriticIssues(critics + [(title, report)])
         == CriticIssues(critics) + Prefixed(title + " Critic: ", report.issues)
  {
    assert (critics + [(title, report)])[..|critics|] == critics;
  }

  method ReadCritics(c: Case) returns (critics: seq<(string, CriticReport)>, failed: seq<string>, issues: seq<string>)
    requires WellFormed(c)
    ensures critics == UsableCritics(c, 4) && failed == Failed(critics) && issues == CriticIssues(critics)
  {
    critics, failed, issues := [], [], [];
    for k := 0 to 4
      invariant critics == UsableCritics(c, k) && failed == Failed(critics) && issues == CriticIssues(critics)
    {
      hide Failed, CriticIssues, Prefixed;
      if c.critics[k].Some? && c.critics[k].value.usable {
        var report := c.critics[k].value;
        OneMoreCritic(critics, LABELS[k], report);
        critics := critics + [(LABELS[k], report)];
        if !report.passed {
          failed := failed + [LABELS[k]];
        }
        var more := PrefixEach(LABELS[k] + " Critic: ", report.issues);
        issues := issues + more;
      }
    }
  }

  method WriteLines(prefix: string, items: seq<string>) returns (text: string)
    ensures text == Lines(prefix, items)
  {
    text := "";
    for k := 0 to |items|
      invariant text == Lines(prefix, items[..k])
    {
      assert items[..k + 1][..k] == items[..k];
      text := text + prefix + items[k] + "\n";
    }
    assert items[..|items|] == items;
  }

  /** The verdict in words: claims and the flag that goes with them. */
  method Narrate(c: Case, allPassed: bool, severity: real, anyCritic: bool, anyMissing: bool)
    returns (claims: seq<string>, flags: seq<string>)
    requires WellFormed(c)
    requires allPassed == AllPassed(c) && severity == Severity(c)
    requires anyCritic == (UsableCritics(c, 4) != []) && anyMissing == (Unavailable(c) != [])
    ensures claims == Claims(c) && flags == NarrativeFlags(c)
  {
    hide AllPassed, Severity, UsableCritics, Unavailable;
    claims, flags := [], [];
    if allPassed && severity < 0.3 {
      claims := ["Coder solution is syntactically sound and logical."];
      if anyCritic {
        claims := claims + [if anyMissing
                            then "Available specialized critics approved the proposed implementation."
                            else "All specialized critics approved the proposed implementation."];
      }
    } else if !allPassed && severity > 0.6 {
      flags, claims := ["CRITICAL_BUGS_DETECTED"], ["Coder proposal contains bugs and architectural violations."];
    } else {
      flags, claims := ["CONTRADICTION_DETECTED"], ["Proposed edits are partially sound but require refactoring."];
    }
  }

  method ChooseThreshold(shi: Option<real>) returns (threshold: real)
    ensures threshold == Threshold(shi)
  {
    threshold := 0.55;
    if shi.Some? {
      if shi.value < 0.6 {
        threshold := 0.75;
      } else if shi.value < 0.8 {
        threshold := 0.65;
      }
    }
  }

  /** The cap for missing judges, and whether so many are missing that a human must look. */
  method CapFor(bases: set<string>, expected: nat) returns (cap: real, doubt: bool, none: bool)
    ensures cap == Cap(bases, expected) && doubt == MajorityMissing(bases, expected) && none == (|bases| >= expected)
  {
    cap, doubt, none := UNAVAILABLE_CAP, false, false;
    if "reviewer" in bases || |bases| * 2 >= expected {
      cap := C.Min(cap, MAJORITY_CAP);
      doubt := true;
    }
    if |bases| >= expected {
      cap := C.Min(cap, NO_REVIEW_CAP);
      doubt := true;
      none := true;
    }
  }

  method Instruct(c: Case, criticIssues: seq<string>) returns (text: string)
    requires WellFormed(c) && criticIssues == CriticIssues(UsableCritics(c, 4))
    ensures text == Instructions(c)
  {
    hide Lines, ReviewerIssues, Vectors, CriticIssues, UsableCritics;
    var fixes := WriteLines("- Fix Reviewer critical issue: ", ReviewerIssues(c));
    var threats := WriteLines("- Mitigate Challenger failure vector: ", Vectors(c));
    var repairs := WriteLines("- Resolve Critic issue: ", criticIssues);
    text := "Consolidate the code patch and resolve the following:\n" + fixes + threats + repairs;
    if ReviewerIssues(c) == [] && Vectors(c) == [] && criticIssues == [] {
      text := text + "- The solution was fully approved. Prepare clean summary of accomplishments.";
    } else {
      text := text + "";
    }
  }

  method Arbitrate(c: Case, rounded: real -> real) returns (ruling: Ruling)
    requires WellFormed(c)
    ensures ruling.review == Review(c, rounded)
    ensures ruling.confidence == Confidence(c, rounded)
    ensures ruling.flags == Flags(c) && ruling.claims == Claims(c) && ruling.instructions == Instructions(c)
  {
    hide Unavailable, CountPresent, UsableCritics, Failed, CriticIssues, C.Confidence, CriticVerdicts, Cap, Threshold,
         MajorityMissing, Instructions, Claims, NarrativeFlags, Bases, C.Usable, C.SignalsOf, Prefixed;
    var unavailable, present := FindUnavailable(c);
    var bases := Bases(unavailable);
    var expected := Max(present, |bases|);
    var reviewerIssues, severity := ReviewerIssues(c), Severity(c);
    var reviewerPassed := UsableReviewer(c).Some? ==> UsableReviewer(c).value.passed;
    var critics, failed, criticIssues := ReadCritics(c);
    var signals := C.MeasureAgreement(ReviewerVerdict(c), CriticVerdicts(critics), true, severity);
    var overall := rounded(C.Confidence(signals, c.accuracy));
    var claims, flags := Narrate(c, reviewerPassed && failed == [], severity, critics != [], unavailable != []);
    var threshold := ChooseThreshold(c.shi);
    var critical := reviewerIssues != [] || (severity > 0.7 && Vectors(c) != []) || failed != [];
    var review, confidence := critical || overall < threshold, overall;
    if unavailable != [] {
      flags := flags + Prefixed("JUDGE_UNAVAILABLE:", unavailable);
      var cap, doubt, none := CapFor(bases, expected);
      review := review || doubt;
      if none {
        flags := flags + ["NO_REVIEW"];
      }
      confidence := C.Min(confidence, cap);
    }
    var instructions := Instruct(c, criticIssues);
    ruling := Ruling(review, claims, confidence, flags, instructions);
  }
}
