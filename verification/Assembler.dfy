/**
 Context assembly (velune/context/assembler.py, velune/context/sections.py): chunks are grouped by
 section, trimmed, rendered in canonical order and accounted for.
 */
module Assembler {
  import opened Optional
  import opened ContextTrim
  import opened Deduplicate
  import opened Snapshot
  import opened Text

  const ORDER: seq<Section> :=
    [SystemPrompt, CognitiveContinuity, ArchitecturalDrift, RepositorySnapshot, RetrievedContext, WorkingMemory,
     CurrentPrompt]

  const UNTRIMMED: set<Section> := {SystemPrompt, ArchitecturalDrift, CurrentPrompt}

  function Number(s: Section): nat {
    match s
    case SystemPrompt => 1
    case CognitiveContinuity => 2
    case ArchitecturalDrift => 3
    case RepositorySnapshot => 4
    case RetrievedContext => 5
    case WorkingMemory => 6
    case CurrentPrompt => 7
  }

  function Header(s: Section): string {
    match s
    case SystemPrompt => "--- SECTION: SYSTEM_PROMPT (1 of 7) ---"
    case CognitiveContinuity => "--- SECTION: COGNITIVE_CONTINUITY (2 of 7) ---"
    case ArchitecturalDrift => "--- SECTION: ARCHITECTURAL_DRIFT (3 of 7) ---"
    case RepositorySnapshot => "--- SECTION: REPOSITORY_SNAPSHOT (4 of 7) ---"
    case RetrievedContext => "--- SECTION: RETRIEVED_CONTEXT (5 of 7) ---"
    case WorkingMemory => "--- SECTION: WORKING_MEMORY (6 of 7) ---"
    case CurrentPrompt => "--- SECTION: CURRENT_PROMPT (7 of 7) ---"
  }

  datatype Budget = Budget(retrieval: int, workingMemory: int, usable: int)

  datatype Report = Report(
    received: nat,
    requested: int,
    assembled: nat,
    present: seq<Section>,
    trimmed: map<Section, int>,
    dropped: int,
    duplicates: int,
    exceeded: bool)

  type Sections = map<Section, seq<Chunk>>

  // ---- one section ----

  /** The chunks of a section, in the order they came. */
  function Of(section: Section, chunks: seq<Chunk>): seq<Chunk> {
    if chunks == [] then []
    else
      var before, last := Of(section, chunks[..|chunks| - 1]), chunks[|chunks| - 1];
      if last.section == section then before + [last] else before
  }

  /** What a section's trim is given: retrieved context is deduplicated first. */
  function Offered(section: Section, chunks: seq<Chunk>): seq<Chunk> {
    if section == RetrievedContext then Deduplicated(Of(section, chunks)) else Of(section, chunks)
  }

  function Processed(section: Section, own: seq<Chunk>, budget: Budget): seq<Chunk> {
    match section
    case RetrievedContext => TrimRetrieved(own, budget.retrieval)
    case WorkingMemory => TrimWorkingMemory(own, budget.workingMemory)
    case RepositorySnapshot => TrimSnapshot(own)
    case _ => own
  }

  function KeptOf(section: Section, chunks: seq<Chunk>, budget: Budget): seq<Chunk> {
    Processed(section, Offered(section, chunks), budget)
  }

  /** Tokens the report says were trimmed from a section. */
  function Lost(section: Section, chunks: seq<Chunk>, budget: Budget): int {
    if section == RetrievedContext || section == WorkingMemory
    then Total(Offered(section, chunks)) - Total(KeptOf(section, chunks, budget))
    else 0
  }

  // ---- all sections ----

  function Kept(chunks: seq<Chunk>, budget: Budget): Sections {
    map s: Section | KeptOf(s, chunks, budget) != [] :: KeptOf(s, chunks, budget)
  }

  function Present(order: seq<Section>, kept: Sections): seq<Section> {
    if order == [] then []
    else
      var before, last := Present(order[..|order| - 1], kept), order[|order| - 1];
      if last in kept then before + [last] else before
  }

  function CountOf(order: seq<Section>, kept: Sections): nat {
    if order == [] then 0
    else
      var last := order[|order| - 1];
      CountOf(order[..|order| - 1], kept) + if last in kept then |kept[last]| else 0
  }

  function TokensOf(order: seq<Section>, kept: Sections): nat {
    if order == [] then 0
    else
      var last := order[|order| - 1];
      TokensOf(order[..|order| - 1], kept) + if last in kept then Total(kept[last]) else 0
  }

  function Contents(s: seq<Chunk>): (r: seq<string>)
    ensures |r| == |s|
  {
    seq(|s|, i requires 0 <= i < |s| => s[i].content)
  }

  function RenderSection(section: Section, kept: seq<Chunk>): string {
    Header(section) + "\n" + Join("\n\n", Contents(kept)) + "\n" + "--- END SECTION ---"
  }

  function Renderings(order: seq<Section>, kept: Sections): seq<string> {
    if order == [] then []
    else
      var before, last := Renderings(order[..|order| - 1], kept), order[|order| - 1];
      if last in kept then before + [RenderSection(last, kept[last])] else before
  }

  function Context(kept: Sections): string {
    Join("\n\n", Renderings(ORDER, kept))
  }

  // ---- the assembly ----

  function Duplicates(chunks: seq<Chunk>): int {
    |Of(RetrievedContext, chunks)| - |Deduplicated(Of(RetrievedContext, chunks))|
  }

  /** The size that is checked: a model's count of the rendered text, or the chunks' own counts. */
  function Measured(kept: Sections, count: Option<string -> nat>): nat {
    if count.Some? then count.value(Context(kept)) else TokensOf(ORDER, kept)
  }

  predicate Exceeds(chunks: seq<Chunk>, budget: Budget, count: Option<string -> nat>) {
    Measured(Kept(chunks, budget), count) > budget.usable
  }

  /** What is sent: over budget, all retrieved context goes. */
  function Sent(chunks: seq<Chunk>, budget: Budget, count: Option<string -> nat>): Sections {
    if Exceeds(chunks, budget, count) then Kept(chunks, budget) - {RetrievedContext} else Kept(chunks, budget)
  }

  function ReportOf(chunks: seq<Chunk>, budget: Budget, count: Option<string -> nat>): Report {
    if chunks == [] then Report(0, budget.usable, 0, [], map[], 0, 0, false)
    else
      var sent := Sent(chunks, budget, count);
      Report(|chunks|, budget.usable, Measured(Kept(chunks, budget), count), Present(ORDER, sent),
             map s: Section | Lost(s, chunks, budget) > 0 :: Lost(s, chunks, budget),
             |chunks| - CountOf(ORDER, sent) - Duplicates(chunks), Duplicates(chunks),
             Exceeds(chunks, budget, count))
  }

  function TextOf(chunks: seq<Chunk>, budget: Budget, count: Option<string -> nat>): string {
    if chunks == [] then "" else Context(Sent(chunks, budget, count))
  }

  // ---- every chunk is accounted for ----

  lemma KeptSize(section: Section, chunks: seq<Chunk>, budget: Budget)
    ensures |KeptOf(section, chunks, budget)| <= |Offered(section, chunks)| <= |Of(section, chunks)|
  {
    hide TrimRetrieved, TrimWorkingMemory, TrimSnapshot, Deduplicated, Of;
    var own := Offered(section, chunks);
    TrimsKeep(own, budget.retrieval);
    TrimsKeep(own, budget.workingMemory);
    TrimSnapshotShrinks(own);
  }

  /** The chunks of the listed sections. */
  function SizeOf(order: seq<Section>, chunks: seq<Chunk>): nat {
    if order == [] then 0
    else SizeOf(order[..|order| - 1], chunks) + |Of(order[|order| - 1], chunks)|
  }

  lemma {:induction false} SizeOfPush(order: seq<Section>, chunks: seq<Chunk>, c: Chunk)
    requires forall p, q :: 0 <= p < q < |order| ==> order[p] != order[q]
    ensures SizeOf(order, chunks + [c]) == SizeOf(order, chunks) + if c.section in order then 1 else 0
  {
    if order != [] {
      var n := |order| - 1;
      assert order == order[..n] + [order[n]];
      SizeOfPush(order[..n], chunks, c);
      assert (chunks + [c])[..|chunks|] == chunks;
    }
  }

  lemma {:induction false} SizeOfAll(chunks: seq<Chunk>)
    ensures SizeOf(ORDER, chunks) == |chunks|
  {
    hide SizeOf;
    if chunks == [] {
      NoSize();
    } else {
      var n := |chunks| - 1;
      SizeOfAll(chunks[..n]);
      SizeOfPush(ORDER, chunks[..n], chunks[n]);
      assert chunks == chunks[..n] + [chunks[n]];
      InOrder(chunks[n].section);
    }
  }

  lemma InOrder(s: Section)
    ensures s in ORDER && ORDER[Number(s) - 1] == s
  {
  }

  lemma NoSize()
    ensures SizeOf(ORDER, []) == 0
  {
    assert forall n :: 0 <= n < |ORDER| ==> Of(ORDER[n], []) == [];
    SizeOfNone(ORDER);
  }

  lemma {:induction false} SizeOfNone(order: seq<Section>)
    ensures SizeOf(order, []) == 0
  {
    if order != [] {
      SizeOfNone(order[..|order| - 1]);
    }
  }

  /** What is kept of the listed sections is at most what came in, duplicates not counted. */
  lemma {:induction false} CountBound(order: seq<Section>, chunks: seq<Chunk>, budget: Budget, kept: Sections)
    requires forall s :: s in kept ==> kept[s] == KeptOf(s, chunks, budget)
    requires forall p, q :: 0 <= p < q < |order| ==> order[p] != order[q]
    ensures CountOf(order, kept) <= SizeOf(order, chunks) - if RetrievedContext in order then Duplicates(chunks) else 0
  {
    hide KeptOf, Of, Deduplicated;
    if order != [] {
      var n := |order| - 1;
      assert order == order[..n] + [order[n]];
      CountBound(order[..n], chunks, budget, kept);
      KeptSize(order[n], chunks, budget);
    }
  }

  /** Received chunks are those sent, those dropped and the duplicates collapsed, none of them negative; the
      emergency drop is no exception.  The reported trims are positive. */
  lemma Conservation(chunks: seq<Chunk>, budget: Budget, count: Option<string -> nat>)
    ensures var r := ReportOf(chunks, budget, count);
            && r.received == |chunks|
            && r.received == CountOf(ORDER, Sent(chunks, budget, count)) + r.dropped + r.duplicates
            && r.dropped >= 0 && r.duplicates >= 0
            && forall s :: s in r.trimmed ==> r.trimmed[s] > 0
  {
    hide KeptOf, SizeOf, Present, Measured, Of, Deduplicated, Lost;
    SizeOfAll(chunks);
    CountBound(ORDER, chunks, budget, Sent(chunks, budget, count));
    if chunks == [] {
      NoSize();
    }
  }

  // ---- canonical order ----

  ghost predicate Increasing(order: seq<Section>) {
    forall p, q :: 0 <= p < q < |order| ==> Number(order[p]) < Number(order[q])
  }

  lemma {:induction false} PresentIs(order: seq<Section>, kept: Sections)
    requires Increasing(order)
    ensures Increasing(Present(order, kept))
    ensures forall s :: s in Present(order, kept) <==> s in order && s in kept
  {
    if order != [] {
      var n := |order| - 1;
      assert order == order[..n] + [order[n]];
      PresentIs(order[..n], kept);
      forall p | 0 <= p < |Present(order[..n], kept)|
        ensures Number(Present(order[..n], kept)[p]) < Number(order[n])
      {
        assert Present(order[..n], kept)[p] in order[..n];
      }
    }
  }

  /** The sections sent stand in canonical order, and they are exactly those of which something was kept,
      less the retrieved context when the budget was exceeded. */
  lemma CanonicalOrder(chunks: seq<Chunk>, budget: Budget, count: Option<string -> nat>)
    ensures var r := ReportOf(chunks, budget, count);
            && Increasing(r.present)
            && forall s :: s in r.present <==>
                 chunks != [] && KeptOf(s, chunks, budget) != [] && !(r.exceeded && s == RetrievedContext)
  {
    hide KeptOf, Present, Measured, Lost, Duplicates, CountOf;
    PresentIs(ORDER, Sent(chunks, budget, count));
    forall s: Section
      ensures s in ORDER
    {
      InOrder(s);
    }
  }

  // ---- what is never trimmed ----

  /** `part` occurs in `whole`. */
  ghost predicate Holds(whole: string, part: string) {
    exists before: string, after: string :: whole == before + part + after
  }

  lemma {:induction false} JoinHolds(sep: string, parts: seq<string>, k: nat)
    requires k < |parts|
    ensures Holds(Join(sep, parts), parts[k])
  {
    if |parts| == 1 {
      assert Join(sep, parts) == "" + parts[0] + "";
    } else if k == 0 {
      assert Join(sep, parts) == "" + parts[0] + (sep + Join(sep, parts[1..]));
    } else {
      JoinHolds(sep, parts[1..], k - 1);
      var before, after :| Join(sep, parts[1..]) == before + parts[1..][k - 1] + after;
      assert Join(sep, parts) == (parts[0] + sep + before) + parts[k] + after;
    }
  }

  lemma HoldsDeep(whole: string, middle: string, part: string)
    requires Holds(whole, middle) && Holds(middle, part)
    ensures Holds(whole, part)
  {
    var a, b :| whole == a + middle + b;
    var c, d :| middle == c + part + d;
    assert whole == (a + c) + part + (d + b);
  }

  lemma {:induction false} RenderingsMember(order: seq<Section>, kept: Sections, s: Section)
    requires s in order && s in kept
    ensures RenderSection(s, kept[s]) in Renderings(order, kept)
  {
    hide RenderSection;
    var n := |order| - 1;
    if s != order[n] {
      assert order == order[..n] + [order[n]];
      RenderingsMember(order[..n], kept, s);
    }
  }

  lemma {:induction false} OfIs(section: Section, chunks: seq<Chunk>, k: nat)
    requires k < |chunks| && chunks[k].section == section
    ensures chunks[k] in Of(section, chunks)
    decreases |chunks|
  {
    var n := |chunks| - 1;
    if k < n {
      OfIs(section, chunks[..n], k);
    }
  }

  lemma SectionHolds(section: Section, kept: seq<Chunk>, k: nat)
    requires k < |kept|
    ensures Holds(RenderSection(section, kept), kept[k].content)
  {
    hide Join, Header;
    JoinHolds("\n\n", Contents(kept), k);
    var joined := Join("\n\n", Contents(kept));
    assert RenderSection(section, kept) == (Header(section) + "\n") + joined + ("\n" + "--- END SECTION ---");
    HoldsDeep(RenderSection(section, kept), joined, kept[k].content);
  }

  lemma SentHolds(sent: Sections, section: Section)
    requires section in sent
    ensures Holds(Context(sent), RenderSection(section, sent[section]))
  {
    hide RenderSection, Join;
    InOrder(section);
    RenderingsMember(ORDER, sent, section);
    var all := Renderings(ORDER, sent);
    var k :| 0 <= k < |all| && all[k] == RenderSection(section, sent[section]);
    JoinHolds("\n\n", all, k);
  }

  lemma UntrimmedSent(chunks: seq<Chunk>, budget: Budget, count: Option<string -> nat>, s: Section)
    requires s in UNTRIMMED && Of(s, chunks) != []
    ensures s in Sent(chunks, budget, count) && Sent(chunks, budget, count)[s] == Of(s, chunks)
  {
    hide Of, Measured, TrimRetrieved, TrimWorkingMemory, TrimSnapshot, Deduplicated;
    assert KeptOf(s, chunks, budget) == Of(s, chunks);
  }

  /** Every system prompt, drift warning and current prompt is in the text word for word, its whole section
      in the order the chunks came, whatever the budget. */
  lemma NeverTrimmed(chunks: seq<Chunk>, budget: Budget, count: Option<string -> nat>, k: nat)
    requires k < |chunks| && chunks[k].section in UNTRIMMED
    ensures chunks[k].section in ReportOf(chunks, budget, count).present
    ensures Holds(TextOf(chunks, budget, count), RenderSection(chunks[k].section, Of(chunks[k].section, chunks)))
    ensures Holds(TextOf(chunks, budget, count), chunks[k].content)
  {
    hide Of, Present, Lost, Duplicates, CountOf, Context, RenderSection, Holds, Sent, Kept, Exceeds;
    var s := chunks[k].section;
    var sent := Sent(chunks, budget, count);
    OfIs(s, chunks, k);
    UntrimmedSent(chunks, budget, count, s);
    InOrder(s);
    PresentIs(ORDER, sent);
    SentHolds(sent, s);
    var i :| 0 <= i < |Of(s, chunks)| && Of(s, chunks)[i] == chunks[k];
    SectionHolds(s, Of(s, chunks), i);
    HoldsDeep(TextOf(chunks, budget, count), RenderSection(s, Of(s, chunks)), chunks[k].content);
  }

  // ---- the emergency drop ----

  lemma {:induction false} TokensWithout(order: seq<Section>, kept: Sections)
    requires forall p, q :: 0 <= p < q < |order| ==> order[p] != order[q]
    ensures TokensOf(order, kept)
         == TokensOf(order, kept - {RetrievedContext})
            + if RetrievedContext in order && RetrievedContext in kept then Total(kept[RetrievedContext]) else 0
  {
    hide Total;
    if order != [] {
      var n := |order| - 1;
      assert order == order[..n] + [order[n]];
      TokensWithout(order[..n], kept);
    }
  }

  /** However the size is measured, what is sent fits the budget exactly when either everything kept does or
      everything but the retrieved context does.  The report gives the size before the drop: it says exceeded
      exactly when that size is over, and then it is not the size of what was sent. */
  lemma SentFitsIff(chunks: seq<Chunk>, budget: Budget, count: Option<string -> nat>)
    requires chunks != []
    ensures var kept := Kept(chunks, budget);
            var sent := Sent(chunks, budget, count);
            var r := ReportOf(chunks, budget, count);
            && r.assembled == Measured(kept, count)
            && (r.exceeded <==> r.assembled > budget.usable)
            && (Measured(sent, count) <= budget.usable <==>
                Measured(kept, count) <= budget.usable
                || Measured(kept - {RetrievedContext}, count) <= budget.usable)
            && (r.assembled == Measured(sent, count) <==>
                !r.exceeded || Measured(kept - {RetrievedContext}, count) == Measured(kept, count))
            && (count.Some? ==> Measured(sent, count) == count.value(TextOf(chunks, budget, count)))
  {
    hide KeptOf, Present, Lost, Duplicates, CountOf, TokensOf, Context;
  }

  /** Counting the chunks' own tokens, that is exactly when everything but the retrieved context fits, and the
      report is over by what was dropped. */
  lemma SentTokensFitIff(chunks: seq<Chunk>, budget: Budget)
    requires chunks != []
    ensures var kept := Kept(chunks, budget);
            var sent := Sent(chunks, budget, None);
            var r := ReportOf(chunks, budget, None);
            && (TokensOf(ORDER, sent) <= budget.usable <==>
                TokensOf(ORDER, kept - {RetrievedContext}) <= budget.usable)
            && r.assembled == TokensOf(ORDER, sent)
                              + if r.exceeded && RetrievedContext in kept then Total(kept[RetrievedContext]) else 0
  {
    hide KeptOf, Present, Lost, Duplicates, CountOf, TokensOf, Total, Context;
    TokensWithout(ORDER, Kept(chunks, budget));
    InOrder(RetrievedContext);
  }

  lemma {:induction false} OneSection(order: seq<Section>, kept: Sections, s: Section)
    requires s in order && s in kept
    ensures TokensOf(order, kept) >= Total(kept[s])
  {
    hide Total;
    var n := |order| - 1;
    if s != order[n] {
      assert order == order[..n] + [order[n]];
      OneSection(order[..n], kept, s);
    }
  }

  /** Hence a prompt, drift warning or system prompt that is too long by itself is sent although it does not
      fit. */
  lemma StillOverBudget(chunks: seq<Chunk>, budget: Budget, s: Section)
    requires s in UNTRIMMED && Of(s, chunks) != [] && Total(Of(s, chunks)) > budget.usable
    ensures ReportOf(chunks, budget, None).exceeded && TokensOf(ORDER, Sent(chunks, budget, None)) > budget.usable
  {
    hide Of, TokensOf, Total, KeptOf, Present, CountOf, Lost, Duplicates;
    var sent := Sent(chunks, budget, None);
    UntrimmedSent(chunks, budget, None, s);
    InOrder(s);
    OneSection(ORDER, sent, s);
    TokensWithout(ORDER, Kept(chunks, budget));
    NoChunks(s);
  }

  lemma NoChunks(s: Section)
    ensures Of(s, []) == []
  {
  }

  /** A text counts no less than any part of it. */
  ghost predicate GrowsWithText(f: string -> nat) {
    forall whole, part :: Holds(whole, part) ==> f(part) <= f(whole)
  }

  /** The counter for models without a tokenizer of their own (velune/context/token_counter.py): 1.35 tokens a
      word, rounded down, and at least one for any text. */
  function HeuristicCount(text: string): nat {
    var n := |Words(text)| * 27 / 20;
    if text != "" && n == 0 then 1 else n
  }

  lemma HeuristicGrows()
    ensures GrowsWithText(HeuristicCount)
  {
    forall whole, part | Holds(whole, part)
      ensures HeuristicCount(part) <= HeuristicCount(whole)
    {
      var a, b :| whole == a + part + b;
      WordsOfPart(a, part, b);
    }
  }

  /** With a model's counter too, one prompt, drift warning or system prompt that is too long by itself is sent
      although it does not fit. */
  lemma StillOverBudgetCounted(chunks: seq<Chunk>, budget: Budget, f: string -> nat, k: nat)
    requires GrowsWithText(f)
    requires k < |chunks| && chunks[k].section in UNTRIMMED && f(chunks[k].content) > budget.usable
    ensures ReportOf(chunks, budget, Some(f)).exceeded && f(TextOf(chunks, budget, Some(f))) > budget.usable
  {
    hide Of, Present, Lost, Duplicates, CountOf, RenderSection, Holds, Kept, Context;
    NeverTrimmed(chunks, budget, Some(f), k);
    SentFitsIff(chunks, budget, Some(f));
  }

  lemma LongPromptSent(chunks: seq<Chunk>, budget: Budget, k: nat)
    requires k < |chunks| && chunks[k].section in UNTRIMMED && HeuristicCount(chunks[k].content) > budget.usable
    ensures HeuristicCount(TextOf(chunks, budget, Some(HeuristicCount))) > budget.usable
  {
    hide HeuristicCount, GrowsWithText;
    HeuristicGrows();
    StillOverBudgetCounted(chunks, budget, HeuristicCount, k);
  }

  // ---- the loops ----

  method GroupBySection(chunks: seq<Chunk>) returns (sections: Sections)
    ensures forall s :: s in sections <==> Of(s, chunks) != []
    ensures forall s :: s in sections ==> sections[s] == Of(s, chunks)
  {
    sections := map[];
    for i := 0 to |chunks|
      invariant forall s :: s in sections <==> Of(s, chunks[..i]) != []
      invariant forall s :: s in sections ==> sections[s] == Of(s, chunks[..i])
    {
      assert chunks[..i + 1][..i] == chunks[..i];
      var s := chunks[i].section;
      sections := sections[s := (if s in sections then sections[s] else []) + [chunks[i]]];
    }
    assert chunks[..|chunks|] == chunks;
  }

  method TrimSection(section: Section, own: seq<Chunk>, budget: Budget)
    returns (kept: seq<Chunk>, lost: int, duplicates: nat)
    ensures var offered := if section == RetrievedContext then Deduplicated(own) else own;
            && kept == Processed(section, offered, budget)
            && lost == (if section == RetrievedContext || section == WorkingMemory
                        then Total(offered) - Total(kept) else 0)
            && duplicates == |own| - |offered|
  {
    hide Total, Deduplicated, TrimRetrieved, TrimWorkingMemory, TrimSnapshot;
    duplicates, lost := 0, 0;
    if section == RetrievedContext {
      var offered;
      offered, duplicates := DeduplicateRetrieved(own);
      kept, lost := TrimRetrievedContext(offered, budget.retrieval);
    } else if section == WorkingMemory {
      kept, lost := TrimWorkingMemoryTurns(own, budget.workingMemory);
    } else if section == RepositorySnapshot {
      kept := TrimRepositorySnapshot(own);
    } else {
      kept := own;
    }
  }

  lemma {:induction false} PushSection(order: seq<Section>, kept: Sections, s: Section, own: seq<Chunk>)
    requires s !in order && s !in kept
    ensures TokensOf(order + [s], kept[s := own]) == TokensOf(order, kept) + Total(own)
    ensures TokensOf(order + [s], kept) == TokensOf(order, kept)
  {
    hide Total;
    assert (order + [s])[..|order|] == order;
    SameTokens(order, kept, kept[s := own]);
  }

  lemma {:induction false} SameTokens(order: seq<Section>, a: Sections, b: Sections)
    requires forall s :: s in order ==> (s in a <==> s in b) && (s in a ==> a[s] == b[s])
    ensures TokensOf(order, a) == TokensOf(order, b)
  {
    hide Total;
    if order != [] {
      var n := |order| - 1;
      assert order == order[..n] + [order[n]];
      SameTokens(order[..n], a, b);
    }
  }

  lemma NothingOffered(section: Section, chunks: seq<Chunk>, budget: Budget)
    requires Of(section, chunks) == []
    ensures KeptOf(section, chunks, budget) == [] && Lost(section, chunks, budget) == 0
    ensures section == RetrievedContext ==> Duplicates(chunks) == 0
  {
    hide KeptOf, Of, Deduplicated;
    KeptSize(section, chunks, budget);
  }

  /** The part of a map that the sections seen so far account for. */
  ghost predicate Upto(order: seq<Section>, kept: Sections, all: Sections) {
    && (forall s :: s in kept <==> s in order && s in all)
    && (forall s :: s in kept ==> kept[s] == all[s])
  }

  lemma UptoPush(order: seq<Section>, kept: Sections, chunks: seq<Chunk>, budget: Budget, s: Section)
    requires Upto(order, kept, Kept(chunks, budget)) && s !in order
    ensures s !in kept
    ensures var own := KeptOf(s, chunks, budget);
            Upto(order + [s], if own != [] then kept[s := own] else kept, Kept(chunks, budget))
  {
    hide KeptOf;
  }

  /** The trims recorded so far. */
  ghost predicate Logged(order: seq<Section>, trimmed: map<Section, int>, chunks: seq<Chunk>, budget: Budget) {
    && (forall s :: s in trimmed <==> s in order && Lost(s, chunks, budget) > 0)
    && (forall s :: s in trimmed ==> trimmed[s] == Lost(s, chunks, budget))
  }

  lemma LoggedPush(order: seq<Section>, trimmed: map<Section, int>, chunks: seq<Chunk>, budget: Budget, s: Section)
    requires Logged(order, trimmed, chunks, budget)
    ensures var lost := Lost(s, chunks, budget);
            Logged(order + [s], if lost > 0 then trimmed[s := lost] else trimmed, chunks, budget)
  {
    hide Lost;
  }

  lemma LoggedAll(trimmed: map<Section, int>, chunks: seq<Chunk>, budget: Budget)
    requires Logged(ORDER, trimmed, chunks, budget)
    ensures trimmed == map s: Section | Lost(s, chunks, budget) > 0 :: Lost(s, chunks, budget)
  {
    hide Lost;
    AllInOrder();
  }

  method TrimAll(chunks: seq<Chunk>, budget: Budget, sections: Sections)
    returns (kept: Sections, trimmed: map<Section, int>, tokens: nat, duplicates: int)
    requires forall s :: s in sections <==> Of(s, chunks) != []
    requires forall s :: s in sections ==> sections[s] == Of(s, chunks)
    ensures kept == Kept(chunks, budget)
    ensures trimmed == map s: Section | Lost(s, chunks, budget) > 0 :: Lost(s, chunks, budget)
    ensures tokens == TokensOf(ORDER, kept) && duplicates == Duplicates(chunks)
  {
    hide Total, Deduplicated, Processed, Of, TokensOf, Upto, Logged, Kept;
    kept, trimmed, tokens, duplicates := map[], map[], 0, 0;
    ghost var all := Kept(chunks, budget);
    NothingYet(chunks, budget);
    for i := 0 to |ORDER|
      invariant Upto(ORDER[..i], kept, all)
      invariant Logged(ORDER[..i], trimmed, chunks, budget)
      invariant tokens == TokensOf(ORDER[..i], kept)
      invariant duplicates == if RetrievedContext in ORDER[..i] then Duplicates(chunks) else 0
    {
      var section := ORDER[i];
      NextSection(i);
      UptoPush(ORDER[..i], kept, chunks, budget, section);
      LoggedPush(ORDER[..i], trimmed, chunks, budget, section);
      if section in sections {
        var own, lost, dup := TrimSection(section, sections[section], budget);
        assert own == KeptOf(section, chunks, budget) && lost == Lost(section, chunks, budget);
        duplicates := duplicates + dup;
        if lost > 0 {
          trimmed := trimmed[section := lost];
        }
        PushSection(ORDER[..i], kept, section, own);
        if own != [] {
          kept := kept[section := own];
          tokens := tokens + Total(own);
        }
      } else {
        NothingOffered(section, chunks, budget);
        PushSection(ORDER[..i], kept, section, []);
      }
    }
    assert ORDER[..|ORDER|] == ORDER;
    AllSections(kept, all);
    LoggedAll(trimmed, chunks, budget);
    InOrder(RetrievedContext);
  }

  lemma NextSection(i: nat)
    requires i < |ORDER|
    ensures ORDER[..i + 1] == ORDER[..i] + [ORDER[i]] && ORDER[i] !in ORDER[..i]
  {
  }

  lemma AllInOrder()
    ensures forall s: Section :: s in ORDER
  {
    forall s: Section {
      InOrder(s);
    }
  }

  method Assemble(chunks: seq<Chunk>, budget: Budget, count: Option<string -> nat>)
    returns (text: string, report: Report)
    ensures text == TextOf(chunks, budget, count) && report == ReportOf(chunks, budget, count)
  {
    hide Total, Kept, Of, Renderings, Present, CountOf, TokensOf, Lost, Duplicates, Context;
    if chunks == [] {
      return "", Report(0, budget.usable, 0, [], map[], 0, 0, false);
    }
    var sections := GroupBySection(chunks);
    var kept, trimmed, tokens, duplicates := TrimAll(chunks, budget, sections);
    text := Context(kept);
    var size := if count.Some? then count.value(text) else tokens;
    var exceeded := size > budget.usable;
    if exceeded && RetrievedContext in kept {
      kept := kept - {RetrievedContext};
      text := Context(kept);
    }
    assert kept == Sent(chunks, budget, count);
    report := Report(|chunks|, budget.usable, size, Present(ORDER, kept), trimmed,
                     |chunks| - CountOf(ORDER, kept) - duplicates, duplicates, exceeded);
  }

  lemma NothingYet(chunks: seq<Chunk>, budget: Budget)
    ensures TokensOf([], map[]) == 0
    ensures Upto([], map[], Kept(chunks, budget)) && Logged([], map[], chunks, budget)
  {
  }

  lemma AllSections(kept: Sections, all: Sections)
    requires Upto(ORDER, kept, all)
    ensures kept == all
  {
    forall s: Section
      ensures s in kept <==> s in all
    {
      InOrder(s);
    }
  }
}
