/**
 The transcript state of the full-screen REPL and its tool cards, as objects.  Lines are
 held by reference, so a card keeps writing to its own line wherever the buffer moves it.
 The ghost fields `ideal`, `idealStart` and `cards` record what an unbounded transcript
 would hold; every method says which operations of `TranscriptSpec` it performed.
 */
module Transcript {
  import opened Optional
  import Text
  import S = TranscriptSpec

  datatype Span = Span(style: string, text: string)

  /** What a line shows: its plain text, its style, and its coloured pieces when it has any. */
  datatype Face = Face(text: string, style: string, spans: Option<seq<Span>>)

  const CONVERSATION := "class:conversation"
  const ASSISTANT := "class:conversation.assistant"
  const SYSTEM := "class:conversation.system"
  const USER_TEXT := "class:conversation.user.text"
  const USER_MARKER := "class:conversation.user.marker"
  const THINKING := "class:conversation.thinking"
  const SPINNER := "class:conversation.spinner"
  const ESC: char := '\U{1B}'

  function Plain(spans: seq<Span>): string {
    if spans == [] then "" else spans[0].text + Plain(spans[1..])
  }

  class Line {
    var face: Face

    constructor (face: Face)
      ensures this.face == face
    {
      this.face := face;
    }
  }

  ghost function Faces(ls: seq<Line>): (r: seq<Face>)
    reads ls
    ensures |r| == |ls| && forall k :: 0 <= k < |ls| ==> r[k] == ls[k].face
  {
    seq(|ls|, k reads ls requires 0 <= k < |ls| => ls[k].face)
  }

  lemma FacesJoin(a: seq<Line>, b: seq<Line>)
    ensures Faces(a + b) == Faces(a) + Faces(b)
  {
  }

  // ---- what each operation shows ----

  /** A separating blank line, wanted when the transcript ends in a line with text. */
  ghost function GapAfter(faces: seq<Face>): seq<Face> {
    if faces != [] && faces[|faces| - 1].text != "" then [Face("", CONVERSATION, None)] else []
  }

  ghost function GapFaces(ls: seq<Line>): seq<Face>
    reads ls
  {
    GapAfter(Faces(ls))
  }

  lemma GapOfTail(before: seq<Line>, first: Line, rest: seq<Line>)
    ensures GapFaces(before + [first] + rest) == GapAfter(Faces([first] + rest))
  {
  }

  /** The screen and the ideal transcript end alike, so they want the same gap. */
  lemma SameGap(v: S.View<Line>, i: S.Ideal<Line>)
    requires S.Refines(v, i)
    ensures GapFaces(v.lines) == GapFaces(i.lines)
  {
    S.SameEnd(v, i);
  }

  /** After a re-rendering the transcript ends in the stream's own last row. */
  lemma GapOfRerendered(i: S.Ideal<Line>, op: S.Op<Line>)
    requires op.Rerender? && i.start.Some?
    ensures GapFaces(S.StepIdeal(i, op).lines) == GapAfter(Faces([op.first] + op.rest))
  {
    GapOfTail(S.Upto(i.lines, i.start.value), op.first, op.rest);
  }

  function LinesOf(text: string): (r: seq<string>)
    ensures |r| >= 1
  {
    if text == "" then [""] else Text.SplitLines(text)
  }

  function WrappedFaces(raw: seq<string>, style: string): (r: seq<Face>)
    ensures |r| == |raw|
  {
    seq(|raw|, k requires 0 <= k < |raw| => Face(Text.Rstrip(raw[k]), style, None))
  }

  function UserFirst(first: string): Face {
    Face("\U{276F} " + first, CONVERSATION, Some([Span(USER_MARKER, "\U{276F} "), Span(USER_TEXT, first)]))
  }

  function UserRest(raw: seq<string>): (r: seq<Face>)
    ensures |r| == |raw|
  {
    seq(|raw|, k requires 0 <= k < |raw| => Face("  " + Text.Rstrip(raw[k]), USER_TEXT, None))
  }

  /** The user's turn: the first line behind the prompt glyph, the others aligned under it. */
  function UserFaces(text: string): seq<Face> {
    [UserFirst(Text.Rstrip(LinesOf(text)[0]))] + UserRest(LinesOf(text)[1..])
  }

  lemma UserFacesOf(first: Line, rest: seq<Line>, text: string)
    requires first.face == UserFirst(Text.Rstrip(LinesOf(text)[0]))
    requires Faces(rest) == UserRest(LinesOf(text)[1..])
    ensures Faces([first] + rest) == UserFaces(text)
  {
    FacesJoin([first], rest);
    assert Faces([first]) == [first.face];
  }

  function SpanFaces(rows: seq<seq<Span>>, style: string): (r: seq<Face>)
    ensures |r| == |rows|
  {
    seq(|rows|, k requires 0 <= k < |rows| => Face(Plain(rows[k]), style, Some(rows[k])))
  }

  function ThinkingFace(spinner: string, word: string): Face {
    Face(spinner + " " + word, THINKING, Some([Span(SPINNER, spinner + " "), Span(THINKING, word)]))
  }

  /** The stream block: the markdown renderer's rows, or the wrapped text when rendering failed. */
  function StreamFaces(text: string, rendered: Option<seq<seq<Span>>>, final: bool): (r: seq<Face>)
    ensures |r| >= 1
  {
    var style := if final then ASSISTANT else CONVERSATION;
    match rendered
    case None => WrappedFaces(LinesOf(if text == "" then "..." else text), style)
    case Some(rows) => if rows == [] then [Face("", style, None)] else SpanFaces(rows, style)
  }

  function CardFace(bullet: string, bulletStyle: string, verb: string, target: string, elapsed: Option<string>): Face {
    var spans :=
      [Span(bulletStyle, bullet + " "), Span("class:conversation.tool.name", verb)]
      + (if target != "" then [Span("class:conversation.tool.arg", "(" + target + ")")] else [])
      + (match elapsed
         case Some(e) => [Span("class:conversation.tool.elapsed", " \U{B7} " + e + "s")]
         case None => []);
    Face(Plain(spans), CONVERSATION, Some(spans))
  }

  function SummarySpans(summary: seq<Span>): seq<Span> {
    [Span("class:conversation.tool.result", "  \U{23BF} ")] + summary
  }

  const WARN := "class:conversation.tool.warn"

  function NoteFace(note: string): Face {
    var spans := SummarySpans([Span(WARN, note)]);
    Face(Plain(spans), SYSTEM, Some(spans))
  }

  // ---- rendering ----

  datatype Piece = Cursor | Shown(span: Span)

  function BodyPieces(face: Face): seq<Piece> {
    match face.spans
    case Some(spans) => seq(|spans|, k requires 0 <= k < |spans| => Shown(spans[k]))
    case None => [Shown(Span(face.style, face.text))]
  }

  function SeparatorStyle(face: Face): string {
    if face.spans.Some? then "" else face.style
  }

  /** Lines `from` to `end` as pieces, each followed by a line break unless it is the last line. */
  function BodyOf(faces: seq<Face>, from: nat, end: nat): (r: seq<Piece>)
    requires from <= end <= |faces|
    ensures Cursor !in r
  {
    if from == end then []
    else
      BodyOf(faces, from, end - 1) + BodyPieces(faces[end - 1])
      + (if end < |faces| then [Shown(Span(SeparatorStyle(faces[end - 1]), "\n"))] else [])
  }

  lemma BodyEmpty(faces: seq<Face>, at: nat)
    requires at <= |faces|
    ensures BodyOf(faces, at, at) == []
  {
  }

  lemma BodyStep(faces: seq<Face>, from: nat, k: nat)
    requires from <= k < |faces|
    ensures BodyOf(faces, from, k + 1)
         == BodyOf(faces, from, k)
            + (BodyPieces(faces[k]) + if k + 1 < |faces| then [Shown(Span(SeparatorStyle(faces[k]), "\n"))] else [])
  {
  }

  function Cursors(pieces: seq<Piece>): nat {
    multiset(pieces)[Cursor]
  }

  datatype Shot = Home | Conversation(pieces: seq<Piece>)

  /** A sequence with an element put in its middle holds it exactly once if neither half does. */
  lemma CursorOnce(before: seq<Piece>, after: seq<Piece>)
    requires Cursor !in before && Cursor !in after
    ensures Cursors(before + [Cursor] + after) == 1
  {
    assert multiset(before)[Cursor] == 0 && multiset(after)[Cursor] == 0;
  }

  ghost predicate Distinct<T>(s: seq<T>) {
    forall i, j :: 0 <= i < j < |s| ==> s[i] != s[j]
  }

  function RemoveFirst<T(==)>(s: seq<T>, x: T): (r: seq<T>)
    ensures forall y :: y in r ==> y in s
    ensures forall y :: y in s && y != x ==> y in r
  {
    if s == [] then [] else if s[0] == x then s[1..] else [s[0]] + RemoveFirst(s[1..], x)
  }

  lemma {:induction false} RemoveFirstDistinct<T>(s: seq<T>, x: T)
    requires Distinct(s)
    ensures Distinct(RemoveFirst(s, x)) && x !in RemoveFirst(s, x)
  {
    if s != [] {
      RemoveFirstDistinct(s[1..], x);
      assert s[0] !in s[1..];
    }
  }

  class Screen {
    var lines: seq<Line>
    var streamStart: Option<nat>
    var scrollAnchor: Option<nat>
    var streamText: string
    var lastResponse: string
    var historyStarted: bool
    var liveCards: seq<ToolCard>

    ghost var ideal: seq<Line>
    ghost var idealStart: Option<nat>
    ghost var cards: set<Line>

    ghost function View(): S.View<Line>
      reads this
    {
      S.View(lines, streamStart, scrollAnchor)
    }

    ghost function Ideal(): S.Ideal<Line>
      reads this
    {
      S.Ideal(ideal, idealStart)
    }

    ghost predicate Valid()
      reads this
    {
      && S.Refines(View(), Ideal())
      && S.CardsSafe(Ideal(), cards)
      && (forall c :: c in liveCards ==> c.ui == this && c.line in cards)
    }

    /** The live list holds running cards, each once and each with a line of its own. */
    ghost predicate CardsLive()
      reads this, liveCards
    {
      && Distinct(liveCards)
      && (forall c :: c in liveCards ==> !c.done)
      && (forall c, d :: c in liveCards && d in liveCards && c != d ==> c.line != d.line)
    }

    /** The transcript moved by exactly the operation `op`. */
    twostate predicate Did(new op: S.Op<Line>)
      reads this
    {
      View() == S.StepView(old(View()), op) && Ideal() == S.StepIdeal(old(Ideal()), op)
    }

    constructor ()
      ensures Valid() && View() == S.View([], None, None) && Ideal() == S.Ideal([], None)
      ensures liveCards == [] && cards == {} && !historyStarted && streamText == "" && lastResponse == ""
    {
      lines, streamStart, scrollAnchor := [], None, None;
      streamText, lastResponse, historyStarted, liveCards := "", "", false, [];
      ideal, idealStart, cards := [], None, {};
    }

    method TrimLines()
      modifies this`lines, this`streamStart, this`scrollAnchor
      ensures View() == S.Trim(old(View()))
    {
      if |lines| <= S.CAP {
        return;
      }
      var overflow := |lines| - S.CAP;
      lines := lines[overflow..];
      if streamStart.Some? {
        streamStart := Some(if streamStart.value >= overflow then streamStart.value - overflow else 0);
      }
      if scrollAnchor.Some? {
        scrollAnchor := Some(if scrollAnchor.value >= overflow then scrollAnchor.value - overflow else 0);
      }
    }

    /** The end of every appending operation: trim, and let the ideal transcript grow alike. */
    method TrimAppended(ghost before: seq<Line>, ghost added: seq<Line>)
      requires lines == before + added
      requires S.Refines(S.View(before, streamStart, scrollAnchor), Ideal())
      requires S.CardsSafe(Ideal(), cards) && forall l :: l in added ==> l !in cards
      modifies this`lines, this`streamStart, this`scrollAnchor, this`ideal
      ensures View() == S.StepView(S.View(before, old(streamStart), old(scrollAnchor)), S.Append(added))
      ensures Ideal() == S.StepIdeal(old(Ideal()), S.Append(added))
      ensures S.Refines(View(), Ideal()) && S.CardsSafe(Ideal(), cards)
      ensures added != [] ==> lines != [] && lines[|lines| - 1] == added[|added| - 1]
      ensures streamStart.Some? <==> old(streamStart).Some?
    {
      TrimLines();
      ideal := ideal + added;
      S.StepRefines(S.View(before, old(streamStart), old(scrollAnchor)), old(Ideal()), S.Append(added));
    }

    /** The end of every operation that rewrites the stream block. */
    method TrimReplaced(ghost before: seq<Line>, ghost first: Line, ghost rest: seq<Line>)
      requires S.Refines(S.View(before, streamStart, scrollAnchor), Ideal()) && streamStart.Some?
      requires lines == S.Upto(before, streamStart.value) + [first] + rest
      requires S.CardsSafe(Ideal(), cards) && first !in cards && forall l :: l in rest ==> l !in cards
      modifies this`lines, this`streamStart, this`scrollAnchor, this`ideal
      ensures View() == S.StepView(S.View(before, old(streamStart), old(scrollAnchor)), S.Rerender(first, rest))
      ensures Ideal() == S.StepIdeal(old(Ideal()), S.Rerender(first, rest))
      ensures S.Refines(View(), Ideal()) && S.CardsSafe(Ideal(), cards) && streamStart.Some?
    {
      ghost var v := S.View(before, streamStart, scrollAnchor);
      TrimLines();
      ideal := S.Upto(ideal, idealStart.value) + [first] + rest;
      S.StepRefines(v, old(Ideal()), S.Rerender(first, rest));
      S.RerenderKeepsCards(v, old(Ideal()), S.Rerender(first, rest), cards);
    }

    method AppendGap() returns (ghost gap: seq<Line>)
      modifies this`lines
      ensures fresh(gap) && lines == old(lines) + gap && Faces(gap) == old(GapFaces(lines))
    {
      gap := [];
      if lines != [] && lines[|lines| - 1].face.text != "" {
        var blank := new Line(Face("", CONVERSATION, None));
        lines := lines + [blank];
        gap := [blank];
      }
    }

    method AppendWrapped(raw: seq<string>, style: string) returns (ghost added: seq<Line>)
      modifies this`lines
      ensures fresh(added) && lines == old(lines) + added && Faces(added) == WrappedFaces(raw, style)
    {
      added := [];
      for k := 0 to |raw|
        invariant |added| == k && fresh(added) && lines == old(lines) + added
        invariant forall j :: 0 <= j < k ==> added[j].face == WrappedFaces(raw, style)[j]
      {
        var line := new Line(Face(Text.Rstrip(raw[k]), style, None));
        lines := lines + [line];
        added := added + [line];
      }
    }

    method AppendSpanRows(rows: seq<seq<Span>>, style: string) returns (ghost added: seq<Line>)
      modifies this`lines
      ensures fresh(added) && lines == old(lines) + added && Faces(added) == SpanFaces(rows, style)
    {
      added := [];
      for k := 0 to |rows|
        invariant |added| == k && fresh(added) && lines == old(lines) + added
        invariant forall j :: 0 <= j < k ==> added[j].face == SpanFaces(rows, style)[j]
      {
        var line := new Line(Face(Plain(rows[k]), style, Some(rows[k])));
        lines := lines + [line];
        added := added + [line];
      }
    }

    method AppendIndented(raw: seq<string>) returns (ghost added: seq<Line>)
      modifies this`lines
      ensures fresh(added) && lines == old(lines) + added && Faces(added) == UserRest(raw)
    {
      added := [];
      for k := 0 to |raw|
        invariant |added| == k && fresh(added) && lines == old(lines) + added
        invariant forall j :: 0 <= j < k ==> added[j].face == UserRest(raw)[j]
      {
        var line := new Line(Face("  " + Text.Rstrip(raw[k]), USER_TEXT, None));
        lines := lines + [line];
        added := added + [line];
      }
    }

    method AppendUserLines(text: string) returns (ghost added: seq<Line>)
      modifies this`lines
      ensures fresh(added) && lines == old(lines) + added
      ensures Faces(added) == old(GapFaces(lines)) + UserFaces(text)
    {
      hide UserFirst, UserRest, UserFaces, LinesOf, Text.Rstrip, GapFaces, Faces;
      ghost var gap := AppendGap();
      var raw := LinesOf(text);
      var first := new Line(UserFirst(Text.Rstrip(raw[0])));
      lines := lines + [first];
      ghost var rest := AppendIndented(raw[1..]);
      added := gap + ([first] + rest);
      assert lines == old(lines) + added;
      UserFacesOf(first, rest, text);
      FacesJoin(gap, [first] + rest);
    }

    method AppendUser(text: string) returns (ghost op: S.Op<Line>)
      requires Valid()
      modifies this
      ensures Valid() && Did(op) && op.Append? && fresh(op.added)
      ensures Faces(op.added) == old(GapFaces(ideal)) + UserFaces(text)
      ensures historyStarted && cards == old(cards) && liveCards == old(liveCards)
      ensures streamText == old(streamText) && lastResponse == old(lastResponse)
    {
      hide S.Refines, S.CardsSafe, S.StepView, S.StepIdeal, Faces, GapFaces, UserFaces;
      SameGap(View(), Ideal());
      historyStarted := true;
      ghost var added := AppendUserLines(text);
      TrimAppended(old(lines), added);
      op := S.Append(added);
    }

    method AppendConsoleLine(line: string, plain: string, ansi: seq<Span>) returns (ghost op: S.Op<Line>)
      requires Valid()
      modifies this
      ensures Valid() && Did(op) && op.Append? && fresh(op.added)
      ensures line == "" && (old(ideal) == [] || old(ideal[|ideal| - 1].face.text) == "") ==>
                op.added == [] && historyStarted == old(historyStarted)
      ensures !(line == "" && (old(ideal) == [] || old(ideal[|ideal| - 1].face.text) == "")) ==>
                && historyStarted
                && Faces(op.added)
                   == [if ESC in line then Face(plain, SYSTEM, Some(ansi)) else Face(line, SYSTEM, None)]
      ensures cards == old(cards) && liveCards == old(liveCards)
      ensures streamText == old(streamText) && lastResponse == old(lastResponse)
    {
      hide S.Refines, S.CardsSafe, S.StepView, S.StepIdeal;
      S.SameEnd(View(), Ideal());
      op := S.Append([]);
      if line == "" && (lines == [] || lines[|lines| - 1].face.text == "") {
        return;
      }
      historyStarted := true;
      var shown: Line;
      if ESC in line {
        shown := new Line(Face(plain, SYSTEM, Some(ansi)));
      } else {
        shown := new Line(Face(line, SYSTEM, None));
      }
      lines := lines + [shown];
      TrimAppended(old(lines), [shown]);
      op := S.Append([shown]);
    }

    method AppendSystem(text: string) returns (ghost op: S.Op<Line>)
      requires Valid()
      modifies this
      ensures Valid() && Did(op) && op.Append? && fresh(op.added)
      ensures Faces(op.added) == WrappedFaces(LinesOf(text), SYSTEM)
      ensures historyStarted && cards == old(cards) && liveCards == old(liveCards)
      ensures streamText == old(streamText) && lastResponse == old(lastResponse)
    {
      hide S.Refines, S.CardsSafe, S.StepView, S.StepIdeal, Faces, WrappedFaces, LinesOf;
      historyStarted := true;
      ghost var added := AppendWrapped(LinesOf(text), SYSTEM);
      TrimAppended(old(lines), added);
      op := S.Append(added);
    }

    method AppendFragmentLines(rows: seq<seq<Span>>) returns (ghost op: S.Op<Line>)
      requires Valid()
      modifies this
      ensures Valid() && Did(op) && op.Append? && fresh(op.added)
      ensures Faces(op.added) == SpanFaces(rows, SYSTEM)
      ensures historyStarted && cards == old(cards) && liveCards == old(liveCards)
      ensures streamText == old(streamText) && lastResponse == old(lastResponse)
    {
      hide S.Refines, S.CardsSafe, S.StepView, S.StepIdeal;
      historyStarted := true;
      ghost var added := AppendSpanRows(rows, SYSTEM);
      TrimAppended(old(lines), added);
      op := S.Append(added);
    }

    /** Replace the stream block by the one thinking line; nothing happens with no stream open. */
    method SetThinkingLine(spinner: string, word: string) returns (ghost op: S.Op<Line>)
      requires streamStart.Some? <==> idealStart.Some?
      requires streamStart.Some? ==> streamStart.value <= |lines| && idealStart.value <= |ideal|
      modifies this`lines, this`streamStart, this`scrollAnchor, this`ideal
      ensures Did(op) && op.Rerender? && op.rest == [] && fresh(op.first)
      ensures op.first.face == ThinkingFace(spinner, word)
      ensures streamStart.Some? <==> old(streamStart).Some?
    {
      var line := new Line(ThinkingFace(spinner, word));
      op := S.Rerender(line, []);
      if streamStart.None? {
        return;
      }
      lines := lines[..streamStart.value];
      lines := lines + [line];
      assert lines == old(lines)[..old(streamStart).value] + [line] + [];
      TrimLines();
      ideal := ideal[..idealStart.value] + [line] + [];
    }

    /** One tick of the thinking animation. */
    method ThinkingTick(spinner: string, word: string) returns (ghost op: S.Op<Line>)
      requires Valid()
      modifies this
      ensures Valid() && Did(op) && op.Rerender? && op.rest == [] && fresh(op.first)
      ensures op.first.face == ThinkingFace(spinner, word)
      ensures streamText == (if old(streamStart).Some? then word else old(streamText))
      ensures cards == old(cards) && liveCards == old(liveCards) && historyStarted == old(historyStarted)
      ensures lastResponse == old(lastResponse)
    {
      if streamStart.Some? {
        streamText := word;
      }
      op := SetThinkingLine(spinner, word);
      S.StepRefines(old(View()), old(Ideal()), op);
      S.RerenderKeepsCards(old(View()), old(Ideal()), op, cards);
    }

    method BeginAssistant(text: string, firstWord: string, spinner: string) returns (ghost op: S.Op<Line>)
      requires Valid()
      modifies this
      ensures Valid() && Did(op) && op.Open? && fresh(op.gap) && fresh(op.first)
      ensures Faces(op.gap) == old(GapFaces(ideal))
      ensures op.first.face == ThinkingFace(spinner, if text != "" then text else firstWord)
      ensures streamText == if text != "" then text else firstWord
      ensures historyStarted && cards == old(cards) && liveCards == old(liveCards)
      ensures lastResponse == old(lastResponse) && streamStart.Some?
    {
      hide S.Refines, S.CardsSafe, S.StepView, S.StepIdeal, Faces, GapFaces, ThinkingFace;
      SameGap(View(), Ideal());
      historyStarted := true;
      ghost var gap := AppendGap();
      streamStart := Some(|lines|);
      streamText := if text != "" then text else firstWord;
      ideal := ideal + gap;
      idealStart := Some(|ideal|);
      ghost var shown := SetThinkingLine(spinner, streamText);
      op := S.Open(gap, shown.first);
      S.OpenIsRerender(old(View()), old(Ideal()), gap, shown.first);
      S.StepRefines(old(View()), old(Ideal()), op);
      S.AppendKeepsCards(old(Ideal()), op, cards);
    }

    /** The rendering proper: the markdown rows, one blank line for none, the wrapped text on failure. */
    method AppendRendered(rendered: Option<seq<seq<Span>>>, style: string) returns (ghost added: seq<Line>)
      modifies this`lines
      ensures fresh(added) && lines == old(lines) + added
      ensures style in {ASSISTANT, CONVERSATION} ==>
                Faces(added) == StreamFaces(streamText, rendered, style == ASSISTANT)
      ensures |added| >= 1
    {
      if rendered.None? {
        added := AppendWrapped(LinesOf(if streamText == "" then "..." else streamText), style);
      } else if rendered.value == [] {
        var blank := new Line(Face("", style, None));
        lines := lines + [blank];
        added := [blank];
      } else {
        added := AppendSpanRows(rendered.value, style);
      }
      assert |Faces(added)| >= 1;
    }

    /** Re-render the stream block; nothing happens with no stream open. */
    method RenderStreamMarkdown(rendered: Option<seq<seq<Span>>>, final: bool) returns (ghost op: S.Op<Line>)
      requires Valid()
      modifies this
      ensures Valid() && Did(op) && op.Rerender? && fresh(op.first) && fresh(op.rest)
      ensures old(streamStart).Some? ==>
                && Faces([op.first] + op.rest) == StreamFaces(old(streamText), rendered, final)
                && GapFaces(ideal) == GapAfter(StreamFaces(old(streamText), rendered, final))
      ensures streamStart.Some? <==> old(streamStart).Some?
      ensures streamText == old(streamText) && lastResponse == old(lastResponse)
      ensures cards == old(cards) && liveCards == old(liveCards) && historyStarted == old(historyStarted)
    {
      hide S.Refines, S.CardsSafe, S.StepView, S.StepIdeal, Faces, GapFaces, LinesOf, WrappedFaces, SpanFaces;
      S.StartInRange(View(), Ideal());
      if streamStart.None? {
        var unused := new Line(Face("", CONVERSATION, None));
        op := S.Rerender(unused, []);
        S.RerenderClosed(View(), Ideal(), op);
        return;
      }
      ghost var before := lines;
      lines := lines[..streamStart.value];
      ghost var added := AppendRendered(rendered, if final then ASSISTANT else CONVERSATION);
      assert added == [added[0]] + added[1..];
      op := S.Rerender(added[0], added[1..]);
      assert lines == before[..streamStart.value] + [added[0]] + added[1..];
      TrimReplaced(before, added[0], added[1..]);
      GapOfRerendered(old(Ideal()), op);
    }

    method UpdateAssistant(text: string, final: bool, throttled: bool, rendered: Option<seq<seq<Span>>>,
                           firstWord: string, spinner: string)
      returns (ghost ops: seq<S.Op<Line>>)
      requires Valid()
      modifies this
      ensures Valid()
      ensures View() == S.RunView(old(View()), ops) && Ideal() == S.RunIdeal(old(Ideal()), ops)
      ensures old(streamStart).None? && Text.IsBlank(text) ==> ops == [] && streamText == old(streamText)
      ensures !(old(streamStart).None? && Text.IsBlank(text)) ==>
                && streamText == text && streamStart.Some?
                && |ops| == (if old(streamStart).None? then 1 else 0) + (if final || !throttled then 1 else 0)
                && (old(streamStart).None? ==>
                      && ops[0].Open? && Faces(ops[0].gap) == old(GapFaces(ideal))
                      && ops[0].first.face == ThinkingFace(spinner, firstWord))
                && (final || !throttled ==>
                      && ops[|ops| - 1].Rerender?
                      && Faces([ops[|ops| - 1].first] + ops[|ops| - 1].rest) == StreamFaces(text, rendered, final))
      ensures cards == old(cards) && liveCards == old(liveCards) && lastResponse == old(lastResponse)
    {
      hide S.Refines, S.CardsSafe, S.StepView, S.StepIdeal, S.RunView, S.RunIdeal, Faces, GapFaces, StreamFaces;
      ops := [];
      S.RunNone(old(View()), old(Ideal()));
      if streamStart.None? {
        if Text.IsBlank(text) {
          return;
        }
        ghost var started := BeginAssistant("", firstWord, spinner);
        ops := [started];
        S.RunOne(old(View()), old(Ideal()), started);
      }
      streamText := text;
      if !final && throttled {
        return;
      }
      ghost var redrawn := RenderStreamMarkdown(rendered, final);
      S.RunMore(old(View()), old(Ideal()), ops, redrawn);
      ops := ops + [redrawn];
    }

    method FinishAssistant(rendered: Option<seq<seq<Span>>>) returns (ghost ops: seq<S.Op<Line>>)
      requires Valid()
      modifies this
      ensures Valid() && streamStart.None? && streamText == ""
      ensures View() == S.RunView(old(View()), ops) && Ideal() == S.RunIdeal(old(Ideal()), ops)
      ensures old(streamStart).None? ==> ops == [S.Close]
      ensures old(streamStart).Some? ==>
                && |ops| == 2 && ops[0].Rerender? && ops[1] == S.Close
                && Faces([ops[0].first] + ops[0].rest) == StreamFaces(old(streamText), rendered, true)
                && GapFaces(ideal) == GapAfter(StreamFaces(old(streamText), rendered, true))
      ensures lastResponse == if old(streamText) != "" then old(streamText) else old(lastResponse)
      ensures cards == old(cards) && liveCards == old(liveCards) && historyStarted == old(historyStarted)
    {
      hide S.Refines, S.CardsSafe, S.StepView, S.StepIdeal, S.RunView, S.RunIdeal, Faces, GapFaces, StreamFaces;
      ops := [];
      S.RunNone(old(View()), old(Ideal()));
      if streamStart.Some? {
        ghost var redrawn := RenderStreamMarkdown(rendered, true);
        ops := [redrawn];
        S.RunOne(old(View()), old(Ideal()), redrawn);
      }
      if streamText != "" {
        lastResponse := streamText;
      }
      S.RunMore(old(View()), old(Ideal()), ops, S.Close);
      S.CloseRefines(View(), Ideal(), cards);
      streamStart := None;
      idealStart := None;
      streamText := "";
      ops := ops + [S.Close];
    }

    /** The guard of `AddToolCard`: a stream still open would later wipe the card. */
    method CloseOpenStream(rendered: Option<seq<seq<Span>>>) returns (ghost ops: seq<S.Op<Line>>)
      requires Valid()
      modifies this
      ensures Valid() && streamStart.None?
      ensures View() == S.RunView(old(View()), ops) && Ideal() == S.RunIdeal(old(Ideal()), ops)
      ensures old(streamStart).None? ==> ops == [] && unchanged(this)
      ensures old(streamStart).Some? ==>
                && |ops| == 2 && ops[0].Rerender? && ops[1] == S.Close
                && Faces([ops[0].first] + ops[0].rest) == StreamFaces(old(streamText), rendered, true)
                && GapFaces(ideal) == GapAfter(StreamFaces(old(streamText), rendered, true))
      ensures cards == old(cards) && liveCards == old(liveCards) && historyStarted == old(historyStarted)
    {
      hide S.Refines, S.CardsSafe, S.StepView, S.StepIdeal, S.RunView, S.RunIdeal, Faces, GapFaces, StreamFaces;
      ops := [];
      S.RunNone(old(View()), old(Ideal()));
      if streamStart.Some? {
        ops := FinishAssistant(rendered);
      }
    }

    method AppendCardLine(verb: string, target: string, frame: string)
      returns (handle: ToolCard, ghost gap: seq<Line>)
      modifies this`lines
      ensures fresh(gap) && fresh(handle) && fresh(handle.line) && lines == old(lines) + (gap + [handle.line])
      ensures Faces(gap) == old(GapFaces(lines)) && |gap| <= 1
      ensures forall l :: l in gap ==> l.face == Face("", CONVERSATION, None)
      ensures handle.ui == this && handle.verb == verb && handle.target == target && !handle.done
      ensures handle.line.face == CardFace(frame, "class:conversation.tool.spinner", verb, target, None)
    {
      hide CardFace;
      gap := AppendGap();
      assert |Faces(gap)| <= 1;
      var line := new Line(Face("", CONVERSATION, None));
      lines := lines + [line];
      handle := new ToolCard(this, line, verb, target);
      handle.Tick(frame, None);
    }

    /** A card appended with no stream open. */
    method AppendCard(verb: string, target: string, frame: string)
      returns (handle: ToolCard, ghost gap: seq<Line>)
      requires Valid() && streamStart.None?
      modifies this
      ensures Valid() && streamStart.None? && historyStarted == old(historyStarted)
      ensures View() == S.StepView(old(View()), S.Append(gap + [handle.line]))
      ensures Ideal() == S.StepIdeal(old(Ideal()), S.Append(gap + [handle.line]))
      ensures Faces(gap) == old(GapFaces(ideal)) && fresh(gap) && |gap| <= 1
      ensures forall l :: l in gap ==> l.face == Face("", CONVERSATION, None)
      ensures fresh(handle) && fresh(handle.line) && handle.ui == this && !handle.done
      ensures handle.verb == verb && handle.target == target
      ensures handle.line.face == CardFace(frame, "class:conversation.tool.spinner", verb, target, None)
      ensures lines != [] && lines[|lines| - 1] == handle.line
      ensures liveCards == old(liveCards) + [handle] && cards == old(cards) + {handle.line}
      ensures old(CardsLive()) ==> CardsLive()
    {
      hide S.Refines, S.CardsSafe, S.StepView, S.StepIdeal, S.RunView, S.RunIdeal, Faces, GapFaces, CardFace;
      ghost var v, i := View(), Ideal();
      SameGap(v, i);
      handle, gap := AppendCardLine(verb, target, frame);
      liveCards := liveCards + [handle];
      TrimAppended(v.lines, gap + [handle.line]);
      cards := cards + {handle.line};
      S.StartInRange(View(), Ideal());
      S.NoStreamIsSafe(Ideal(), cards);
    }

    method AddToolCard(verb: string, target: string, frame: string, rendered: Option<seq<seq<Span>>>)
      returns (handle: ToolCard, ghost closing: seq<S.Op<Line>>, ghost gap: seq<Line>)
      requires Valid()
      modifies this
      ensures Valid() && streamStart.None? && historyStarted
      ensures View() == S.RunView(old(View()), closing + [S.Append(gap + [handle.line])])
      ensures Ideal() == S.RunIdeal(old(Ideal()), closing + [S.Append(gap + [handle.line])])
      ensures old(streamStart).None? ==> closing == [] && Faces(gap) == old(GapFaces(ideal))
      ensures old(streamStart).Some? ==>
                && |closing| == 2 && closing[0].Rerender? && closing[1] == S.Close
                && Faces([closing[0].first] + closing[0].rest) == StreamFaces(old(streamText), rendered, true)
                && Faces(gap) == GapAfter(StreamFaces(old(streamText), rendered, true))
      ensures fresh(gap) && |gap| <= 1 && (forall l :: l in gap ==> l.face == Face("", CONVERSATION, None))
      ensures fresh(handle) && fresh(handle.line) && handle.ui == this && !handle.done
      ensures handle.verb == verb && handle.target == target
      ensures handle.line.face == CardFace(frame, "class:conversation.tool.spinner", verb, target, None)
      ensures lines != [] && lines[|lines| - 1] == handle.line
      ensures liveCards == old(liveCards) + [handle] && cards == old(cards) + {handle.line}
      ensures old(CardsLive()) ==> CardsLive()
    {
      hide S.Refines, S.CardsSafe, S.StepView, S.StepIdeal, S.RunView, S.RunIdeal, Faces, GapFaces, StreamFaces,
           CardFace;
      historyStarted := true;
      closing := CloseOpenStream(rendered);
      handle, gap := AppendCard(verb, target, frame);
      S.RunMore(old(View()), old(Ideal()), closing, S.Append(gap + [handle.line]));
    }

    method Clear()
      requires Valid()
      modifies this
      ensures Valid() && Did(S.Clear)
      ensures streamText == "" && lastResponse == "" && !historyStarted
      ensures cards == old(cards) && liveCards == old(liveCards)
    {
      lines := [];
      streamStart := None;
      streamText := "";
      lastResponse := "";
      scrollAnchor := None;
      historyStarted := false;
      ideal, idealStart := [], None;
    }

    // ---- scrolling ----

    method ScrollUp(n: nat)
      requires Valid()
      modifies this`scrollAnchor
      ensures Valid() && scrollAnchor.Some? && Did(S.Scroll(scrollAnchor))
      ensures lines != [] ==>
                var from := if old(scrollAnchor).Some? then old(scrollAnchor).value else |lines| - 1;
                scrollAnchor.value + n == from || (scrollAnchor.value == 0 && from < n)
    {
      var current: int := if scrollAnchor.Some? then scrollAnchor.value else |lines| - 1;
      scrollAnchor := Some(if current - n >= 0 then current - n else 0);
    }

    /** Scrolling down never passes the last line: it resumes following instead. */
    method ScrollDown(n: nat)
      requires Valid()
      modifies this`scrollAnchor
      ensures Valid() && Did(S.Scroll(scrollAnchor))
      ensures scrollAnchor.None? <==> old(scrollAnchor).None? || old(scrollAnchor).value + n >= |lines| - 1
      ensures scrollAnchor.Some? ==> scrollAnchor.value == old(scrollAnchor).value + n < |lines| - 1
    {
      if scrollAnchor.None? {
        return;
      }
      var newAnchor := scrollAnchor.value + n;
      if newAnchor >= |lines| - 1 {
        scrollAnchor := None;
      } else {
        scrollAnchor := Some(newAnchor);
      }
    }

    /** The rendering loop: every line in order, the marker right before line `anchor`. */
    method RenderLines(anchor: nat) returns (pieces: seq<Piece>)
      requires anchor < |lines|
      ensures pieces == BodyOf(Faces(lines), 0, anchor) + [Cursor] + BodyOf(Faces(lines), anchor, |lines|)
    {
      hide BodyPieces, SeparatorStyle, BodyOf, Faces;
      ghost var faces := Faces(lines);
      ghost var upper := BodyOf(faces, 0, anchor) + [Cursor];
      BodyEmpty(faces, 0);
      BodyEmpty(faces, anchor);
      pieces := [];
      for k := 0 to |lines|
        invariant k <= anchor ==> pieces == BodyOf(faces, 0, k)
        invariant anchor < k ==> pieces == upper + BodyOf(faces, anchor, k)
      {
        if k == anchor {
          pieces := pieces + [Cursor];
          assert pieces == upper + BodyOf(faces, anchor, k);
        }
        ghost var before := pieces;
        var face := lines[k].face;
        var step := BodyPieces(face);
        if k < |lines| - 1 {
          step := step + [Shown(Span(SeparatorStyle(face), "\n"))];
        }
        pieces := pieces + step;
        BodyStep(faces, if k < anchor then 0 else anchor, k);
        assert k >= anchor ==> pieces == upper + (BodyOf(faces, anchor, k) + step);
      }
    }

    /** A non-empty transcript shows all of its lines in order and exactly one cursor marker, placed
        right before the line the viewport is pinned to. */
    method RenderConversation() returns (shot: Shot)
      requires Valid()
      ensures lines == [] ==> shot == if historyStarted then Conversation([]) else Home
      ensures lines != [] ==>
                && shot.Conversation? && Cursors(shot.pieces) == 1
                && var at := S.CursorLine(View());
                   shot.pieces == BodyOf(Faces(lines), 0, at) + [Cursor] + BodyOf(Faces(lines), at, |lines|)
    {
      hide S.Refines, S.CardsSafe, Faces, Cursors;
      if lines == [] {
        return if historyStarted then Conversation([]) else Home;
      }
      var last := |lines| - 1;
      var anchor := if scrollAnchor.Some? then scrollAnchor.value else last;
      anchor := if anchor < last then anchor else last;
      var pieces := RenderLines(anchor);
      CursorOnce(BodyOf(Faces(lines), 0, anchor), BodyOf(Faces(lines), anchor, |lines|));
      shot := Conversation(pieces);
    }

    /** Resolve every card still running; afterwards none is live and each left one note line. */
    method CancelLiveCards(note: string)
      requires Valid() && CardsLive()
      modifies this, liveCards, set c | c in liveCards :: c.line
      ensures Valid() && liveCards == []
      ensures forall c :: c in old(liveCards) ==>
                c.done && c.line.face == CardFace("\U{25CF}", WARN, c.verb, c.target, None)
      ensures |ideal| == old(|ideal|) + old(|liveCards|)
      ensures old(ideal) <= ideal && idealStart == old(idealStart)
      ensures forall k :: old(|ideal|) <= k < |ideal| ==> fresh(ideal[k]) && ideal[k].face == NoteFace(note)
    {
      hide S.Refines, S.CardsSafe, S.StepView, NoteFace, CardFace;
      var handles := liveCards;
      for k := 0 to |handles|
        invariant Valid() && liveCards == handles[k..]
        invariant forall j :: 0 <= j < k ==> CancelledCard(handles[j])
        invariant forall j :: k <= j < |handles| ==> !handles[j].done
        invariant |ideal| == old(|ideal|) + k && old(ideal) <= ideal && idealStart == old(idealStart)
        invariant forall j :: old(|ideal|) <= j < |ideal| ==> fresh(ideal[j]) && ideal[j].face == NoteFace(note)
      {
        ghost var before := ideal;
        ghost var op := handles[k].Cancel(note);
        assert Faces(op.added)[0] == op.added[0].face;
        assert ideal == before + [op.added[0]];
      }
    }
  }

  /** A cancelled card is resolved and its line shows the warning bullet. */
  ghost predicate CancelledCard(c: ToolCard)
    reads c, c.line
  {
    c.done && c.line.face == CardFace("\U{25CF}", WARN, c.verb, c.target, None)
  }

  class ToolCard {
    const ui: Screen
    const line: Line
    const verb: string
    const target: string
    var done: bool

    constructor (ui: Screen, line: Line, verb: string, target: string)
      ensures this.ui == ui && this.line == line && this.verb == verb && this.target == target && !done
    {
      this.ui, this.line, this.verb, this.target := ui, line, verb, target;
      done := false;
    }

    method Tick(frame: string, elapsed: Option<string>)
      modifies line
      ensures line.face ==
              if done then old(line.face) else CardFace(frame, "class:conversation.tool.spinner", verb, target, elapsed)
    {
      if done {
        return;
      }
      line.face := CardFace(frame, "class:conversation.tool.spinner", verb, target, elapsed);
    }

    /** A resolved card shows its final bullet for good, leaves the live list and appends its summary;
        resolving it again changes nothing.  Its line is written wherever it is, trimmed away or not. */
    method Resolve(summary: seq<Span>, style: string) returns (ghost op: S.Op<Line>)
      requires ui.Valid()
      modifies this, line, ui
      ensures ui.Valid() && done && ui.Did(op) && op.Append? && fresh(op.added)
      ensures old(done) ==>
                op.added == [] && line.face == old(line.face) && ui.liveCards == old(ui.liveCards)
                && ui.historyStarted == old(ui.historyStarted)
      ensures !old(done) ==>
                && line.face == CardFace("\U{25CF}", style, verb, target, None)
                && Faces(op.added) == (if summary == [] then [] else SpanFaces([SummarySpans(summary)], SYSTEM))
                && ui.liveCards == RemoveFirst(old(ui.liveCards), this)
                && (old(ui.CardsLive()) ==> this !in ui.liveCards && ui.CardsLive())
      ensures ui.cards == old(ui.cards) && ui.streamText == old(ui.streamText)
      ensures ui.lastResponse == old(ui.lastResponse)
    {
      op := S.Append([]);
      assert ui.lines + [] == ui.lines && ui.ideal + [] == ui.ideal;
      if done {
        return;
      }
      done := true;
      line.face := CardFace("\U{25CF}", style, verb, target, None);
      if summary != [] {
        op := ui.AppendFragmentLines([SummarySpans(summary)]);
      }
      if Distinct(ui.liveCards) {
        RemoveFirstDistinct(ui.liveCards, this);
      }
      ui.liveCards := RemoveFirst(ui.liveCards, this);
    }

    /** Resolve with the warning note; a card already resolved is left alone. */
    method Cancel(note: string) returns (ghost op: S.Op<Line>)
      requires ui.Valid()
      modifies this, line, ui
      ensures ui.Valid() && done && ui.Did(op) && op.Append? && fresh(op.added)
      ensures old(done) ==>
                op.added == [] && line.face == old(line.face) && ui.liveCards == old(ui.liveCards)
                && ui.lines == old(ui.lines) && ui.ideal == old(ui.ideal)
                && ui.historyStarted == old(ui.historyStarted)
      ensures !old(done) ==>
                && ui.liveCards == RemoveFirst(old(ui.liveCards), this)
                && Faces(op.added) == [NoteFace(note)]
                && line.face == CardFace("\U{25CF}", WARN, verb, target, None)
                && (old(ui.CardsLive()) ==> ui.CardsLive())
      ensures ui.cards == old(ui.cards) && ui.streamText == old(ui.streamText)
      ensures ui.lastResponse == old(ui.lastResponse)
    {
      op := Resolve([Span(WARN, note)], WARN);
    }
  }
}
