/** The command palette: what a query lists, in which order, and which row is selected
    (velune/cli/command_palette.py). */
module Palette {
  import opened Optional
  import opened StableSort
  import opened Text
  import Matching

  datatype Command = Command(name: string, aliases: seq<string>, terms: seq<string>, category: string, hidden: bool)

  datatype Row = Row(command: Command, score: int, group: string)

  const RECENT_GROUP := "Recent"
  const FAVORITES_GROUP := "Favorites"
  const MAX_RECENT_SHOWN := 5
  const CATEGORY_ORDER: seq<string> :=
    ["AI", "Execution", "Providers", "Models", "Projects", "Memory", "Tools", "MCP", "Resources", "Git", "Settings",
     "System"]

  function PlaceIn(order: seq<string>, group: string): (k: nat)
    ensures k <= |order|
  {
    if order == [] || order[0] == group then 0 else 1 + PlaceIn(order[1..], group)
  }

  // ---- scores ----

  function Contained(query: string, candidate: string, anywhere: bool, lower: string -> string): int {
    var q, c := lower(query), lower(candidate);
    if q == c then 1000
    else if q <= c then 500 - |c|
    else
      var k := Matching.IndexFrom(q, c, 0);
      if anywhere && k < |c| then 250 - k else 0
  }

  function Best(query: string, words: seq<string>, anywhere: bool, weight: int, lower: string -> string): int {
    if words == [] then 0
    else
      var last := Contained(query, words[|words| - 1], anywhere, lower) * weight;
      if |words| == 1 then last
      else
        var before := Best(query, words[..|words| - 1], anywhere, weight, lower);
        if last > before then last else before
  }

  function Max(a: int, b: int): int {
    if a >= b then a else b
  }

  /** Name and aliases by prefix, search terms anywhere. */
  function FieldScore(query: string, c: Command, lower: string -> string): int {
    if query == "" then 1
    else
      Max(Contained(query, c.name, false, lower) * 5,
          Max(Best(query, c.aliases, false, 5, lower), Best(query, c.terms, true, 4, lower)))
  }

  // ---- ranking ----

  /** What rows are sorted by: best score of the group, its place and name, own score, command name. */
  datatype Key = Key(best: int, place: nat, group: string, score: int, name: string)

  predicate Before(a: Key, b: Key) {
    if a.best != b.best then a.best > b.best
    else if a.place != b.place then a.place < b.place
    else if a.group != b.group then AtMost(a.group, b.group)
    else if a.score != b.score then a.score > b.score
    else AtMost(a.name, b.name)
  }

  lemma BeforeTotal(a: Key, b: Key)
    ensures Before(a, b) || Before(b, a)
  {
    AtMostTotal(a.group, b.group);
    AtMostTotal(a.name, b.name);
  }

  lemma BeforeChain(a: Key, b: Key, c: Key)
    requires Before(a, b) && Before(b, c)
    ensures Before(a, c)
  {
    if a.best == b.best == c.best && a.place == b.place == c.place {
      if a.group != b.group && b.group != c.group {
        AtMostChain(a.group, b.group, c.group);
        AtMostTotal(a.group, b.group);
      } else if a.group == b.group == c.group && a.score == b.score == c.score {
        AtMostChain(a.name, b.name, c.name);
      }
    }
  }

  /** The strongest match of a group. */
  function BestOf(rows: seq<Row>, group: string): int {
    if rows == [] then 0
    else
      var before, last := BestOf(rows[..|rows| - 1], group), rows[|rows| - 1];
      if last.group == group then Max(before, last.score) else before
  }

  function KeyOf(rows: seq<Row>, r: Row): Key {
    Key(BestOf(rows, r.group), PlaceIn(CATEGORY_ORDER, r.group), r.group, r.score, r.command.name)
  }

  function Ranking(rows: seq<Row>): (Row, Row) -> bool {
    (a: Row, b: Row) => Before(KeyOf(rows, a), KeyOf(rows, b))
  }

  lemma Ranks(rows: seq<Row>)
    ensures TotalPreorder(Ranking(rows))
  {
    hide Before, KeyOf;
    forall a: Row, b: Row
      ensures Ranking(rows)(a, b) || Ranking(rows)(b, a)
    {
      BeforeTotal(KeyOf(rows, a), KeyOf(rows, b));
    }
    forall a: Row, b: Row, c: Row | Ranking(rows)(a, b) && Ranking(rows)(b, c)
      ensures Ranking(rows)(a, c)
    {
      BeforeChain(KeyOf(rows, a), KeyOf(rows, b), KeyOf(rows, c));
    }
  }

  // ---- searching ----

  function NameHit(q: string, lower: string -> string): Command -> bool {
    (c: Command) => q <= lower(c.name)
  }

  /** The commands whose name starts with the query, or all of them when none does. */
  function Candidates(commands: seq<Command>, query: string, lower: string -> string): seq<Command> {
    var hits := Filter(commands, NameHit(lower(query), lower));
    if hits != [] then hits else commands
  }

  function Scored(candidates: seq<Command>, query: string, lower: string -> string): seq<Row> {
    if candidates == [] then []
    else
      var before, c := Scored(candidates[..|candidates| - 1], query, lower), candidates[|candidates| - 1];
      var score := FieldScore(query, c, lower);
      if score > 0 then before + [Row(c, score, c.category)] else before
  }

  function Found(commands: seq<Command>, query: string, lower: string -> string): seq<Row> {
    Scored(Candidates(commands, query, lower), query, lower)
  }

  function Search(commands: seq<Command>, query: string, lower: string -> string): seq<Row> {
    var rows := Found(commands, query, lower);
    Sorted(rows, Ranking(rows))
  }

  lemma {:induction false} BestOfIs(rows: seq<Row>, group: string)
    ensures forall i :: 0 <= i < |rows| && rows[i].group == group ==> rows[i].score <= BestOf(rows, group)
    ensures BestOf(rows, group) > 0 ==>
              exists i :: 0 <= i < |rows| && rows[i].group == group && rows[i].score == BestOf(rows, group)
    ensures BestOf(rows, group) >= 0
  {
    if rows != [] {
      var n := |rows| - 1;
      BestOfIs(rows[..n], group);
    }
  }

  lemma {:induction false} ScoredIs(candidates: seq<Command>, query: string, lower: string -> string)
    ensures forall r :: r in Scored(candidates, query, lower) <==>
              r.command in candidates && r.score == FieldScore(query, r.command, lower) > 0
              && r.group == r.command.category
  {
    hide FieldScore;
    if candidates != [] {
      var n := |candidates| - 1;
      ScoredIs(candidates[..n], query, lower);
      assert candidates == candidates[..n] + [candidates[n]];
    }
  }

  /** The rows are the commands that score, each as often as it is a candidate. */
  lemma SearchFinds(commands: seq<Command>, query: string, lower: string -> string)
    ensures multiset(Search(commands, query, lower)) == multiset(Found(commands, query, lower))
    ensures forall r :: r in Search(commands, query, lower) <==>
              r.command in Candidates(commands, query, lower) && r.score == FieldScore(query, r.command, lower) > 0
              && r.group == r.command.category
  {
    hide Sorted, Scored, FieldScore, Ranking, Candidates;
    var rows := Found(commands, query, lower);
    SortedPermutes(rows, Ranking(rows));
    ScoredIs(Candidates(commands, query, lower), query, lower);
    forall r: Row
      ensures r in Search(commands, query, lower) <==> r in rows
    {
      assert r in rows <==> r in multiset(rows);
      assert r in Search(commands, query, lower) <==> r in multiset(Search(commands, query, lower));
    }
  }

  /** When some name starts with the query, only such commands are listed. */
  lemma PrefixFirst(commands: seq<Command>, query: string, lower: string -> string, hit: Command, r: Row)
    requires hit in commands && lower(query) <= lower(hit.name) && r in Search(commands, query, lower)
    ensures lower(query) <= lower(r.command.name)
  {
    hide Filter, Search, FieldScore;
    SearchFinds(commands, query, lower);
    FilterMember(commands, NameHit(lower(query), lower), hit);
    FilterMember(commands, NameHit(lower(query), lower), r.command);
  }

  ghost predicate Grouped(rows: seq<Row>) {
    forall i, j, k :: 0 <= i < j < k < |rows| && rows[i].group == rows[k].group ==> rows[j].group == rows[i].group
  }

  /** Groups are contiguous, groups descend by their best score, and so do the rows inside a group. */
  lemma SearchOrder(commands: seq<Command>, query: string, lower: string -> string)
    ensures var rows, found := Search(commands, query, lower), Found(commands, query, lower);
            && Grouped(rows)
            && (forall i, j :: 0 <= i < j < |rows| ==>
                  BestOf(found, rows[i].group) >= BestOf(found, rows[j].group))
            && (forall i, j :: 0 <= i < j < |rows| && rows[i].group == rows[j].group ==> rows[i].score >= rows[j].score)
  {
    hide Sorted, Found, BestOf;
    var rows, found := Search(commands, query, lower), Found(commands, query, lower);
    Ranks(found);
    SortedOrdered(found, Ranking(found));
    forall i, j | 0 <= i < j < |rows|
      ensures Before(KeyOf(found, rows[i]), KeyOf(found, rows[j]))
    {
      assert Ranking(found)(rows[i], rows[j]);
    }
    forall i, j, k | 0 <= i < j < k < |rows| && rows[i].group == rows[k].group
      ensures rows[j].group == rows[i].group
    {
      AtMostTotal(rows[i].group, rows[j].group);
    }
  }

  /** The first row is the strongest match of all. */
  lemma FirstIsBest(commands: seq<Command>, query: string, lower: string -> string, r: Row)
    requires r in Search(commands, query, lower)
    ensures r.score <= Search(commands, query, lower)[0].score
  {
    hide Search, Found, FieldScore, BestOf, Candidates;
    var rows, found := Search(commands, query, lower), Found(commands, query, lower);
    SearchFinds(commands, query, lower);
    SearchOrder(commands, query, lower);
    var first := rows[0];
    SameMembers(rows, found);
    BestOfIs(found, first.group);
    BestOfIs(found, r.group);
    assert first in rows;
    var i :| 0 <= i < |found| && found[i] == first;
    assert BestOf(found, first.group) > 0;
    var m :| 0 <= m < |found| && found[m].group == first.group && found[m].score == BestOf(found, first.group);
    var k :| 0 <= k < |rows| && rows[k] == found[m];
    var n :| 0 <= n < |found| && found[n] == r;
    var p :| 0 <= p < |rows| && rows[p] == r;
  }

  lemma SameMembers(a: seq<Row>, b: seq<Row>)
    requires multiset(a) == multiset(b)
    ensures forall r :: r in a <==> r in b
  {
    forall r: Row
      ensures r in a <==> r in b
    {
      assert r in a <==> r in multiset(a);
      assert r in b <==> r in multiset(b);
    }
  }

  // ---- browsing ----

  /** The command of that name; a later one hides an earlier one. */
  function Lookup(commands: seq<Command>, name: string): Option<Command> {
    if commands == [] then None
    else if commands[|commands| - 1].name == name then Some(commands[|commands| - 1])
    else Lookup(commands[..|commands| - 1], name)
  }

  /** The commands behind a list of names, names that mean nothing left out. */
  function Rows(names: seq<string>, commands: seq<Command>, group: string): seq<Row> {
    if names == [] then []
    else
      var before := Rows(names[..|names| - 1], commands, group);
      var c := Lookup(commands, names[|names| - 1]);
      if c.Some? then before + [Row(c.value, 1, group)] else before
  }

  function Among(names: seq<string>): string -> bool {
    (n: string) => n in names
  }

  function NotAmong(names: seq<string>): string -> bool {
    (n: string) => n !in names
  }

  /** The rows of commands that are neither pinned nor recent. */
  function Rest(commands: seq<Command>, shown: seq<string>): seq<Row> {
    if commands == [] then []
    else
      var before, c := Rest(commands[..|commands| - 1], shown), commands[|commands| - 1];
      if c.name in shown then before else before + [Row(c, 1, c.category)]
  }

  function RecentShown(recent: seq<string>, favorites: seq<string>): seq<string> {
    Filter(if |recent| <= MAX_RECENT_SHOWN then recent else recent[..MAX_RECENT_SHOWN], NotAmong(favorites))
  }

  predicate InAlphabet(a: string, b: string) {
    AtMost(a, b)
  }

  /** Key of a row in the browsing view: place and name of its group, then its own name. */
  predicate ByCategory(a: Row, b: Row) {
    Before(Key(0, PlaceIn(CATEGORY_ORDER, a.group), a.group, 0, a.command.name),
           Key(0, PlaceIn(CATEGORY_ORDER, b.group), b.group, 0, b.command.name))
  }

  function Browse(commands: seq<Command>, recent: seq<string>, favorites: seq<string>): seq<Row> {
    var latest := RecentShown(recent, favorites);
    Rows(Sorted(favorites, InAlphabet), commands, FAVORITES_GROUP)
    + Rows(latest, commands, RECENT_GROUP)
    + Sorted(Rest(commands, latest + favorites), ByCategory)
  }

  ghost predicate NamesDiffer(commands: seq<Command>) {
    forall i, j :: 0 <= i < j < |commands| ==> commands[i].name != commands[j].name
  }

  function Shows(c: Command): Row -> bool {
    (r: Row) => r.command == c
  }

  /** How often a command stands among rows. */
  function Times(rows: seq<Row>, c: Command): nat {
    |Filter(rows, Shows(c))|
  }

  function Is(name: string): string -> bool {
    (n: string) => n == name
  }

  /** How often a name stands in a list. */
  function Mentions(names: seq<string>, name: string): nat {
    |Filter(names, Is(name))|
  }

  lemma {:induction false} LookupIs(commands: seq<Command>, c: Command)
    requires NamesDiffer(commands) && c in commands
    ensures Lookup(commands, c.name) == Some(c)
  {
    var n := |commands| - 1;
    if commands[n] != c {
      assert commands == commands[..n] + [commands[n]];
      var k :| 0 <= k < n && commands[k] == c;
      assert commands[..n][k] == c;
      LookupIs(commands[..n], c);
    }
  }

  lemma {:induction false} LookupFinds(commands: seq<Command>, name: string)
    ensures Lookup(commands, name).Some? ==>
              Lookup(commands, name).value in commands && Lookup(commands, name).value.name == name
  {
    if commands != [] && commands[|commands| - 1].name != name {
      LookupFinds(commands[..|commands| - 1], name);
    }
  }

  lemma SameName(commands: seq<Command>, a: Command, b: Command)
    requires NamesDiffer(commands) && a in commands && b in commands
    ensures a.name == b.name <==> a == b
  {
    LookupIs(commands, a);
    LookupIs(commands, b);
  }

  lemma NothingFiltered(p: string -> bool)
    ensures Filter([], p) == []
  {
  }

  lemma NothingShown(c: Command)
    ensures Times([], c) == 0
  {
  }

  lemma {:induction false} RowsTimes(names: seq<string>, commands: seq<Command>, group: string, c: Command)
    requires NamesDiffer(commands) && c in commands
    ensures Times(Rows(names, commands, group), c) == Mentions(names, c.name)
  {
    if names != [] {
      var n := |names| - 1;
      var before, found := Rows(names[..n], commands, group), Lookup(commands, names[n]);
      assert names == names[..n] + [names[n]];
      hide Filter, Lookup, NamesDiffer;
      RowsTimes(names[..n], commands, group, c);
      LookupFinds(commands, names[n]);
      LookupIs(commands, c);
      FilterPush(names[..n], names[n], Is(c.name));
      if found.Some? {
        FilterPush(before, Row(found.value, 1, group), Shows(c));
        SameName(commands, found.value, c);
      }
    } else {
      NothingFiltered(Is(c.name));
      NothingShown(c);
    }
  }

  lemma {:induction false} RestTimes(commands: seq<Command>, shown: seq<string>, c: Command)
    requires NamesDiffer(commands)
    ensures Times(Rest(commands, shown), c) == if c in commands && c.name !in shown then 1 else 0
  {
    hide Filter;
    if commands != [] {
      var n := |commands| - 1;
      assert commands == commands[..n] + [commands[n]];
      RestTimes(commands[..n], shown, c);
      FilterPush(Rest(commands[..n], shown), Row(commands[n], 1, commands[n].category), Shows(c));
    } else {
      NothingShown(c);
    }
  }

  lemma {:induction false} MentionsOnce(names: seq<string>, name: string)
    requires Matching.NoRepeats(names)
    ensures Mentions(names, name) == if name in names then 1 else 0
  {
    hide Filter;
    if names != [] {
      var n := |names| - 1;
      assert names == names[..n] + [names[n]];
      MentionsOnce(names[..n], name);
      FilterPush(names[..n], names[n], Is(name));
    } else {
      NothingFiltered(Is(name));
    }
  }

  lemma AlphabetRanks()
    ensures TotalPreorder(InAlphabet)
  {
    forall a: string, b: string
      ensures InAlphabet(a, b) || InAlphabet(b, a)
    {
      AtMostTotal(a, b);
    }
    forall a: string, b: string, c: string | InAlphabet(a, b) && InAlphabet(b, c)
      ensures InAlphabet(a, c)
    {
      AtMostChain(a, b, c);
    }
  }

  lemma CategoriesRank()
    ensures TotalPreorder(ByCategory)
  {
    forall a: Row, b: Row
      ensures ByCategory(a, b) || ByCategory(b, a)
    {
      BeforeTotal(Key(0, PlaceIn(CATEGORY_ORDER, a.group), a.group, 0, a.command.name),
                  Key(0, PlaceIn(CATEGORY_ORDER, b.group), b.group, 0, b.command.name));
    }
    forall a: Row, b: Row, c: Row | ByCategory(a, b) && ByCategory(b, c)
      ensures ByCategory(a, c)
    {
      BeforeChain(Key(0, PlaceIn(CATEGORY_ORDER, a.group), a.group, 0, a.command.name),
                  Key(0, PlaceIn(CATEGORY_ORDER, b.group), b.group, 0, b.command.name),
                  Key(0, PlaceIn(CATEGORY_ORDER, c.group), c.group, 0, c.command.name));
    }
  }

  lemma {:induction false} FilteredNoRepeats(names: seq<string>, p: string -> bool)
    requires Matching.NoRepeats(names)
    ensures Matching.NoRepeats(Filter(names, p))
  {
    hide Filter;
    if names != [] {
      var n := |names| - 1;
      assert names == names[..n] + [names[n]];
      FilteredNoRepeats(names[..n], p);
      FilterPush(names[..n], names[n], p);
      FilterMember(names[..n], p, names[n]);
    } else {
      NothingFiltered(p);
    }
  }

  lemma SortedMentions(names: seq<string>, name: string)
    ensures Mentions(Sorted(names, InAlphabet), name) == Mentions(names, name)
  {
    hide Filter, Sorted, InAlphabet;
    AlphabetRanks();
    SortedFilter(names, Is(name), InAlphabet);
  }

  lemma SortedTimes(rows: seq<Row>, c: Command)
    ensures Times(Sorted(rows, ByCategory), c) == Times(rows, c)
  {
    hide Filter, Sorted, ByCategory;
    CategoriesRank();
    SortedFilter(rows, Shows(c), ByCategory);
  }

  lemma RecentShownIs(recent: seq<string>, favorites: seq<string>)
    requires Matching.NoRepeats(recent)
    ensures Matching.NoRepeats(RecentShown(recent, favorites))
    ensures forall n :: n in RecentShown(recent, favorites) ==> n !in favorites
  {
    hide Filter;
    var shown := if |recent| <= MAX_RECENT_SHOWN then recent else recent[..MAX_RECENT_SHOWN];
    FilteredNoRepeats(shown, NotAmong(favorites));
    forall n | n in RecentShown(recent, favorites)
      ensures n !in favorites
    {
      FilterMember(shown, NotAmong(favorites), n);
    }
  }

  /** Browsing lists every visible command exactly once: pinned ones first, then recent ones, then the rest. */
  lemma BrowseOnce(commands: seq<Command>, recent: seq<string>, favorites: seq<string>, c: Command)
    requires NamesDiffer(commands) && Matching.NoRepeats(recent) && Matching.NoRepeats(favorites)
    ensures c in commands ==> Times(Browse(commands, recent, favorites), c) == 1
    ensures c in commands ==>
              && (c.name in favorites ==> Times(Rows(Sorted(favorites, InAlphabet), commands, FAVORITES_GROUP), c) == 1)
              && (c.name in RecentShown(recent, favorites) ==>
                    Times(Rows(RecentShown(recent, favorites), commands, RECENT_GROUP), c) == 1)
  {
    hide Filter, Sorted, Rows, Rest, RecentShown, NamesDiffer, Mentions;
    if c in commands {
      var latest := RecentShown(recent, favorites);
      RecentShownIs(recent, favorites);
      var a := Rows(Sorted(favorites, InAlphabet), commands, FAVORITES_GROUP);
      var b := Rows(latest, commands, RECENT_GROUP);
      var rest := Rest(commands, latest + favorites);
      FilterJoin(a + b, Sorted(rest, ByCategory), Shows(c));
      FilterJoin(a, b, Shows(c));
      RowsTimes(Sorted(favorites, InAlphabet), commands, FAVORITES_GROUP, c);
      SortedMentions(favorites, c.name);
      MentionsOnce(favorites, c.name);
      RowsTimes(latest, commands, RECENT_GROUP, c);
      MentionsOnce(latest, c.name);
      RestTimes(commands, latest + favorites, c);
      SortedTimes(rest, c);
    }
  }

  /** With the eight-command memory of the completer as the source of recent names nothing is asked of it. */
  lemma BrowseAfterUses(commands: seq<Command>, uses: seq<string>, favorites: seq<string>, c: Command)
    requires NamesDiffer(commands) && Matching.NoRepeats(favorites) && c in commands
    ensures Times(Browse(commands, Matching.Recent(uses), favorites), c) == 1
  {
    hide Browse, Times;
    Matching.RecentIsHistory(uses);
    BrowseOnce(commands, Matching.Recent(uses), favorites, c);
  }

  // ---- the model ----

  function Listing(commands: seq<Command>, query: string, recent: seq<string>, favorites: seq<string>,
                   lower: string -> string): seq<Row>
  {
    if query == "" then Browse(commands, recent, favorites) else Search(commands, query, lower)
  }

  function Visible(): Command -> bool {
    (c: Command) => !c.hidden
  }

  class CommandPaletteModel {
    var commands: seq<Command>
    var selectedIndex: nat
    var lastQuery: Option<string>

    constructor (commands: seq<Command>)
      ensures this.commands == Filter(commands, Visible()) && selectedIndex == 0 && lastQuery == None
    {
      this.commands, selectedIndex, lastQuery := Filter(commands, Visible()), 0, None;
    }

    method SetCommands(commands: seq<Command>)
      modifies this
      ensures this.commands == Filter(commands, Visible()) && selectedIndex == 0 && lastQuery == None
    {
      this.commands, selectedIndex, lastQuery := Filter(commands, Visible()), 0, None;
    }

    /** The rows for a query; the selection starts over when the query has changed and stays on a row. */
    method Matches(query: string, recent: seq<string>, favorites: seq<string>, lower: string -> string)
      returns (rows: seq<Row>)
      modifies this`selectedIndex, this`lastQuery
      ensures rows == Listing(commands, query, recent, favorites, lower)
      ensures lastQuery == Some(query)
      ensures rows == [] ==> selectedIndex == 0
      ensures rows != [] ==> selectedIndex < |rows|
      ensures old(lastQuery) != Some(query) ==> selectedIndex == 0
      ensures old(lastQuery) == Some(query) && old(selectedIndex) < |rows| ==> selectedIndex == old(selectedIndex)
      ensures old(lastQuery) == Some(query) && 0 < |rows| <= old(selectedIndex) ==> selectedIndex == |rows| - 1
    {
      if lastQuery != Some(query) {
        selectedIndex := 0;
        lastQuery := Some(query);
      }
      rows := Listing(commands, query, recent, favorites, lower);
      if rows == [] {
        selectedIndex := 0;
      } else if selectedIndex > |rows| - 1 {
        selectedIndex := |rows| - 1;
      }
    }

    /** Moving wraps round at both ends. */
    method Move(query: string, amount: int, recent: seq<string>, favorites: seq<string>, lower: string -> string)
      modifies this`selectedIndex, this`lastQuery
      ensures var n := |Listing(commands, query, recent, favorites, lower)|;
              && (n == 0 ==> selectedIndex == 0)
              && (n > 0 ==> selectedIndex < n)
              && (old(lastQuery) == Some(query) && old(selectedIndex) < n ==>
                    selectedIndex == (old(selectedIndex) + amount) % n)
      ensures lastQuery == Some(query)
    {
      var rows := Matches(query, recent, favorites, lower);
      if rows != [] {
        selectedIndex := (selectedIndex + amount) % |rows|;
      }
    }

    method Selected(query: string, recent: seq<string>, favorites: seq<string>, lower: string -> string)
      returns (command: Option<Command>)
      modifies this`selectedIndex, this`lastQuery
      ensures var rows := Listing(commands, query, recent, favorites, lower);
              && (rows == [] ==> command == None)
              && (rows != [] ==> selectedIndex < |rows| && command == Some(rows[selectedIndex].command))
    {
      var rows := Matches(query, recent, favorites, lower);
      command := if rows == [] then None else Some(rows[selectedIndex].command);
    }
  }

  // ---- the drawn window ----

  /** First drawn row of a list of `total` rows of which `limit` fit. */
  function WindowStart(total: nat, selected: nat, limit: nat): int {
    if total <= limit then 0
    else
      var centred := Max(0, selected - limit / 2);
      if centred <= total - limit then centred else total - limit
  }

  /** The selected row is drawn, the window is full when it can be, and it does not run over the end. */
  lemma WindowShowsSelection(total: nat, selected: nat, limit: nat)
    requires selected < total && limit > 0
    ensures var start := WindowStart(total, selected, limit);
            && 0 <= start <= selected < start + limit
            && (total >= limit ==> start + limit <= total)
            && (total <= limit ==> start == 0)
  {
  }
}
