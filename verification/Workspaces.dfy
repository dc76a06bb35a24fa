/**
 The workspace registry (velune/cli/workspaces.py): an insertion-ordered dictionary of projects, listed by
 a counter that every use pushes up.
 */
module Workspaces {
  import opened Optional
  import opened StableSort
  import opened Text

  datatype Info = Info(
    name: string,
    path: string,
    lastOpened: string,
    isGit: bool,
    projectType: Option<string>,
    number: nat)

  datatype Entry = Entry(key: string, info: Info)

  /** The dictionary, in insertion order. */
  type Entries = seq<Entry>

  /** What the file system and the clock's format contribute. */
  datatype World = World(
    resolve: string -> string,
    keyOf: string -> string,
    nameOf: string -> string,
    lower: string -> string)

  /** A path and its resolved form have the same key. */
  ghost predicate Coherent(w: World) {
    forall path :: w.keyOf(w.resolve(path)) == w.keyOf(path)
  }

  // ---- the dictionary ----

  function Find(es: Entries, key: string): (k: nat)
    ensures k <= |es|
    ensures k < |es| ==> es[k].key == key
    ensures forall i :: 0 <= i < k ==> es[i].key != key
  {
    if es == [] || es[0].key == key then 0 else 1 + Find(es[1..], key)
  }

  function Put(es: Entries, key: string, info: Info): Entries {
    var k := Find(es, key);
    if k < |es| then es[k := Entry(key, info)] else es + [Entry(key, info)]
  }

  function Other(key: string): Entry -> bool {
    (e: Entry) => e.key != key
  }

  function Without(es: Entries, key: string): Entries {
    Filter(es, Other(key))
  }

  function Highest(es: Entries): nat {
    if es == [] then 0
    else
      var before, last := Highest(es[..|es| - 1]), es[|es| - 1].info.number;
      if last > before then last else before
  }

  /** Keys are distinct and come from the paths. */
  ghost predicate Valid(es: Entries, w: World) {
    && (forall i, j :: 0 <= i < j < |es| ==> es[i].key != es[j].key)
    && (forall i :: 0 <= i < |es| ==> es[i].key == w.keyOf(es[i].info.path))
  }

  /** Numbers are distinct, except that entries from before there were any all have 0. */
  ghost predicate Apart(es: Entries) {
    forall i, j :: 0 <= i < j < |es| && es[i].info.number > 0 ==> es[i].info.number != es[j].info.number
  }

  // ---- operations on the dictionary ----

  function Registered(es: Entries, w: World, path: string, now: string, isGit: bool, projectType: Option<string>)
    : Entries
  {
    var resolved := w.resolve(path);
    var name := if w.nameOf(resolved) != "" then w.nameOf(resolved) else resolved;
    Put(es, w.keyOf(resolved), Info(name, resolved, now, isGit, projectType, Highest(es) + 1))
  }

  function Touched(es: Entries, w: World, path: string, now: string, isGit: bool, projectType: Option<string>)
    : Entries
  {
    var k := Find(es, w.keyOf(path));
    if k < |es| then es[k := Entry(es[k].key, es[k].info.(lastOpened := now, number := Highest(es) + 1))]
    else Registered(es, w, path, now, isGit, projectType)
  }

  /** The first entry of that name, whatever its case. */
  function Named(es: Entries, w: World, name: string): (k: nat)
    ensures k <= |es|
    ensures k < |es| ==> w.lower(es[k].info.name) == w.lower(name)
    ensures forall i :: 0 <= i < k ==> w.lower(es[i].info.name) != w.lower(name)
  {
    if es == [] || w.lower(es[0].info.name) == w.lower(name) then 0 else 1 + Named(es[1..], w, name)
  }

  function Removed(es: Entries, w: World, name: string): Entries {
    var k := Named(es, w, name);
    if k < |es| then Without(es, w.keyOf(es[k].info.path)) else es
  }

  // ---- the listing ----

  /** `a` may be listed before `b`: higher number, or the same number and opened no earlier. */
  predicate Newer(a: Entry, b: Entry) {
    || a.info.number > b.info.number
    || (a.info.number == b.info.number && AtMost(b.info.lastOpened, a.info.lastOpened))
  }

  function Listed(es: Entries, alive: Entry -> bool): seq<Entry> {
    Sorted(Filter(es, alive), Newer)
  }

  lemma NewerRanks()
    ensures TotalPreorder(Newer)
  {
    forall a: Entry, b: Entry
      ensures Newer(a, b) || Newer(b, a)
    {
      AtMostTotal(a.info.lastOpened, b.info.lastOpened);
    }
    forall a: Entry, b: Entry, c: Entry | Newer(a, b) && Newer(b, c)
      ensures Newer(a, c)
    {
      if a.info.number == b.info.number == c.info.number {
        AtMostChain(c.info.lastOpened, b.info.lastOpened, a.info.lastOpened);
      }
    }
  }

  lemma {:induction false} HighestIs(es: Entries)
    ensures forall i :: 0 <= i < |es| ==> es[i].info.number <= Highest(es)
    ensures Highest(es) > 0 ==> exists i :: 0 <= i < |es| && es[i].info.number == Highest(es)
  {
    if es != [] {
      HighestIs(es[..|es| - 1]);
    }
  }

  // ---- the dictionary stays sound ----

  lemma PutValid(es: Entries, w: World, key: string, info: Info)
    requires Valid(es, w) && w.keyOf(info.path) == key
    ensures Valid(Put(es, key, info), w)
  {
    hide Find;
  }

  lemma PutApart(es: Entries, key: string, info: Info)
    requires Apart(es) && forall i :: 0 <= i < |es| && es[i].info.number > 0 ==> es[i].info.number != info.number
    ensures Apart(Put(es, key, info))
  {
    hide Find;
  }

  lemma PutNextApart(es: Entries, key: string, info: Info)
    requires Apart(es) && info.number > Highest(es)
    ensures Apart(Put(es, key, info))
  {
    hide Put;
    HighestIs(es);
    PutApart(es, key, info);
  }

  lemma WithoutApart(es: Entries, w: World, key: string)
    requires Valid(es, w) && Apart(es)
    ensures Apart(Without(es, key))
  {
    hide Filter, Find, Without;
    WithoutIs(es, key);
  }

  lemma {:induction false} KeepsAll(es: Entries, key: string)
    requires forall i :: 0 <= i < |es| ==> es[i].key != key
    ensures Without(es, key) == es
  {
    if es != [] {
      KeepsAll(es[..|es| - 1], key);
    }
  }

  lemma OnlyOne(e: Entry, p: Entry -> bool)
    ensures Filter([e], p) == if p(e) then [e] else []
  {
  }

  function CutOut(es: Entries, k: nat): Entries {
    if k < |es| then es[..k] + es[k + 1..] else es
  }

  lemma WithoutIs(es: Entries, key: string)
    requires forall i, j :: 0 <= i < j < |es| ==> es[i].key != es[j].key
    ensures Without(es, key) == CutOut(es, Find(es, key))
  {
    hide Filter, Find;
    var k := Find(es, key);
    KeepsAll(es[..k], key);
    if k < |es| {
      assert es == es[..k] + [es[k]] + es[k + 1..];
      KeepsAll(es[k + 1..], key);
      FilterJoin(es[..k] + [es[k]], es[k + 1..], Other(key));
      FilterJoin(es[..k], [es[k]], Other(key));
      OnlyOne(es[k], Other(key));
    } else {
      assert es == es[..k];
    }
  }

  lemma WithoutValid(es: Entries, w: World, key: string)
    requires Valid(es, w)
    ensures Valid(Without(es, key), w)
  {
    hide Filter, Find, Without;
    WithoutIs(es, key);
    CutOutValid(es, w, Find(es, key));
  }

  lemma CutOutValid(es: Entries, w: World, k: nat)
    requires Valid(es, w)
    ensures Valid(CutOut(es, k), w)
  {
  }

  lemma FilterAll(es: Entries, key: string)
    ensures forall e :: e in Without(es, key) <==> e in es && e.key != key
  {
    forall e: Entry {
      FilterMember(es, Other(key), e);
    }
  }

  // ---- the listing is a move-to-front list ----

  /** Putting `key` splits the dictionary around the new entry. */
  lemma PutSplits(es: Entries, key: string, info: Info) returns (a: Entries, b: Entries)
    requires forall i, j :: 0 <= i < j < |es| ==> es[i].key != es[j].key
    ensures Put(es, key, info) == a + [Entry(key, info)] + b && a + b == Without(es, key)
  {
    hide Filter, Find, Without;
    var k := Find(es, key);
    a, b := es[..k], if k < |es| then es[k + 1..] else [];
    WithoutIs(es, key);
    assert k == |es| ==> es == a;
  }

  lemma {:induction false} FiltersCommute(es: Entries, p: Entry -> bool, q: Entry -> bool)
    ensures Filter(Filter(es, p), q) == Filter(Filter(es, q), p)
  {
    if es != [] {
      var front, last := es[..|es| - 1], es[|es| - 1];
      FiltersCommute(front, p, q);
      FilterPush(Filter(front, p), last, q);
      FilterPush(Filter(front, q), last, p);
    }
  }

  lemma ListedWithout(es: Entries, key: string, alive: Entry -> bool)
    ensures Listed(Without(es, key), alive) == Without(Listed(es, alive), key)
  {
    hide Filter, Sorted, Newer;
    NewerRanks();
    FiltersCommute(es, Other(key), alive);
    SortedFilter(Filter(es, alive), Other(key), Newer);
  }

  lemma PutListed(es: Entries, w: World, key: string, info: Info, alive: Entry -> bool)
    requires Valid(es, w) && info.number > Highest(es)
    ensures Listed(Put(es, key, info), alive)
         == (if alive(Entry(key, info)) then [Entry(key, info)] else []) + Without(Listed(es, alive), key)
  {
    hide Filter, Sorted, Put, Without;
    var e := Entry(key, info);
    var a, b := PutSplits(es, key, info);
    NewerRanks();
    FilterJoin(a + [e], b, alive);
    FilterJoin(a, [e], alive);
    FilterJoin(a, b, alive);
    ListedWithout(es, key, alive);
    OnlyOne(e, alive);
    var x, y := Filter(a, alive), Filter(b, alive);
    if alive(e) {
      forall o | o in x + y
        ensures !Newer(o, e)
      {
        Outranked(es, key, info, a, b, alive, o);
      }
      SortedFirst(x, e, y, Newer);
    } else {
      assert x + [] + y == x + y;
    }
  }

  lemma Outranked(es: Entries, key: string, info: Info, a: Entries, b: Entries, alive: Entry -> bool, o: Entry)
    requires a + b == Without(es, key) && info.number > Highest(es)
    requires o in Filter(a, alive) + Filter(b, alive)
    ensures !Newer(o, Entry(key, info))
  {
    hide Filter, Without;
    FilterMember(a, alive, o);
    FilterMember(b, alive, o);
    assert o in a + b;
    FilterAll(es, key);
    HighestIs(es);
  }

  datatype Op =
    | Register(path: string, now: string, isGit: bool, projectType: Option<string>)
    | Touch(path: string, now: string, isGit: bool, projectType: Option<string>)
    | Remove(name: string)

  function Apply(es: Entries, w: World, op: Op): Entries {
    match op
    case Register(path, now, isGit, projectType) => Registered(es, w, path, now, isGit, projectType)
    case Touch(path, now, isGit, projectType) => Touched(es, w, path, now, isGit, projectType)
    case Remove(name) => Removed(es, w, name)
  }

  function Run(es: Entries, w: World, ops: seq<Op>): Entries {
    if ops == [] then es else Apply(Run(es, w, ops[..|ops| - 1]), w, ops[|ops| - 1])
  }

  /** What an operation does to a most-recently-used list of keys. */
  function Recency(keys: seq<string>, es: Entries, w: World, op: Op): seq<string> {
    match op
    case Register(path, _, _, _) => [w.keyOf(path)] + Filter(keys, IsNot(w.keyOf(path)))
    case Touch(path, _, _, _) => [w.keyOf(path)] + Filter(keys, IsNot(w.keyOf(path)))
    case Remove(name) =>
      var k := Named(es, w, name);
      if k < |es| then Filter(keys, IsNot(es[k].key)) else keys
  }

  function RunRecency(keys: seq<string>, es: Entries, w: World, ops: seq<Op>): seq<string> {
    if ops == [] then keys
    else
      var n := |ops| - 1;
      Recency(RunRecency(keys, es, w, ops[..n]), Run(es, w, ops[..n]), w, ops[n])
  }

  function IsNot(key: string): string -> bool {
    (k: string) => k != key
  }

  function Keys(es: Entries): (r: seq<string>)
    ensures |r| == |es|
  {
    seq(|es|, i requires 0 <= i < |es| => es[i].key)
  }

  lemma {:induction false} KeysWithout(es: Entries, key: string)
    ensures Keys(Without(es, key)) == Filter(Keys(es), IsNot(key))
  {
    if es != [] {
      var front := es[..|es| - 1];
      KeysWithout(front, key);
      assert Keys(es)[..|es| - 1] == Keys(front);
    }
  }

  function Alive(): Entry -> bool {
    (e: Entry) => true
  }

  lemma StepRefines(es: Entries, w: World, op: Op)
    requires Valid(es, w) && Coherent(w)
    ensures Valid(Apply(es, w, op), w)
    ensures Keys(Listed(Apply(es, w, op), Alive())) == Recency(Keys(Listed(es, Alive())), es, w, op)
  {
    hide Filter, Listed, Put, Valid;
    match op
    case Register(path, now, isGit, projectType) =>
      var info := RegisterPuts(es, w, path, now, isGit, projectType);
      PutRefines(es, w, path, info);
    case Touch(path, now, isGit, projectType) =>
      var info := TouchPuts(es, w, path, now, isGit, projectType);
      PutRefines(es, w, path, info);
    case Remove(name) =>
      var k := Named(es, w, name);
      if k < |es| {
        KeyIs(es, w, k);
        WithoutValid(es, w, es[k].key);
        ListedWithout(es, es[k].key, Alive());
        KeysWithout(Listed(es, Alive()), es[k].key);
      }
  }

  lemma StepApart(es: Entries, w: World, op: Op)
    requires Valid(es, w) && Apart(es) && Coherent(w)
    ensures Apart(Apply(es, w, op))
  {
    hide Filter, Put, Valid, Apart, Highest, Without;
    match op
    case Register(path, now, isGit, projectType) =>
      var info := RegisterPuts(es, w, path, now, isGit, projectType);
      PutNextApart(es, w.keyOf(path), info);
    case Touch(path, now, isGit, projectType) =>
      var info := TouchPuts(es, w, path, now, isGit, projectType);
      PutNextApart(es, w.keyOf(path), info);
    case Remove(name) =>
      var k := Named(es, w, name);
      if k < |es| {
        WithoutApart(es, w, w.keyOf(es[k].info.path));
      }
  }

  lemma KeyIs(es: Entries, w: World, k: nat)
    requires Valid(es, w) && k < |es|
    ensures w.keyOf(es[k].info.path) == es[k].key
  {
  }

  /** Both ways of using a workspace put an entry with the next number under its key. */
  lemma RegisterPuts(es: Entries, w: World, path: string, now: string, isGit: bool, projectType: Option<string>)
    returns (info: Info)
    requires Coherent(w)
    ensures info.number > Highest(es) && w.keyOf(info.path) == w.keyOf(path)
    ensures Registered(es, w, path, now, isGit, projectType) == Put(es, w.keyOf(path), info)
  {
    hide Put, Highest;
    var resolved := w.resolve(path);
    var name := if w.nameOf(resolved) != "" then w.nameOf(resolved) else resolved;
    info := Info(name, resolved, now, isGit, projectType, Highest(es) + 1);
  }

  lemma TouchPuts(es: Entries, w: World, path: string, now: string, isGit: bool, projectType: Option<string>)
    returns (info: Info)
    requires Coherent(w) && Valid(es, w)
    ensures info.number > Highest(es) && w.keyOf(info.path) == w.keyOf(path)
    ensures Touched(es, w, path, now, isGit, projectType) == Put(es, w.keyOf(path), info)
  {
    hide Highest;
    var k := Find(es, w.keyOf(path));
    if k < |es| {
      info := es[k].info.(lastOpened := now, number := Highest(es) + 1);
    } else {
      info := RegisterPuts(es, w, path, now, isGit, projectType);
    }
  }

  lemma PutRefines(es: Entries, w: World, path: string, info: Info)
    requires Valid(es, w) && info.number > Highest(es) && w.keyOf(info.path) == w.keyOf(path)
    ensures var after := Put(es, w.keyOf(path), info);
            && Valid(after, w)
            && Keys(Listed(after, Alive()))
               == [w.keyOf(path)] + Filter(Keys(Listed(es, Alive())), IsNot(w.keyOf(path)))
  {
    hide Filter, Listed, Put, Valid, Highest;
    var key := w.keyOf(path);
    PutValid(es, w, key, info);
    PutListed(es, w, key, info, Alive());
    KeysWithout(Listed(es, Alive()), key);
  }

  /** After any run of uses and removals the listing is the most-recently-used order of what was listed at the
      start, whatever the clock said; and numbers that did not clash never do. */
  lemma {:induction false} RunRefines(es: Entries, w: World, ops: seq<Op>)
    requires Valid(es, w) && Coherent(w)
    ensures Valid(Run(es, w, ops), w) && (Apart(es) ==> Apart(Run(es, w, ops)))
    ensures Keys(Listed(Run(es, w, ops), Alive())) == RunRecency(Keys(Listed(es, Alive())), es, w, ops)
  {
    hide Valid, Apart, Listed, Apply, Recency, Coherent;
    if ops != [] {
      var n := |ops| - 1;
      RunRefines(es, w, ops[..n]);
      if Apart(es) {
        StepApart(Run(es, w, ops[..n]), w, ops[n]);
      }
      StepRefines(Run(es, w, ops[..n]), w, ops[n]);
    }
  }

  /** Listed entries stand by number, so those written before numbers existed come last; among equals the
      later opened comes first.  Only entries whose path exists are listed, each of them once. */
  lemma ListedIs(es: Entries, alive: Entry -> bool)
    ensures forall i, j :: 0 <= i < j < |Listed(es, alive)| ==> Newer(Listed(es, alive)[i], Listed(es, alive)[j])
    ensures multiset(Listed(es, alive)) == multiset(Filter(es, alive))
    ensures forall e :: e in Listed(es, alive) <==> e in es && alive(e)
  {
    hide Newer, Filter, Sorted;
    NewerRanks();
    SortedOrdered(Filter(es, alive), Newer);
    SortedPermutes(Filter(es, alive), Newer);
    forall e: Entry
      ensures e in Listed(es, alive) <==> e in es && alive(e)
    {
      FilterMember(es, alive, e);
      assert e in Listed(es, alive) <==> e in multiset(Listed(es, alive));
    }
  }

  // ---- the file ----

  function Infos(es: Entries): (r: seq<Info>)
    ensures |r| == |es|
  {
    seq(|es|, i requires 0 <= i < |es| => es[i].info)
  }

  /** Reading the file: a later record with the same key takes the place of an earlier one. */
  function Loaded(infos: seq<Info>, w: World): Entries {
    if infos == [] then []
    else
      var last := infos[|infos| - 1];
      Put(Loaded(infos[..|infos| - 1], w), w.keyOf(last.path), last)
  }

  /** Whatever the file lists, what is read has one entry a key; numbers that differ in the file still do. */
  lemma {:induction false} LoadedValid(infos: seq<Info>, w: World)
    ensures Valid(Loaded(infos, w), w)
    ensures (forall i, j :: 0 <= i < j < |infos| && infos[i].number > 0 ==> infos[i].number != infos[j].number) ==>
              Apart(Loaded(infos, w))
    ensures forall e :: e in Loaded(infos, w) ==> e.info in infos
  {
    if infos != [] {
      var n := |infos| - 1;
      var before := Loaded(infos[..n], w);
      LoadedValid(infos[..n], w);
      hide Find, Valid, Apart;
      PutValid(before, w, w.keyOf(infos[n].path), infos[n]);
      assert infos == infos[..n] + [infos[n]];
      if forall i, j :: 0 <= i < j < |infos| && infos[i].number > 0 ==> infos[i].number != infos[j].number {
        forall i | 0 <= i < |before| && before[i].info.number > 0
          ensures before[i].info.number != infos[n].number
        {
          assert before[i] in before && before[i].info in infos[..n];
        }
        PutApart(before, w.keyOf(infos[n].path), infos[n]);
      }
    }
  }

  /** Closing and reopening the registry changes nothing. */
  lemma {:induction false} ReloadSame(es: Entries, w: World)
    requires Valid(es, w)
    ensures Loaded(Infos(es), w) == es
  {
    hide Valid, Put;
    if es != [] {
      var n := |es| - 1;
      LastPut(es, w);
      ReloadSame(es[..n], w);
      assert Infos(es)[..n] == Infos(es[..n]);
    }
  }

  lemma LastPut(es: Entries, w: World)
    requires Valid(es, w) && es != []
    ensures var n := |es| - 1;
            Valid(es[..n], w) && Put(es[..n], w.keyOf(es[n].info.path), es[n].info) == es
  {
    hide Find;
    var n := |es| - 1;
    assert Find(es[..n], es[n].key) == n;
  }

  // ---- the registry ----

  class WorkspaceRegistry {
    const world: World
    var entries: Entries
    var file: seq<Info>

    ghost predicate Sound()
      reads this
    {
      Valid(entries, world)
    }

    /** Reads the index it finds. */
    constructor (world: World, file: seq<Info>)
      ensures this.world == world && this.file == file && entries == Loaded(file, world) && Sound()
    {
      var es: Entries := [];
      for i := 0 to |file|
        invariant es == Loaded(file[..i], world)
      {
        assert file[..i + 1][..i] == file[..i];
        es := Put(es, world.keyOf(file[i].path), file[i]);
      }
      assert file[..|file|] == file;
      LoadedValid(file, world);
      this.world, this.file, entries := world, file, es;
    }

    method Persist()
      modifies this`file
      ensures file == Infos(entries)
    {
      file := Infos(entries);
    }

    method NextNumber() returns (n: nat)
      ensures n == Highest(entries) + 1
    {
      var highest := 0;
      for i := 0 to |entries|
        invariant highest == Highest(entries[..i])
      {
        assert entries[..i + 1][..i] == entries[..i];
        if entries[i].info.number > highest {
          highest := entries[i].info.number;
        }
      }
      assert entries[..|entries|] == entries;
      n := highest + 1;
    }

    method Register(path: string, now: string, isGit: bool, projectType: Option<string>) returns (info: Info)
      requires Sound() && Coherent(world)
      modifies this
      ensures Sound() && file == Infos(entries) && (Apart(old(entries)) ==> Apart(entries))
      ensures entries == Registered(old(entries), world, path, now, isGit, projectType)
      ensures info.path == world.resolve(path) && info.number == Highest(old(entries)) + 1
    {
      hide Valid, Apart, Listed, Put, Highest, Recency, Keys, Coherent;
      var resolved := world.resolve(path);
      var number := NextNumber();
      var name := if world.nameOf(resolved) != "" then world.nameOf(resolved) else resolved;
      info := Info(name, resolved, now, isGit, projectType, number);
      StepRefines(entries, world, Op.Register(path, now, isGit, projectType));
      if Apart(entries) {
        StepApart(entries, world, Op.Register(path, now, isGit, projectType));
      }
      entries := Put(entries, world.keyOf(resolved), info);
      Persist();
    }

    method Touch(path: string, now: string, isGit: bool, projectType: Option<string>)
      requires Sound() && Coherent(world)
      modifies this
      ensures Sound() && file == Infos(entries) && (Apart(old(entries)) ==> Apart(entries))
      ensures entries == Touched(old(entries), world, path, now, isGit, projectType)
    {
      hide Valid, Apart, Listed, Put, Highest, Recency, Keys, Coherent;
      StepRefines(entries, world, Op.Touch(path, now, isGit, projectType));
      if Apart(entries) {
        StepApart(entries, world, Op.Touch(path, now, isGit, projectType));
      }
      var k := Find(entries, world.keyOf(path));
      if k < |entries| {
        var number := NextNumber();
        var e := entries[k];
        entries := entries[k := Entry(e.key, e.info.(lastOpened := now, number := number))];
        Persist();
      } else {
        var _ := Register(path, now, isGit, projectType);
      }
    }

    method FindByName(name: string) returns (k: nat)
      ensures k == Named(entries, world, name)
    {
      k := 0;
      while k < |entries|
        invariant k <= |entries|
        invariant Named(entries, world, name) == k + Named(entries[k..], world, name)
        decreases |entries| - k
      {
        if world.lower(entries[k].info.name) == world.lower(name) {
          return;
        }
        assert entries[k..][1..] == entries[k + 1..];
        k := k + 1;
      }
    }

    method Remove(name: string) returns (found: bool)
      requires Sound() && Coherent(world)
      modifies this
      ensures Sound() && (Apart(old(entries)) ==> Apart(entries))
      ensures if found then file == Infos(entries) else entries == old(entries) && file == old(file)
      ensures found <==> Named(old(entries), world, name) < |old(entries)|
      ensures entries == Removed(old(entries), world, name)
    {
      var k := FindByName(name);
      if k == |entries| {
        return false;
      }
      StepRefines(entries, world, Op.Remove(name));
      if Apart(entries) {
        StepApart(entries, world, Op.Remove(name));
      }
      entries := Without(entries, world.keyOf(entries[k].info.path));
      Persist();
      found := true;
    }

    method List(alive: Entry -> bool) returns (listed: seq<Entry>)
      ensures listed == Listed(entries, alive)
    {
      var live: Entries := [];
      for i := 0 to |entries|
        invariant live == Filter(entries[..i], alive)
      {
        FilterPush(entries[..i], entries[i], alive);
        assert entries[..i + 1] == entries[..i] + [entries[i]];
        if alive(entries[i]) {
          live := live + [entries[i]];
        }
      }
      assert entries[..|entries|] == entries;
      listed := Sorted(live, Newer);
    }
  }
}
