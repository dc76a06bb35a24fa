/**
 The session store as what it leaves on disk (velune/cli/sessions.py).  Every operation is a sequence of
 file-system steps, and a crash may fall between any two of them or in the middle of a write.
 */
module SessionDisk {
  import opened Optional

  datatype Turn = Turn(role: string, content: string)

  datatype Meta = Meta(
    id: string,
    title: string,
    createdAt: string,
    updatedAt: string,
    workspace: string,
    projectName: string,
    modelId: string,
    mode: string,
    tags: seq<string>,
    totalTokens: int,
    turnCount: nat,
    summary: Option<string>,
    archived: bool)

  datatype Snapshot = Snapshot(meta: Meta, conversation: seq<Turn>)

  /** `<id>.json`, its temporary sibling, and the same two in the autosave directory. */
  datatype Path = Session(id: string) | SessionTmp(id: string) | Guard(id: string) | GuardTmp(id: string)

  /** A file whose writing was interrupted cannot be parsed. */
  datatype Content = Torn | Whole(snapshot: Snapshot)

  type Disk = map<Path, Content>

  /** How titles and project names are derived. */
  datatype Naming = Naming(title: seq<Turn> -> string, project: string -> string)

  datatype Draft = Draft(
    conversation: seq<Turn>,
    workspace: string,
    modelId: string,
    mode: string,
    title: Option<string>,
    tags: seq<string>,
    totalTokens: int,
    summary: Option<string>)

  function Read(d: Disk, p: Path): Option<Snapshot> {
    if p in d && d[p].Whole? then Some(d[p].snapshot) else None
  }

  // ---- steps ----

  /** Write a temporary file, then move it over the target: the disk after each step. */
  function WriteSteps(d: Disk, p: Path, tmp: Path, s: Snapshot): seq<Disk> {
    [d[tmp := Torn], d[tmp := Whole(s)], d[p := Whole(s)] - {tmp}]
  }

  function Last(d: Disk, steps: seq<Disk>): Disk {
    if steps == [] then d else steps[|steps| - 1]
  }

  // ---- operations ----

  function Described(d: Disk, naming: Naming, id: string, known: bool, draft: Draft, now: string): (s: Snapshot)
    ensures s.conversation == draft.conversation
  {
    var existing := if known then Read(d, Session(id)) else None;
    Snapshot(
      Meta(id,
           if draft.title.Some? && draft.title.value != "" then draft.title.value
           else naming.title(draft.conversation),
           if existing.Some? then existing.value.meta.createdAt else now,
           now, draft.workspace, naming.project(draft.workspace), draft.modelId, draft.mode, draft.tags,
           draft.totalTokens, |draft.conversation|, draft.summary,
           existing.Some? && existing.value.meta.archived),
      draft.conversation)
  }

  /** `known` says the caller named the session; otherwise `id` has just been minted. */
  function SaveSteps(d: Disk, naming: Naming, id: string, known: bool, draft: Draft, now: string): seq<Disk> {
    WriteSteps(d, Session(id), SessionTmp(id), Described(d, naming, id, known, draft, now))
  }

  function Guarding(naming: Naming, id: string, draft: Draft, now: string): (s: Snapshot)
    ensures s.conversation == draft.conversation
  {
    Snapshot(Meta(id, naming.title(draft.conversation), now, now, draft.workspace, naming.project(draft.workspace),
                  draft.modelId, draft.mode, [], draft.totalTokens, |draft.conversation|, None, false),
             draft.conversation)
  }

  function AutosaveSteps(d: Disk, naming: Naming, id: string, draft: Draft, now: string): seq<Disk> {
    WriteSteps(d, Guard(id), GuardTmp(id), Guarding(naming, id, draft, now))
  }

  function RemoveSteps(d: Disk, p: Path): seq<Disk> {
    if p in d then [d - {p}] else []
  }

  /** The save a recovery makes: tags and summary are not carried over. */
  function Recovering(s: Snapshot): Draft {
    Draft(s.conversation, s.meta.workspace, s.meta.modelId, s.meta.mode, Some(s.meta.title), [], s.meta.totalTokens,
          None)
  }

  /** The session a sidecar is recovered into: an empty id counts as none, and a fresh one is minted. */
  function RecoveryId(id: string, minted: string): string {
    if id != "" then id else minted
  }

  function RecoverSteps(d: Disk, naming: Naming, id: string, minted: string, now: string): seq<Disk> {
    var found := Read(d, Guard(id));
    if found.None? then []
    else
      var saved := SaveSteps(d, naming, RecoveryId(id, minted), id != "", Recovering(found.value), now);
      saved + RemoveSteps(Last(d, saved), Guard(id))
  }

  function EditSteps(d: Disk, id: string, edit: Meta -> Meta): seq<Disk> {
    var found := Read(d, Session(id));
    if found.None? then []
    else WriteSteps(d, Session(id), SessionTmp(id), Snapshot(edit(found.value.meta), found.value.conversation))
  }

  function Archiving(archived: bool): Meta -> Meta {
    (m: Meta) => m.(archived := archived)
  }

  function Titling(title: string): Meta -> Meta {
    (m: Meta) => m.(title := title)
  }

  /** The id an import is stored under: the one it asks for, unless a session that can be read has it. */
  function ImportId(d: Disk, wanted: string, minted: string): string {
    if Read(d, Session(wanted)).Some? then minted else wanted
  }

  function ImportSteps(d: Disk, naming: Naming, wanted: string, minted: string, draft: Draft, now: string): seq<Disk> {
    SaveSteps(d, naming, ImportId(d, wanted, minted), true, draft, now)
  }

  datatype Op =
    | Save(id: string, known: bool, draft: Draft, now: string)
    | Autosave(id: string, draft: Draft, now: string)
    | ClearAutosave(id: string)
    | Recover(id: string, minted: string, now: string)
    | Discard(id: string)
    | Delete(id: string)
    | SetArchived(id: string, archived: bool)
    | Rename(id: string, title: string)
    | Import(wanted: string, minted: string, draft: Draft, now: string)

  function Steps(d: Disk, naming: Naming, op: Op): seq<Disk> {
    match op
    case Save(id, known, draft, now) => SaveSteps(d, naming, id, known, draft, now)
    case Autosave(id, draft, now) => AutosaveSteps(d, naming, id, draft, now)
    case ClearAutosave(id) => RemoveSteps(d, Guard(id))
    case Recover(id, minted, now) => RecoverSteps(d, naming, id, minted, now)
    case Discard(id) => RemoveSteps(d, Guard(id))
    case Delete(id) => RemoveSteps(d, Session(id))
    case SetArchived(id, archived) => EditSteps(d, id, Archiving(archived))
    case Rename(id, title) => EditSteps(d, id, Titling(title))
    case Import(wanted, minted, draft, now) => ImportSteps(d, naming, wanted, minted, draft, now)
  }

  /** The disk when the operation got `k` steps far; it completed if it had no more. */
  function After(d: Disk, naming: Naming, op: Op, k: nat): Disk {
    var steps := Steps(d, naming, op);
    if k == 0 || steps == [] then d
    else if k <= |steps| then steps[k - 1]
    else steps[|steps| - 1]
  }

  /** An operation and how far it gets. */
  datatype Event = Event(op: Op, reached: nat)

  function Run(d: Disk, naming: Naming, events: seq<Event>): Disk {
    if events == [] then d
    else
      var n := |events| - 1;
      After(Run(d, naming, events[..n]), naming, events[n].op, events[n].reached)
  }

  // ---- no file is ever seen half-written ----

  /** Every session and every sidecar can be read; only temporary files may be torn. */
  ghost predicate Readable(d: Disk) {
    forall p :: p in d && (p.Session? || p.Guard?) ==> d[p].Whole?
  }

  lemma OpReadable(d: Disk, naming: Naming, op: Op, k: nat)
    requires Readable(d)
    ensures Readable(After(d, naming, op, k))
  {
    hide Described, Guarding;
  }

  /** Whatever is run and wherever it crashes, no session and no sidecar is ever torn. */
  lemma {:induction false} RunReadable(d: Disk, naming: Naming, events: seq<Event>)
    requires Readable(d)
    ensures Readable(Run(d, naming, events))
  {
    hide Readable, After;
    if events != [] {
      var n := |events| - 1;
      RunReadable(d, naming, events[..n]);
      OpReadable(Run(d, naming, events[..n]), naming, events[n].op, events[n].reached);
    }
  }

  // ---- a guarded conversation is never lost ----

  /** The conversation that prevails under `id`: the sidecar's while there is one, be it older or newer than
      the session's, else the session's.  It is what a recovery leaves. */
  function Prevailing(d: Disk, id: string): Option<seq<Turn>> {
    var guarded, saved := Read(d, Guard(id)), Read(d, Session(id));
    if guarded.Some? then Some(guarded.value.conversation)
    else if saved.Some? then Some(saved.value.conversation)
    else None
  }

  /** The conversation is whole on disk, and no sidecar with another one overrides it. */
  ghost predicate Safe(d: Disk, id: string, conversation: seq<Turn>) {
    Prevailing(d, id) == Some(conversation)
  }

  /** Operations meant to replace or drop what is kept under `id`.  An import is one only if the minted id it
      falls back on is `id` itself; a recovery only if it goes by no id and moves to a minted one. */
  predicate Replaces(op: Op, id: string) {
    match op
    case Save(target, _, _, _) => target == id
    case Autosave(target, _, _) => target == id
    case ClearAutosave(target) => target == id
    case Discard(target) => target == id
    case Delete(target) => target == id
    case Import(_, minted, _, _) => minted == id
    case Recover(target, minted, _) => target == "" && (id == "" || minted == id)
    case _ => false
  }

  lemma OpSafe(d: Disk, naming: Naming, op: Op, k: nat, id: string, conversation: seq<Turn>)
    requires Safe(d, id, conversation) && !Replaces(op, id)
    ensures Safe(After(d, naming, op, k), id, conversation)
  {
    hide Guarding, Described;
    match op
    case Recover(target, minted, now) =>
      RecoverSafe(d, naming, target, minted, now, k, id, conversation);
    case _ =>
  }

  lemma RecoverSafe(d: Disk, naming: Naming, target: string, minted: string, now: string, k: nat, id: string,
                    conversation: seq<Turn>)
    requires Safe(d, id, conversation) && !Replaces(Recover(target, minted, now), id)
    ensures Safe(After(d, naming, Recover(target, minted, now), k), id, conversation)
  {
    hide Described;
  }

  /** The prevailing conversation survives any run of other operations, of its own recoveries, renames and
      archivings, each cut short anywhere. */
  lemma {:induction false} RunSafe(d: Disk, naming: Naming, events: seq<Event>, id: string, conversation: seq<Turn>)
    requires Safe(d, id, conversation)
    requires forall i :: 0 <= i < |events| ==> !Replaces(events[i].op, id)
    ensures Safe(Run(d, naming, events), id, conversation)
  {
    hide Safe, After, Replaces;
    if events != [] {
      var n := |events| - 1;
      RunSafe(d, naming, events[..n], id, conversation);
      OpSafe(Run(d, naming, events[..n]), naming, events[n].op, events[n].reached, id, conversation);
    }
  }

  /** A save makes its conversation prevail exactly when no sidecar with another one is left. */
  lemma SaveSafeIff(d: Disk, naming: Naming, id: string, known: bool, draft: Draft, now: string)
    ensures Safe(Last(d, SaveSteps(d, naming, id, known, draft, now)), id, draft.conversation) <==>
              Read(d, Guard(id)).None? || Read(d, Guard(id)).value.conversation == draft.conversation
  {
    hide Described;
  }

  /** A save followed by the removal of the sidecar, as on a clean exit, leaves the saved conversation; cut
      short anywhere, it leaves that or what prevailed before. */
  lemma CleanExit(d: Disk, naming: Naming, id: string, known: bool, draft: Draft, now: string, k: nat)
    ensures var saved := Last(d, SaveSteps(d, naming, id, known, draft, now));
            Safe(Last(saved, RemoveSteps(saved, Guard(id))), id, draft.conversation)
    ensures var cut := After(d, naming, Save(id, known, draft, now), k);
            Safe(cut, id, draft.conversation) || Prevailing(cut, id) == Prevailing(d, id)
  {
    hide Described;
  }

  // ---- an older sidecar wins ----

  /** A completed recovery leaves what prevailed. */
  lemma RecoveryLeavesPrevailing(d: Disk, naming: Naming, id: string, minted: string, now: string)
    requires id != "" && Prevailing(d, id).Some?
    ensures var after := Last(d, RecoverSteps(d, naming, id, minted, now));
            Read(after, Session(id)).Some? && Some(Read(after, Session(id)).value.conversation) == Prevailing(d, id)
  {
    hide Described;
  }

  /** A completed recovery keeps the conversation of the session it recovers into exactly when there is no
      sidecar to read, or the sidecar holds the same conversation. */
  lemma RecoveryKeepsSessionIff(d: Disk, naming: Naming, id: string, minted: string, now: string)
    requires id != "" && Read(d, Session(id)).Some?
    ensures var after := Last(d, RecoverSteps(d, naming, id, minted, now));
            && Read(after, Session(id)).Some?
            && (Read(after, Session(id)).value.conversation == Read(d, Session(id)).value.conversation <==>
                Read(d, Guard(id)).None?
                || Read(d, Guard(id)).value.conversation == Read(d, Session(id)).value.conversation)
  {
    hide Described;
    RecoveryLeavesPrevailing(d, naming, id, minted, now);
  }

  /** The sidecar can be the older of the two: after an autosave, a later save, a crash before the sidecar is
      removed, and a recovery, the session holds the older conversation and the newer one is nowhere. */
  lemma OlderSidecarWins(naming: Naming, id: string, older: Draft, newer: Draft, minted: string, now: string)
    requires id != "" && older.conversation != newer.conversation
    ensures var d := Run(map[], naming, [Event(Autosave(id, older, now), 3), Event(Save(id, true, newer, now), 3)]);
            && Read(d, Session(id)).Some? && Read(d, Session(id)).value.conversation == newer.conversation
            && var after := After(d, naming, Recover(id, minted, now), 4);
               && Read(after, Session(id)).Some?
               && Read(after, Session(id)).value.conversation == older.conversation
               && forall p :: p in after ==> p == Session(id)
  {
    hide Described, Guarding;
    var events := [Event(Autosave(id, older, now), 3), Event(Save(id, true, newer, now), 3)];
    assert events[..1] == [Event(Autosave(id, older, now), 3)] && events[..1][..0] == [];
    assert Run(map[], naming, []) == map[];
    var guarded := Run(map[], naming, events[..1]);
    assert guarded == map[Guard(id) := Whole(Guarding(naming, id, older, now))];
  }

  /** An autosave either leaves the sidecar it found or replaces it by the whole conversation. */
  lemma AutosaveAtomic(d: Disk, naming: Naming, id: string, draft: Draft, now: string, k: nat)
    ensures var after := After(d, naming, Autosave(id, draft, now), k);
            if k < 3 then Read(after, Guard(id)) == Read(d, Guard(id))
            else Safe(after, id, draft.conversation) && Read(after, Guard(id)) == Some(Guarding(naming, id, draft, now))
  {
    hide Guarding;
  }

  // ---- recovery ----

  ghost predicate SameElsewhere(d: Disk, after: Disk, changed: set<Path>) {
    forall p :: p !in changed ==> ((p in after <==> p in d) && (p in d ==> after[p] == d[p]))
  }

  /** A completed recovery keeps conversation, workspace, model, mode, tokens and a title that is not empty, keeps
      when an existing session was created and whether it is archived, drops tags and summary, and removes
      the sidecar.  Nothing else on disk changes but the session's temporary file. */
  lemma RecoverKeeps(d: Disk, naming: Naming, id: string, minted: string, now: string)
    requires Read(d, Guard(id)).Some?
    ensures var guarded := Read(d, Guard(id)).value;
            var target := RecoveryId(id, minted);
            var existing := if id != "" then Read(d, Session(target)) else None;
            var after := Last(d, RecoverSteps(d, naming, id, minted, now));
            && Guard(id) !in after && Read(after, Session(target)).Some?
            && var saved := Read(after, Session(target)).value;
               && saved.conversation == guarded.conversation
               && saved.meta.workspace == guarded.meta.workspace
               && saved.meta.modelId == guarded.meta.modelId
               && saved.meta.mode == guarded.meta.mode
               && saved.meta.totalTokens == guarded.meta.totalTokens
               && saved.meta.turnCount == |guarded.conversation|
               && saved.meta.title == (if guarded.meta.title != "" then guarded.meta.title
                                       else naming.title(guarded.conversation))
               && saved.meta.createdAt == (if existing.Some? then existing.value.meta.createdAt else now)
               && saved.meta.archived == (existing.Some? && existing.value.meta.archived)
               && saved.meta.tags == [] && saved.meta.summary == None
               && SameElsewhere(d, after, {Guard(id), Session(target), SessionTmp(target)})
  {
  }

  /** A recovery that crashes anywhere can simply be run again: the session then says what it would have said
      had the first attempt gone through, but for the times and a newly minted id. */
  lemma RecoverAgain(d: Disk, naming: Naming, id: string, minted: string, again: string, now: string, later: string,
                     k: nat)
    requires Read(d, Guard(id)).Some? && k < |RecoverSteps(d, naming, id, minted, now)|
    ensures var through := Read(Last(d, RecoverSteps(d, naming, id, minted, now)), Session(RecoveryId(id, minted)));
            var crashed := After(d, naming, Recover(id, minted, now), k);
            var retried := Last(crashed, RecoverSteps(crashed, naming, id, again, later));
            var target := RecoveryId(id, again);
            && through.Some? && Guard(id) !in retried && SessionTmp(target) !in retried
            && var outcome := Read(retried, Session(target));
               outcome.Some?
               && outcome.value == through.value.(meta := through.value.meta.(
                    id := target, createdAt := outcome.value.meta.createdAt, updatedAt := later))
  {
  }

  // ---- imports and edits ----

  /** An import replaces a session that can be read exactly when both the id it asks for and the minted one
      are taken by one; otherwise every such session is as it was, at every step.  A file that cannot be read
      does not stop it. */
  lemma ImportReplacesIff(d: Disk, naming: Naming, wanted: string, minted: string, draft: Draft, now: string, k: nat)
    ensures var target := ImportId(d, wanted, minted);
            var after := After(d, naming, Import(wanted, minted, draft, now), k);
            && (Read(d, Session(target)).Some? <==>
                Read(d, Session(wanted)).Some? && Read(d, Session(minted)).Some?)
            && SameElsewhere(d, after, {Session(target), SessionTmp(target)})
            && (k >= 3 ==> Read(after, Session(target)).Some?
                           && Read(after, Session(target)).value.conversation == draft.conversation
                           && Read(after, Session(target)).value.meta.workspace == draft.workspace)
            && (k < 3 ==> Read(after, Session(target)) == Read(d, Session(target)))
  {
  }

  lemma ImportNeverOverwrites(d: Disk, naming: Naming, wanted: string, minted: string, draft: Draft, now: string,
                              k: nat, id: string)
    requires Read(d, Session(minted)).None? && Read(d, Session(id)).Some?
    ensures Read(After(d, naming, Import(wanted, minted, draft, now), k), Session(id)) == Read(d, Session(id))
  {
    ImportReplacesIff(d, naming, wanted, minted, draft, now, k);
  }

  /** Renaming and archiving change one field of the session's description and nothing else. */
  lemma EditsTouchMeta(d: Disk, naming: Naming, id: string, title: string, archived: bool)
    requires Read(d, Session(id)).Some?
    ensures var was := Read(d, Session(id)).value;
            var renamed := Last(d, EditSteps(d, id, Titling(title)));
            var flagged := Last(d, EditSteps(d, id, Archiving(archived)));
            && Read(renamed, Session(id)) == Some(was.(meta := was.meta.(title := title)))
            && Read(flagged, Session(id)) == Some(was.(meta := was.meta.(archived := archived)))
            && SameElsewhere(d, renamed, {Session(id), SessionTmp(id)})
            && SameElsewhere(d, flagged, {Session(id), SessionTmp(id)})
  {
  }

  /** Saving over a session keeps when it was created and that it is archived. */
  lemma SaveKeepsBirth(d: Disk, naming: Naming, id: string, draft: Draft, now: string)
    requires Read(d, Session(id)).Some?
    ensures var was := Read(d, Session(id)).value.meta;
            var saved := Read(Last(d, SaveSteps(d, naming, id, true, draft, now)), Session(id));
            saved.Some? && saved.value.meta.createdAt == was.createdAt && saved.value.meta.archived == was.archived
            && saved.value.conversation == draft.conversation
  {
  }
}
