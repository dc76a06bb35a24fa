/** The session store (velune/cli/sessions.py), one file-system step at a time. */
module Sessions {
  import opened Optional
  import opened SessionDisk
  import opened Text

  /** A conversation snapshot from elsewhere, with whatever of its description came along. */
  datatype Exported = Exported(
    conversation: Option<seq<Turn>>,
    id: Option<string>,
    modelId: Option<string>,
    mode: Option<string>,
    title: Option<string>,
    tags: Option<seq<string>>,
    totalTokens: Option<int>,
    summary: Option<string>)

  datatype ImportResult = NoConversation | Imported(meta: Meta)

  datatype RenameResult = EmptyTitle | NotFound | Renamed(meta: Meta)

  /** Python's `a or b` on optional text. */
  function Or(a: Option<string>, b: string): string {
    if a.Some? && a.value != "" then a.value else b
  }

  function ImportDraft(data: Exported, workspace: string): Draft
    requires data.conversation.Some?
  {
    Draft(data.conversation.value, workspace, data.modelId.GetOr("unknown"), data.mode.GetOr("normal"), data.title,
          data.tags.GetOr([]), data.totalTokens.GetOr(0), data.summary)
  }

  class SessionStore {
    const naming: Naming
    var disk: Disk
    /** Every state the disk has been in since the store was opened. */
    ghost var trail: seq<Disk>

    constructor (naming: Naming, disk: Disk)
      ensures this.naming == naming && this.disk == disk && trail == []
    {
      this.naming, this.disk, trail := naming, disk, [];
    }

    method WriteText(p: Path, s: Snapshot)
      modifies this
      ensures disk == old(disk)[p := Whole(s)]
      ensures trail == old(trail) + [old(disk)[p := Torn], disk]
    {
      disk := disk[p := Torn];
      trail := trail + [disk];
      disk := disk[p := Whole(s)];
      trail := trail + [disk];
    }

    method Replace(tmp: Path, p: Path)
      requires tmp in disk && tmp != p
      modifies this
      ensures disk == old(disk)[p := old(disk)[tmp]] - {tmp}
      ensures trail == old(trail) + [disk]
    {
      disk := disk[p := disk[tmp]] - {tmp};
      trail := trail + [disk];
    }

    method Unlink(p: Path)
      requires p in disk
      modifies this
      ensures disk == old(disk) - {p}
      ensures trail == old(trail) + [disk]
    {
      disk := disk - {p};
      trail := trail + [disk];
    }

    method WriteWhole(p: Path, tmp: Path, s: Snapshot)
      requires p != tmp
      modifies this
      ensures trail == old(trail) + WriteSteps(old(disk), p, tmp, s)
      ensures disk == Last(old(disk), WriteSteps(old(disk), p, tmp, s))
    {
      WriteText(tmp, s);
      Replace(tmp, p);
      assert disk == old(disk)[p := Whole(s)] - {tmp};
    }

    method Load(p: Path) returns (found: Option<Snapshot>)
      ensures found == Read(disk, p)
    {
      if p !in disk {
        return None;
      }
      match disk[p] {
        case Whole(s) => found := Some(s);
        case Torn => found := None;
      }
    }

    method Save(session: Option<string>, minted: string, draft: Draft, now: string) returns (meta: Meta)
      modifies this
      ensures var id, known := Or(session, minted), Or(session, "") != "";
              && trail == old(trail) + SaveSteps(old(disk), naming, id, known, draft, now)
              && disk == Last(old(disk), SaveSteps(old(disk), naming, id, known, draft, now))
              && meta == Described(old(disk), naming, id, known, draft, now).meta
    {
      var id := Or(session, minted);
      var created, archived := now, false;
      if Or(session, "") != "" {
        var existing := Load(Session(id));
        if existing.Some? {
          created, archived := existing.value.meta.createdAt, existing.value.meta.archived;
        }
      }
      meta := Meta(id, Or(draft.title, naming.title(draft.conversation)), created, now, draft.workspace,
                   naming.project(draft.workspace), draft.modelId, draft.mode, draft.tags, draft.totalTokens,
                   |draft.conversation|, draft.summary, archived);
      WriteWhole(Session(id), SessionTmp(id), Snapshot(meta, draft.conversation));
    }

    method Autosave(id: string, draft: Draft, now: string)
      modifies this
      ensures trail == old(trail) + AutosaveSteps(old(disk), naming, id, draft, now)
      ensures disk == Last(old(disk), AutosaveSteps(old(disk), naming, id, draft, now))
    {
      WriteWhole(Guard(id), GuardTmp(id), Guarding(naming, id, draft, now));
    }

    method ClearAutosave(id: string)
      modifies this
      ensures trail == old(trail) + RemoveSteps(old(disk), Guard(id))
      ensures disk == Last(old(disk), RemoveSteps(old(disk), Guard(id)))
    {
      if Guard(id) in disk {
        Unlink(Guard(id));
      }
    }

    method DiscardAutosave(id: string) returns (gone: bool)
      modifies this
      ensures gone <==> Guard(id) in old(disk)
      ensures trail == old(trail) + RemoveSteps(old(disk), Guard(id))
      ensures disk == Last(old(disk), RemoveSteps(old(disk), Guard(id)))
    {
      if Guard(id) !in disk {
        return false;
      }
      Unlink(Guard(id));
      gone := true;
    }

    method RecoverAutosave(id: string, minted: string, now: string) returns (meta: Option<Meta>)
      modifies this
      ensures trail == old(trail) + RecoverSteps(old(disk), naming, id, minted, now)
      ensures disk == Last(old(disk), RecoverSteps(old(disk), naming, id, minted, now))
      ensures meta == (if Read(old(disk), Guard(id)).None? then None
                       else Some(Read(disk, Session(RecoveryId(id, minted))).value.meta))
    {
      var found := Load(Guard(id));
      if found.None? {
        return None;
      }
      var saved := Save(Some(id), minted, Recovering(found.value), now);
      ClearAutosave(id);
      meta := Some(saved);
    }

    method Delete(id: string) returns (gone: bool)
      modifies this
      ensures gone <==> Session(id) in old(disk)
      ensures trail == old(trail) + RemoveSteps(old(disk), Session(id))
      ensures disk == Last(old(disk), RemoveSteps(old(disk), Session(id)))
    {
      if Session(id) !in disk {
        return false;
      }
      Unlink(Session(id));
      gone := true;
    }

    method SetArchived(id: string, archived: bool) returns (ok: bool)
      modifies this
      ensures ok <==> Read(old(disk), Session(id)).Some?
      ensures trail == old(trail) + EditSteps(old(disk), id, Archiving(archived))
      ensures disk == Last(old(disk), EditSteps(old(disk), id, Archiving(archived)))
    {
      var found := Load(Session(id));
      if found.None? {
        return false;
      }
      WriteWhole(Session(id), SessionTmp(id),
                 Snapshot(found.value.meta.(archived := archived), found.value.conversation));
      ok := true;
    }

    method Rename(id: string, title: string) returns (result: RenameResult)
      modifies this
      ensures result.EmptyTitle? <==> Strip(title) == ""
      ensures result.NotFound? <==> Strip(title) != "" && Read(old(disk), Session(id)).None?
      ensures var steps := if result.EmptyTitle? then [] else EditSteps(old(disk), id, Titling(Strip(title)));
              trail == old(trail) + steps && disk == Last(old(disk), steps)
      ensures result.Renamed? ==>
                Read(disk, Session(id)) == Some(Read(old(disk), Session(id)).value.(meta := result.meta))
                                  && result.meta.title == Strip(title)
    {
      var stripped := Strip(title);
      if stripped == "" {
        return EmptyTitle;
      }
      var found := Load(Session(id));
      if found.None? {
        return NotFound;
      }
      var meta := found.value.meta.(title := stripped);
      WriteWhole(Session(id), SessionTmp(id), Snapshot(meta, found.value.conversation));
      result := Renamed(meta);
    }

    /** `minted` is the id drawn when the snapshot names none, `again` the one drawn on a collision. */
    method ImportSession(data: Exported, workspace: string, session: Option<string>, minted: string, again: string,
                         now: string)
      returns (result: ImportResult)
      requires minted != "" && again != ""
      modifies this
      ensures result.NoConversation? <==> data.conversation.None?
      ensures data.conversation.None? ==> trail == old(trail) && disk == old(disk)
      ensures data.conversation.Some? ==>
                var wanted := Or(session, Or(data.id, minted));
                var steps := ImportSteps(old(disk), naming, wanted, again, ImportDraft(data, workspace), now);
                && trail == old(trail) + steps && disk == Last(old(disk), steps)
                && result.meta.id == ImportId(old(disk), wanted, again)
    {
      if data.conversation.None? {
        return NoConversation;
      }
      var id := Or(session, Or(data.id, minted));
      var existing := Load(Session(id));
      if existing.Some? {
        id := again;
      }
      var meta := Save(Some(id), "", ImportDraft(data, workspace), now);
      result := Imported(meta);
    }
  }
}
