/** The admin content manager: a type tab (materi, latsol or notes) and, for
    the first two, one of seven tables; the fetched rows with their uploader
    defaults; the running total; and the delete flows. */
module ContentManagement {
  import opened Js
  import opened Lists

  const MateriType: Str := "materi"
  const LatsolType: Str := "latsol"
  const NotesType: Str := "notes"
  const Pengguna: Str := "Pengguna"
  const AdminLabel: Str := "Admin"
  const PreviewLength: nat := 50

  /** The subtest labels, in the order both kinds list them. */
  const Labels: seq<Str> := ["LBE", "LBI", "PK", "PM", "PPU", "PU", "PBM"]

  datatype TableEntry = TableEntry(table: Str, caption: Str)

  const MateriTables: seq<TableEntry> := [
    TableEntry("materi_lbe", "LBE"), TableEntry("materi_lbi", "LBI"), TableEntry("materi_pk", "PK"),
    TableEntry("materi_pm", "PM"), TableEntry("materi_ppu", "PPU"), TableEntry("materi_pu", "PU"),
    TableEntry("materi_pbm", "PBM")]

  const LatsolTables: seq<TableEntry> := [
    TableEntry("latsol_lbe", "LBE"), TableEntry("latsol_lbi", "LBI"), TableEntry("latsol_pk", "PK"),
    TableEntry("latsol_pm", "PM"), TableEntry("latsol_ppu", "PPU"), TableEntry("latsol_pu", "PU"),
    TableEntry("latsol_pbm", "PBM")]

  predicate IsKind(t: Str)
  {
    t == MateriType || t == LatsolType
  }

  /** `CONTENT_TYPES[kind]`. */
  function TablesOf(kind: Str): (r: seq<TableEntry>)
    requires IsKind(kind)
    ensures |r| == 7
    ensures forall i :: 0 <= i < |r| ==> r[i].caption == Labels[i]
  {
    if kind == MateriType then MateriTables else LatsolTables
  }

  /** Each kind lists seven tables with the labels in the same order, and each
      table is named the kind, an underscore, and the lower-cased label. */
  lemma TableNaming(kind: Str)
    requires IsKind(kind)
    ensures |TablesOf(kind)| == |Labels| == 7
    ensures forall i :: 0 <= i < 7 ==>
      TablesOf(kind)[i].caption == Labels[i] && TablesOf(kind)[i].table == kind + "_" + ToLower(Labels[i])
  {
  }

  /** `getDisplayUploader`: 'Admin' for an admin's content, otherwise the
      uploader or 'Pengguna'. */
  function DisplayUploader(uploader: Option<Str>, isAdminContent: bool): (r: Str)
    ensures r != []
    ensures isAdminContent ==> r == AdminLabel
    ensures !isAdminContent && Truthy(uploader) ==> r == uploader.value
    ensures !isAdminContent && !Truthy(uploader) ==> r == Pengguna
  {
    if isAdminContent then AdminLabel else OrElse(uploader, Pengguna)
  }

  /** The uploader's profile as joined into a content row. */
  datatype ProfileJoin = ProfileJoin(username: Option<Str>, role: Option<Str>)

  datatype ContentRow = ContentRow(
    id: int, title: Str, description: Option<Str>, filePath: Option<Str>, createdAt: int,
    profiles: Option<ProfileJoin>)

  datatype NoteRow = NoteRow(id: int, content: Str, userId: Str, createdAt: int)

  /** A note row with the outcome of its author lookup (absent when the lookup
      failed or found nothing). */
  datatype NoteLookup = NoteLookup(note: NoteRow, profileUsername: Option<Str>)

  /** A row on screen, with its defaults applied. */
  datatype Entry =
    | NoteEntry(note: NoteRow, uploader: Str)
    | ItemEntry(item: ContentRow, uploader: Str, userRole: Str)

  /** A fetched materi or latsol row: uploader defaults to 'Pengguna' and
      role to 'user'. */
  function ProcessRow(item: ContentRow): (e: Entry)
    ensures e.ItemEntry? && e.item == item && e.uploader != [] && e.userRole != []
    ensures var u := if item.profiles.Some? then item.profiles.value.username else None;
      e.uploader == if Truthy(u) then u.value else Pengguna
    ensures var r := if item.profiles.Some? then item.profiles.value.role else None;
      e.userRole == if Truthy(r) then r.value else "user"
  {
    var username := if item.profiles.Some? then item.profiles.value.username else None;
    var role := if item.profiles.Some? then item.profiles.value.role else None;
    ItemEntry(item, OrElse(username, Pengguna), OrElse(role, "user"))
  }

  /** A fetched note: uploader defaults to 'Pengguna'. */
  function ProcessNote(n: NoteLookup): (e: Entry)
    ensures e.NoteEntry? && e.note == n.note && e.uploader != []
    ensures e.uploader == if Truthy(n.profileUsername) then n.profileUsername.value else Pengguna
  {
    NoteEntry(n.note, OrElse(n.profileUsername, Pengguna))
  }

  /** What a content card shows as its uploader: 'Admin' for rows whose
      joined role is 'admin'; otherwise the joined username, or 'Pengguna'
      when it is missing. */
  lemma CardUploader(item: ContentRow)
    ensures var e := ProcessRow(item);
      var shown := DisplayUploader(Some(e.uploader), e.userRole == "admin");
      && (item.profiles.Some? && item.profiles.value.role == Some("admin") ==> shown == AdminLabel)
      && (item.profiles.None? ==> shown == Pengguna)
      && (item.profiles.Some? && item.profiles.value.role != Some("admin") ==>
            shown == OrElse(item.profiles.value.username, Pengguna))
  {
  }

  function ProcessRows(items: seq<ContentRow>): (r: seq<Entry>)
    ensures |r| == |items|
    ensures forall i :: 0 <= i < |r| ==> r[i] == ProcessRow(items[i])
  {
    seq(|items|, i requires 0 <= i < |items| => ProcessRow(items[i]))
  }

  function ProcessNotes(notes: seq<NoteLookup>): (r: seq<Entry>)
    ensures |r| == |notes|
    ensures forall i :: 0 <= i < |r| ==> r[i] == ProcessNote(notes[i])
  {
    seq(|notes|, i requires 0 <= i < |notes| => ProcessNote(notes[i]))
  }

  /** Which query the fetch effect runs. */
  datatype FetchTarget = NotesQuery | TableQuery(table: Str)

  function Target(activeType: Str, activeTable: Str): (t: FetchTarget)
    ensures t.NotesQuery? <==> activeType == NotesType
    ensures t.TableQuery? ==> t.table == activeTable
  {
    if activeType == NotesType then NotesQuery else TableQuery(activeTable)
  }

  /** The note shown in the delete dialog: the first 50 characters, followed
      by '...' exactly when something was cut. */
  function DeletePreview(content: Str): (r: Str)
    ensures |content| <= PreviewLength ==> r == content
    ensures |content| > PreviewLength ==> r == content[..PreviewLength] + "..."
    ensures |r| <= PreviewLength + 3
  {
    Take(content, PreviewLength) + (if |content| > PreviewLength then "..." else "")
  }

  /** The steps of deleting a materi or latsol row. */
  datatype DeleteSteps = DeleteSteps(
    removeFile: Option<Str>, deleteRow: bool, warned: bool, refetch: bool, errorShown: bool)

  /** `handleDeleteContent`, given the dialog's answer and the outcomes of the
      storage removal and of the row delete: the stored file is removed first
      when there is one, a storage failure is only a warning, and the row
      delete runs regardless; only its failure is reported, and only its
      success refetches. */
  function DeleteContent(confirmed: bool, filePath: Option<Str>, storageFailed: bool, dbFailed: bool): (d: DeleteSteps)
    ensures d.removeFile.Some? <==> confirmed && Truthy(filePath)
    ensures d.removeFile.Some? ==> d.removeFile == filePath
    ensures d.deleteRow <==> confirmed
    ensures d.warned <==> d.removeFile.Some? && storageFailed
    ensures d.refetch <==> confirmed && !dbFailed
    ensures d.errorShown <==> confirmed && dbFailed
  {
    if !confirmed then DeleteSteps(None, false, false, false, false)
    else
      var remove := if Truthy(filePath) then filePath else None;
      DeleteSteps(remove, true, remove.Some? && storageFailed, !dbFailed, dbFailed)
  }

  /** `handleDeleteNote`: the content flow without a stored file. */
  function DeleteNote(confirmed: bool, dbFailed: bool): (d: DeleteSteps)
    ensures d == DeleteContent(confirmed, None, false, dbFailed)
    ensures d.refetch <==> confirmed && !dbFailed
  {
    DeleteSteps(None, confirmed, false, confirmed && !dbFailed, confirmed && dbFailed)
  }

  /** A storage failure never stops the row delete or its refetch. */
  lemma StorageFailureIsOnlyAWarning(filePath: Option<Str>, dbFailed: bool)
    ensures var a := DeleteContent(true, filePath, true, dbFailed);
      var b := DeleteContent(true, filePath, false, dbFailed);
      a.deleteRow == b.deleteRow && a.refetch == b.refetch && a.errorShown == b.errorShown
  {
  }

  /** The manager's state. */
  class ContentAdmin {
    var activeType: Str
    var activeTable: Str
    var contents: seq<Entry>
    var loading: bool
    var total: int

    /** The total always counts the rows on screen, and a materi or latsol tab
        always has one of its own tables selected. */
    predicate Valid()
      reads this
    {
      && total == |contents|
      && (IsKind(activeType) || activeType == NotesType)
      && (IsKind(activeType) ==> exists i :: 0 <= i < |TablesOf(activeType)| && TablesOf(activeType)[i].table == activeTable)
    }

    constructor ()
      ensures Valid()
      ensures activeType == MateriType && activeTable == "materi_lbe" && contents == [] && !loading && total == 0
    {
      activeType, activeTable, contents, loading, total := MateriType, "materi_lbe", [], false, 0;
      assert TablesOf(MateriType)[0].table == "materi_lbe";
    }

    /** `handleTypeChange(type)` for one of the three tabs: a kind tab selects
      its first table, the notes tab leaves the table as it was. */
    method HandleTypeChange(t: Str)
      requires Valid() && (IsKind(t) || t == NotesType)
      modifies this`activeType, this`activeTable
      ensures Valid() && activeType == t
      ensures IsKind(t) ==> activeTable == TablesOf(t)[0].table
      ensures t == NotesType ==> activeTable == old(activeTable)
    {
      activeType := t;
      if t != NotesType {
        activeTable := TablesOf(t)[0].table;
        assert TablesOf(t)[0].table == activeTable;
      }
    }

    /** `handleTableChange(table)` from one of the current kind's buttons. */
    method HandleTableChange(i: int)
      requires Valid() && IsKind(activeType) && 0 <= i < |TablesOf(activeType)|
      modifies this`activeTable
      ensures Valid() && activeTable == TablesOf(activeType)[i].table
    {
      activeTable := TablesOf(activeType)[i].table;
    }

    /** `fetchNotes`: a returned list (null reads as none) with uploader
      defaults; on error or exception the list and the total are cleared. */
    method FetchNotes(q: Fetch<Query<seq<NoteLookup>>>)
      requires Valid()
      modifies this`contents, this`total, this`loading
      ensures Valid() && !loading
      ensures contents ==
        if q.Threw? || q.value.error then []
        else ProcessNotes(if q.value.data.Some? then q.value.data.value else [])
    {
      if q.Threw? || q.value.error {
        contents := [];
      } else {
        contents := ProcessNotes(if q.value.data.Some? then q.value.data.value else []);
      }
      total := |contents|;
      loading := false;
    }

    /** `fetchContents` for the active table: the returned rows with
      defaults; on error, exception or a null result (which fails in `map`)
      the list and the total are cleared. */
    method FetchContents(q: Fetch<Query<seq<ContentRow>>>)
      requires Valid()
      modifies this`contents, this`total, this`loading
      ensures Valid() && !loading
      ensures contents ==
        if q.Threw? || q.value.error || q.value.data.None? then []
        else ProcessRows(q.value.data.value)
    {
      if q.Threw? || q.value.error || q.value.data.None? {
        contents := [];
      } else {
        contents := ProcessRows(q.value.data.value);
      }
      total := |contents|;
      loading := false;
    }
  }
}
