/** The admin announcement editor: a modal that validates and trims its two
    fields, the insert-or-update choice on the payload's id, and the
    modal/edit-target state of the list. */
module AnnouncementManagement {
  import opened Js

  datatype Announcement = Announcement(id: int, title: Option<Str>, content: Option<Str>, createdAt: int)

  /** What the modal hands to the list: the edited row's id (absent when
      adding) and the trimmed fields. */
  datatype Payload = Payload(id: Option<int>, title: Str, content: Str)

  datatype Write = UpdateRow(id: int, title: Str, content: Str) | InsertRow(title: Str, content: Str)

  /** The modal's fields when it opens: the edited row's, or empty. */
  function InitialFields(initial: Option<Announcement>): (r: (Str, Str))
    ensures initial.None? ==> r == ([], [])
    ensures initial.Some? ==> r.0 == OrElse(initial.value.title, "") && r.1 == OrElse(initial.value.content, "")
  {
    if initial.Some? then (OrElse(initial.value.title, ""), OrElse(initial.value.content, "")) else ([], [])
  }

  /** The modal's submit: refused when either field is white space only;
      otherwise the trimmed fields and the edited row's id. */
  function ModalSubmit(title: Str, content: Str, initial: Option<Announcement>): (p: Option<Payload>)
    ensures p.None? <==> AllSpace(title) || AllSpace(content)
    ensures p.Some? ==>
      && p.value.title == Trim(title) && p.value.content == Trim(content)
      && p.value.title != [] && p.value.content != []
      && p.value.id == (if initial.Some? then Some(initial.value.id) else None)
  {
    if Trim(title) == [] || Trim(content) == [] then None
    else Some(Payload(if initial.Some? then Some(initial.value.id) else None, Trim(title), Trim(content)))
  }

  /** A payload with a truthy id updates that row; any other inserts. */
  function WriteFor(p: Payload): (w: Write)
    ensures w.UpdateRow? <==> TruthyId(p.id)
    ensures w.UpdateRow? ==> w == UpdateRow(p.id.value, p.title, p.content)
    ensures w.InsertRow? ==> w == InsertRow(p.title, p.content)
  {
    if TruthyId(p.id) then UpdateRow(p.id.value, p.title, p.content) else InsertRow(p.title, p.content)
  }

  /** Opening the modal on a row and saving it unchanged updates that row with
      its trimmed fields; opening it empty and filling it in inserts. */
  lemma EditSavesInPlace(a: Announcement)
    requires a.id != 0
    requires Truthy(a.title) && !AllSpace(a.title.value) && Truthy(a.content) && !AllSpace(a.content.value)
    ensures var f := InitialFields(Some(a));
      var p := ModalSubmit(f.0, f.1, Some(a));
      p.Some? && WriteFor(p.value) == UpdateRow(a.id, Trim(a.title.value), Trim(a.content.value))
  {
  }

  lemma AddInserts(title: Str, content: Str)
    requires !AllSpace(title) && !AllSpace(content)
    ensures var p := ModalSubmit(title, content, None);
      p.Some? && WriteFor(p.value) == InsertRow(Trim(title), Trim(content))
  {
  }

  /** The modal's own fields. */
  class AnnouncementForm {
    var title: Str
    var content: Str

    constructor ()
      ensures title == [] && content == []
    {
      title, content := [], [];
    }

    /** The effect run when the modal opens (or its row changes while open). */
    method Load(initial: Option<Announcement>)
      modifies this
      ensures (title, content) == InitialFields(initial)
    {
      var f := InitialFields(initial);
      title, content := f.0, f.1;
    }

    method SetTitle(t: Str)
      modifies this`title
      ensures title == t
    {
      title := t;
    }

    method SetContent(c: Str)
      modifies this`content
      ensures content == c
    {
      content := c;
    }

    /** The submit leaves the fields as they are. */
    method Submit(initial: Option<Announcement>) returns (p: Option<Payload>)
      ensures p == ModalSubmit(title, content, initial)
    {
      p := ModalSubmit(title, content, initial);
    }
  }

  /** The list's state. */
  class AnnouncementList {
    var announcements: seq<Announcement>
    var loading: bool
    var modalOpen: bool
    var editData: Option<Announcement>
    var saving: bool

    constructor ()
      ensures announcements == [] && loading && !modalOpen && editData.None? && !saving
    {
      announcements, loading, modalOpen, editData, saving := [], true, false, None, false;
    }

    /** `fetchAnnouncements`: an error or exception keeps the list, a null
      result empties it; loading ends in every case. */
    method FetchAnnouncements(q: Fetch<Query<seq<Announcement>>>)
      modifies this`announcements, this`loading
      ensures !loading
      ensures announcements ==
        if q.Threw? || q.value.error then old(announcements)
        else if q.value.data.Some? then q.value.data.value else []
    {
      if q.Returned? && !q.value.error {
        announcements := if q.value.data.Some? then q.value.data.value else [];
      }
      loading := false;
    }

    /** The edit button on a row. */
    method HandleEdit(a: Announcement)
      modifies this`editData, this`modalOpen
      ensures editData == Some(a) && modalOpen
    {
      editData := Some(a);
      modalOpen := true;
    }

    /** The add button. */
    method OpenAdd()
      modifies this`editData, this`modalOpen
      ensures editData.None? && modalOpen
    {
      editData := None;
      modalOpen := true;
    }

    /** The modal's close. */
    method Close()
      modifies this`editData, this`modalOpen
      ensures editData.None? && !modalOpen
    {
      modalOpen := false;
      editData := None;
    }

    /** `handleSubmit(payload)`, given the write's outcome and the refetch's:
      on success the list is refetched, the modal closes and the edit target
      is cleared; on failure neither happens. Saving ends in every case. */
    method HandleSubmit(p: Payload, writeFailed: bool, refetched: Fetch<Query<seq<Announcement>>>)
      returns (w: Write)
      modifies this
      ensures w == WriteFor(p) && !saving
      ensures writeFailed ==>
        && modalOpen == old(modalOpen) && editData == old(editData)
        && announcements == old(announcements) && loading == old(loading)
      ensures !writeFailed ==>
        && !modalOpen && editData.None? && !loading
        && announcements == if refetched.Threw? || refetched.value.error then old(announcements)
                            else if refetched.value.data.Some? then refetched.value.data.value else []
    {
      saving := true;
      w := WriteFor(p);
      if !writeFailed {
        FetchAnnouncements(refetched);
        modalOpen := false;
        editData := None;
      }
      saving := false;
    }

    /** `handleDelete(id)`: a confirmed delete that the backend accepts is
      followed by a refetch. */
    method HandleDelete(id: int, confirmed: bool, deleteFailed: bool, refetched: Fetch<Query<seq<Announcement>>>)
      returns (sent: Option<int>)
      modifies this`announcements, this`loading
      ensures sent == if confirmed then Some(id) else None
      ensures !(confirmed && !deleteFailed) ==> announcements == old(announcements) && loading == old(loading)
      ensures confirmed && !deleteFailed ==> !loading
      ensures confirmed && !deleteFailed ==>
        announcements == if refetched.Threw? || refetched.value.error then old(announcements)
                         else if refetched.value.data.Some? then refetched.value.data.value else []
    {
      sent := None;
      if confirmed {
        sent := Some(id);
        if !deleteFailed {
          FetchAnnouncements(refetched);
        }
      }
    }
  }
}
