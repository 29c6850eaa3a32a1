/** The shared notes board: notes live for 24 hours from creation, the board
    keeps only live ones, premium members add notes (prepended optimistically)
    and authors delete their own. */
module Notes {
  import opened Js
  import opened Lists
  import RoleContext

  const SecondMs := 1000
  const MinuteMs := 60_000
  const HourMs := 3_600_000
  const DayMs := 86_400_000
  const WeekMs := 604_800_000

  /** A note row as the board holds it: the backend row with the author's
      display name attached. */
  datatype Note = Note(id: int, userId: Str, content: Str, createdAt: int, username: Str)

  /** `getTimeRemaining`'s result: whole hours and the whole minutes beyond
      them, and the expiry instant. */
  datatype Remaining = Remaining(hours: int, minutes: int, expiresAt: int)

  /** `getTimeRemaining(createdAt)` at instant `now` (both in ms): null once
      the 24-hour lifetime is over, the boundary itself included. */
  function TimeRemaining(createdAt: int, now: int): (r: Option<Remaining>)
    ensures r.None? <==> createdAt + DayMs <= now
    ensures r.Some? ==>
      var rem := createdAt + DayMs - now;
      && r.value.expiresAt == createdAt + DayMs
      && 0 <= r.value.hours && 0 <= r.value.minutes < 60
      && r.value.hours * HourMs + r.value.minutes * MinuteMs <= rem
      && rem < r.value.hours * HourMs + (r.value.minutes + 1) * MinuteMs
      && (createdAt <= now ==> r.value.hours <= 24)
  {
    var expiresAt := createdAt + DayMs;
    var remaining := expiresAt - now;
    if remaining <= 0 then None
    else
      var hours := remaining / HourMs;
      var minutes := (remaining % HourMs) / MinuteMs;
      assert remaining == hours * HourMs + remaining % HourMs;
      assert remaining % HourMs == minutes * MinuteMs + (remaining % HourMs) % MinuteMs;
      Some(Remaining(hours, minutes, expiresAt))
  }

  /** `getTimeAgo`'s buckets. */
  datatype Ago = JustNow | MinutesAgo(n: int) | HoursAgo(n: int) | DaysAgo(n: int) | OnDate

  /** `getTimeAgo(date)` at instant `now`: the elapsed whole seconds, sorted
      into buckets of one minute, one hour, one day and one week. Stated here
      in milliseconds. */
  function TimeAgo(date: int, now: int): (r: Ago)
    ensures r.JustNow? <==> now - date < MinuteMs
    ensures r.MinutesAgo? ==> 1 <= r.n < 60 && r.n * MinuteMs <= now - date < (r.n + 1) * MinuteMs
    ensures r.HoursAgo? ==> 1 <= r.n < 24 && r.n * HourMs <= now - date < (r.n + 1) * HourMs
    ensures r.DaysAgo? ==> 1 <= r.n < 7 && r.n * DayMs <= now - date < (r.n + 1) * DayMs
    ensures r.OnDate? <==> WeekMs <= now - date
  {
    var diff := (now - date) / 1000;
    assert diff * 1000 <= now - date < diff * 1000 + 1000;
    if diff < 60 then JustNow
    else if diff < 3600 then
      var n := diff / 60;
      assert n * 60 <= diff < n * 60 + 60;
      MinutesAgo(n)
    else if diff < 86400 then
      var n := diff / 3600;
      assert n * 3600 <= diff < n * 3600 + 3600;
      HoursAgo(n)
    else if diff < 604800 then
      var n := diff / 86400;
      assert n * 86400 <= diff < n * 86400 + 86400;
      DaysAgo(n)
    else OnDate
  }

  /** A note is live while `getTimeRemaining` is not null. */
  predicate IsLive(n: Note, now: int): (b: bool)
    ensures b <==> now < n.createdAt + DayMs
  {
    TimeRemaining(n.createdAt, now).Some?
  }

  /** The filter the initial fetch and the auto-refresh both apply to a
      fetched batch: exactly the notes still live, in the batch's order. */
  function LiveNotes(batch: seq<Note>, now: int): (r: seq<Note>)
    ensures Sublist(r, batch)
    ensures forall n :: n in r <==> n in batch && now < n.createdAt + DayMs
  {
    Filter(batch, n => IsLive(n, now))
  }

  /** A note that has expired stays expired: filtering at one instant and then
      at a later one is filtering at the later one. */
  lemma LiveNotesLater(batch: seq<Note>, t1: int, t2: int)
    requires t1 <= t2
    ensures LiveNotes(LiveNotes(batch, t1), t2) == LiveNotes(batch, t2)
  {
    FilterFilter(batch, n => IsLive(n, t1), n => IsLive(n, t2), n => IsLive(n, t2));
  }

  /** Filtering an already filtered batch again at the same instant changes
      nothing. */
  lemma LiveNotesIdempotent(batch: seq<Note>, now: int)
    ensures LiveNotes(LiveNotes(batch, now), now) == LiveNotes(batch, now)
  {
    LiveNotesLater(batch, now, now);
  }

  /** The outcome of `handleAddNoteClick`. */
  datatype ClickResult = LoginPrompt | PremiumModal | NoteModal

  /** Login comes first, then premium access; only then does the note modal
      open. */
  function AddNoteClick(requiresLogin: bool, canAdd: bool): (r: ClickResult)
    ensures r == LoginPrompt <==> requiresLogin
    ensures r == PremiumModal <==> !requiresLogin && !canAdd
    ensures r == NoteModal <==> !requiresLogin && canAdd
  {
    if requiresLogin then LoginPrompt
    else if !canAdd then PremiumModal
    else NoteModal
  }

  /** With the provider's flags after any resolution: a guest is prompted to
      log in, only 'subs' and 'admin' reach the note modal, and every other
      signed-in role ('user', or an unrecognised one) is offered the premium
      modal. */
  lemma AddNoteClickAfterResolution(
      identity: Fetch<Option<RoleContext.AuthUser>>,
      profile: Fetch<Option<RoleContext.ProfileRow>>)
    ensures var r := RoleContext.Resolve(identity, profile);
      var c := RoleContext.Flags(r.user, r.role);
      var click := AddNoteClick(c.requiresLogin, c.canAddNotes);
      && (click == LoginPrompt <==> r.user.None?)
      && (click == PremiumModal <==>
            r.user.Some? && r.role != Some(RoleContext.SubsRole) && r.role != Some(RoleContext.AdminRole))
      && (r.role == Some(RoleContext.UserRole) ==> click == PremiumModal)
      && (click == NoteModal <==> r.role == Some(RoleContext.SubsRole) || r.role == Some(RoleContext.AdminRole))
  {
    RoleContext.ResolvedFlagsExclusive(identity, profile);
  }

  /** The author name of a freshly added note: the metadata's full name, else
      the e-mail's local part, else 'Pengguna'; never empty. */
  function AuthorName(u: RoleContext.AuthUser): (r: Str)
    ensures r != []
    ensures Truthy(u.fullName) ==> r == u.fullName.value
    ensures !Truthy(u.fullName) && u.email.Some? && BeforeAt(u.email.value) != [] ==>
              r == BeforeAt(u.email.value) && '@' !in r
    ensures !Truthy(u.fullName) && !Truthy(EmailLocalPart(u.email)) ==> r == "Pengguna"
  {
    OrElse(Or(u.fullName, EmailLocalPart(u.email)), "Pengguna")
  }

  /** `notes.filter(n => n.id !== id)`: every note with that id goes, the
      others stay in order. */
  function RemoveNote(notes: seq<Note>, id: int): (r: seq<Note>)
    ensures Sublist(r, notes)
    ensures forall n :: n in r <==> n in notes && n.id != id
  {
    Filter(notes, (n: Note) => n.id != id)
  }

  /** Deleting the note just prepended, when no other note shares its id,
      restores the list as it was before the add. */
  lemma RemoveUndoesPrepend(n: Note, notes: seq<Note>)
    requires forall m :: m in notes ==> m.id != n.id
    ensures RemoveNote([n] + notes, n.id) == notes
  {
    assert ([n] + notes)[1..] == notes;
    FilterAll(notes, (m: Note) => m.id != n.id);
  }

  /** The delete button is offered on a note exactly when its author is the
      board's `userId`. */
  predicate CanDelete(n: Note, userId: Option<Str>): (b: bool)
    ensures b ==> userId.Some? && userId.value == n.userId
    ensures userId.Some? && userId.value == n.userId ==> b
  {
    userId == Some(n.userId)
  }

  /** The row sent to the `notes` table. */
  datatype NoteInsert = NoteInsert(userId: Str, content: Str)

  datatype AddOutcome = Ignored | Refused | Failed | Added

  /** What the note modal passes on: nothing for white-space-only content,
      otherwise the trimmed content, which is a non-empty slice of the input
      that trimming again leaves as it is. */
  function SubmittedText(content: Str): (r: Option<Str>)
    ensures r.None? <==> AllSpace(content)
    ensures r.Some? ==> r.value == Trim(content)
    ensures r.Some? ==> r.value != [] && Trim(r.value) == r.value
    ensures r.Some? ==> exists k :: OccursAt(content, r.value, k)
  {
    var t := Trim(content);
    if t == [] then None
    else
      TrimIdempotent(content);
      Some(t)
  }

  /** The note modal's own `content` state. */
  class NoteComposer {
    var content: Str
    var open: bool

    constructor ()
      ensures content == [] && !open
    {
      content, open := [], false;
    }

    method Type(s: Str)
      modifies this`content
      ensures content == s
    {
      content := s;
    }

    /** The `open` prop changing; closing clears the draft. */
    method SetOpen(o: bool)
      modifies this
      ensures open == o
      ensures !o ==> content == []
      ensures o ==> content == old(content)
    {
      open := o;
      if !o {
        content := [];
      }
    }

    /** The form's submit: a white-space-only draft is refused and kept;
      otherwise the trimmed draft is handed on and the draft cleared. */
    method Submit() returns (submitted: Option<Str>)
      modifies this`content
      ensures submitted == SubmittedText(old(content))
      ensures submitted.Some? ==> content == []
      ensures submitted.None? ==> content == old(content)
    {
      submitted := SubmittedText(content);
      if submitted.Some? {
        content := [];
      }
    }
  }

  /** The board's state. */
  class NotesBoard {
    var notes: seq<Note>
    var loading: bool
    var dataReady: bool
    var modalOpen: bool
    var submitting: bool
    var currentUser: Option<RoleContext.AuthUser>
    var premiumModalOpen: bool
    var mounted: bool

    /** The state right after mounting: the first fetch is under way. */
    constructor ()
      ensures notes == [] && loading && !dataReady && !modalOpen && !submitting
      ensures currentUser.None? && !premiumModalOpen && mounted
    {
      notes, loading, dataReady, modalOpen, submitting := [], true, false, false, false;
      currentUser, premiumModalOpen, mounted := None, false, true;
    }

    /** `auth.getUser()` resolving. */
    method OnCurrentUser(u: Option<RoleContext.AuthUser>)
      modifies this`currentUser
      ensures currentUser == if mounted then u else old(currentUser)
    {
      if mounted {
        currentUser := u;
      }
    }

    /** The first fetch settling: the live notes of a returned batch replace
      the list, and the board is marked ready, both only while mounted; an
      error or exception only marks it ready. Loading ends in every case. */
    method OnInitialFetch(result: Fetch<Query<seq<Note>>>, now: int)
      modifies this
      ensures !loading && mounted == old(mounted)
      ensures dataReady == (old(dataReady) || mounted)
      ensures notes ==
        if mounted && result.Returned? && !result.value.error && result.value.data.Some?
        then LiveNotes(result.value.data.value, now) else old(notes)
      ensures modalOpen == old(modalOpen) && submitting == old(submitting)
      ensures currentUser == old(currentUser) && premiumModalOpen == old(premiumModalOpen)
    {
      if result.Returned? && !result.value.error {
        if mounted && result.value.data.Some? {
          notes := LiveNotes(result.value.data.value, now);
        }
      }
      if mounted {
        dataReady := true;
      }
      loading := false;
    }

    /** One auto-refresh tick: a returned batch without error replaces the list
      through the same live filter; anything else changes nothing. */
    method OnRefresh(result: Fetch<Query<seq<Note>>>, now: int)
      modifies this`notes
      ensures notes ==
        if result.Returned? && !result.value.error && result.value.data.Some?
        then LiveNotes(result.value.data.value, now) else old(notes)
    {
      if result.Returned? && !result.value.error && result.value.data.Some? {
        notes := LiveNotes(result.value.data.value, now);
      }
    }

    /** The "+ Bagikan" button. */
    method AddNoteClicked(requiresLogin: bool, canAdd: bool) returns (r: ClickResult)
      modifies this`premiumModalOpen, this`modalOpen
      ensures r == AddNoteClick(requiresLogin, canAdd)
      ensures premiumModalOpen == (old(premiumModalOpen) || r == PremiumModal)
      ensures modalOpen == (old(modalOpen) || r == NoteModal)
    {
      r := AddNoteClick(requiresLogin, canAdd);
      if r == PremiumModal {
        premiumModalOpen := true;
      } else if r == NoteModal {
        modalOpen := true;
      }
    }

    /** `handleAddNote(content)` at instant `now`, with the insert's outcome
      given: no effect without a user, a refusal without premium access, else
      an insert; when it succeeds the new note is prepended and the modal
      closes. */
    method AddNote(content: Str, userId: Option<Str>, canAdd: bool, insertFailed: bool, now: int)
      returns (outcome: AddOutcome, sent: Option<NoteInsert>)
      modifies this`notes, this`modalOpen, this`submitting
      ensures outcome == Ignored <==> !Truthy(userId) || currentUser.None?
      ensures outcome == Refused <==> Truthy(userId) && currentUser.Some? && !canAdd
      ensures sent.Some? <==> Truthy(userId) && currentUser.Some? && canAdd
      ensures sent.Some? ==> sent.value == NoteInsert(userId.value, content) && !submitting
      ensures sent.None? ==> submitting == old(submitting)
      ensures outcome == Added <==> sent.Some? && !insertFailed
      ensures outcome == Added ==>
        && notes == [Note(now, userId.value, content, now, AuthorName(currentUser.value))] + old(notes)
        && !modalOpen
      ensures outcome != Added ==> notes == old(notes) && modalOpen == old(modalOpen)
    {
      sent := None;
      if !Truthy(userId) || currentUser.None? {
        outcome := Ignored;
        return;
      }
      if !canAdd {
        outcome := Refused;
        return;
      }
      submitting := true;
      sent := Some(NoteInsert(userId.value, content));
      if insertFailed {
        outcome := Failed;
      } else {
        var note := Note(now, userId.value, content, now, AuthorName(currentUser.value));
        notes := [note] + notes;
        modalOpen := false;
        outcome := Added;
      }
      submitting := false;
    }

    /** `handleDeleteNote(id)`: after confirmation and a successful backend
      delete, every note with that id leaves the list. */
    method DeleteNote(id: int, confirmed: bool, deleteFailed: bool)
      modifies this`notes
      ensures notes == if confirmed && !deleteFailed then RemoveNote(old(notes), id) else old(notes)
    {
      if confirmed && !deleteFailed {
        notes := RemoveNote(notes, id);
      }
    }

    method CloseModal()
      modifies this`modalOpen
      ensures !modalOpen
    {
      modalOpen := false;
    }

    method Unmount()
      modifies this`mounted
      ensures !mounted
    {
      mounted := false;
    }
  }

  /** The note a successful add prepends belongs to the adder, who may
      therefore delete it, and it is live for the next 24 hours. */
  lemma AddedNoteIsOwnAndLive(u: RoleContext.AuthUser, userId: Str, content: Str, now: int, later: int)
    requires now <= later < now + DayMs
    ensures var n := Note(now, userId, content, now, AuthorName(u));
      CanDelete(n, Some(userId)) && IsLive(n, later) && !IsLive(n, now + DayMs)
  {
  }
}
