/** The admin feedback list: a time-window filter around a cutoff one week
    back, a case-insensitive search, the weekly count, and delete followed
    by a refetch. */
module FeedbackManagement {
  import opened Js
  import opened Lists

  const DayMs := 86_400_000
  const Recent: Str := "recent"
  const Older: Str := "older"
  const All: Str := "all"

  datatype Feedback = Feedback(
    id: int, message: Option<Str>, username: Option<Str>, email: Option<Str>, createdAt: int)

  /** The instant one week before `now`: the date moved back seven days, taken
      here as seven times 24 hours. */
  function Cutoff(now: int): (c: int)
    ensures now - c == 7 * DayMs
  {
    now - 7 * DayMs
  }

  /** The time-window test: 'recent' keeps entries at or after the cutoff,
      'older' those before it, and any other filter value keeps all. */
  predicate InWindow(f: Feedback, filter: Str, cutoff: int): (b: bool)
    ensures filter == Recent || filter == Older ==> (b <==> ((filter == Recent) <==> f.createdAt >= cutoff))
    ensures filter != Recent && filter != Older ==> b
  {
    if filter == Recent then f.createdAt >= cutoff
    else if filter == Older then f.createdAt < cutoff
    else true
  }

  /** The search test: an empty search keeps all; otherwise the text must
      occur, ignoring ASCII case, in the message, the username or the e-mail. */
  predicate MatchesSearch(f: Feedback, query: Str): (b: bool)
    ensures query == [] ==> b
    ensures query != [] && b ==>
      || (f.message.Some? && Includes(ToLower(f.message.value), ToLower(query)))
      || (f.username.Some? && Includes(ToLower(f.username.value), ToLower(query)))
      || (f.email.Some? && Includes(ToLower(f.email.value), ToLower(query)))
  {
    query == [] ||
    IncludesIgnoringCase(f.message, query) || IncludesIgnoringCase(f.username, query)
    || IncludesIgnoringCase(f.email, query)
  }

  /** An entry is listed when it lies in the time window and matches the
      search; the two tests are independent. */
  predicate KeepFeedback(f: Feedback, filter: Str, query: Str, cutoff: int): (b: bool)
    ensures b ==> InWindow(f, filter, cutoff) && MatchesSearch(f, query)
    ensures InWindow(f, filter, cutoff) && MatchesSearch(f, query) ==> b
  {
    InWindow(f, filter, cutoff) && MatchesSearch(f, query)
  }

  /** `filteredFeedbacks`: the kept entries in list order; the "Total" figure
      is its length. */
  function FilteredFeedbacks(fs: seq<Feedback>, filter: Str, query: Str, cutoff: int): (r: seq<Feedback>)
    ensures Sublist(r, fs) && |r| <= |fs|
    ensures forall f :: f in r <==> f in fs && KeepFeedback(f, filter, query, cutoff)
  {
    Filter(fs, (f: Feedback) => KeepFeedback(f, filter, query, cutoff))
  }

  /** The "Minggu Ini" figure: every entry at or after the cutoff, whatever the
      search and the time filter. */
  function WeeklyCount(fs: seq<Feedback>, cutoff: int): (n: nat)
    ensures n <= |fs|
  {
    |Filter(fs, (f: Feedback) => f.createdAt >= cutoff)|
  }

  /** For any search text, 'recent' and 'older' split the 'all' list. */
  lemma RecentOlderPartition(fs: seq<Feedback>, query: Str, cutoff: int)
    ensures |FilteredFeedbacks(fs, Recent, query, cutoff)| + |FilteredFeedbacks(fs, Older, query, cutoff)|
            == |FilteredFeedbacks(fs, All, query, cutoff)|
  {
    FilterSplit(fs,
      (f: Feedback) => KeepFeedback(f, All, query, cutoff),
      (f: Feedback) => KeepFeedback(f, Recent, query, cutoff),
      (f: Feedback) => KeepFeedback(f, Older, query, cutoff));
  }

  /** The weekly figure is what the 'recent' filter shows with no search. */
  lemma WeeklyCountIsRecent(fs: seq<Feedback>, cutoff: int)
    ensures WeeklyCount(fs, cutoff) == |FilteredFeedbacks(fs, Recent, "", cutoff)|
  {
    FilterCongruent(fs,
      (f: Feedback) => f.createdAt >= cutoff,
      (f: Feedback) => KeepFeedback(f, Recent, "", cutoff));
  }

  /** With no search, the 'all' filter lists everything, and so does any
      filter value other than 'recent' and 'older'. */
  lemma UnfilteredListsAll(fs: seq<Feedback>, filter: Str, cutoff: int)
    requires filter != Recent && filter != Older
    ensures FilteredFeedbacks(fs, filter, "", cutoff) == fs
  {
    FilterAll(fs, (f: Feedback) => KeepFeedback(f, filter, "", cutoff));
  }

  /** The admin feedback list's state. */
  class FeedbackList {
    var feedbacks: seq<Feedback>
    var loading: bool
    var filter: Str
    var searchQuery: Str

    constructor ()
      ensures feedbacks == [] && loading && filter == All && searchQuery == []
    {
      feedbacks, loading, filter, searchQuery := [], true, All, [];
    }

    /** `fetchFeedbacks` with the query's outcome: an error or exception keeps
      the list, a null result empties it; loading ends in every case. */
    method FetchFeedbacks(q: Fetch<Query<seq<Feedback>>>)
      modifies this`feedbacks, this`loading
      ensures !loading
      ensures feedbacks ==
        if q.Threw? || q.value.error then old(feedbacks)
        else if q.value.data.Some? then q.value.data.value else []
    {
      if q.Returned? && !q.value.error {
        feedbacks := if q.value.data.Some? then q.value.data.value else [];
      }
      loading := false;
    }

    /** `handleDelete`: only a confirmed delete that the backend accepts is
      followed by a refetch, whose outcome is `refetched`. The returned id is
      the delete request, sent only after confirmation. */
    method HandleDelete(id: int, confirmed: bool, deleteFailed: bool, refetched: Fetch<Query<seq<Feedback>>>)
      returns (sent: Option<int>, refetch: bool)
      modifies this`feedbacks, this`loading
      ensures sent.Some? <==> confirmed
      ensures sent.Some? ==> sent.value == id
      ensures refetch <==> confirmed && !deleteFailed
      ensures !refetch ==> feedbacks == old(feedbacks) && loading == old(loading)
      ensures refetch ==> !loading
      ensures refetch ==>
        feedbacks == if refetched.Threw? || refetched.value.error then old(feedbacks)
                     else if refetched.value.data.Some? then refetched.value.data.value else []
    {
      sent, refetch := None, false;
      if confirmed {
        sent := Some(id);
        if !deleteFailed {
          refetch := true;
          FetchFeedbacks(refetched);
        }
      }
    }

    method SetFilter(f: Str)
      modifies this`filter
      ensures filter == f
    {
      filter := f;
    }

    method SetSearch(q: Str)
      modifies this`searchQuery
      ensures searchQuery == q
    {
      searchQuery := q;
    }

    /** The entries on screen at instant `now`. */
    function Shown(now: int): seq<Feedback>
      reads this
    {
      FilteredFeedbacks(feedbacks, filter, searchQuery, Cutoff(now))
    }
  }
}
