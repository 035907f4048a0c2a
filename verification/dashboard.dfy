/**
 The dashboard page's state and its handlers, as pure transitions.

 The backend is abstract: every remote call the page makes is recorded as a
 `Send` event in the step's log, and its answer is a parameter of the
 transition (`Fetch` for a query, `Write` for an insert or a delete). Toasts,
 navigation and the confirmation dialog are events too; the dialog's answer is
 a boolean parameter.
 */
module Dashboard {
  import opened Common
  import opened Text
  import opened Urls

  type UserId = string
  type BookmarkId = string

  /** A row of the `bookmarks` table; the store assigns `id` and `createdAt`. */
  datatype Bookmark = Bookmark(id: BookmarkId, title: string, url: string, userId: UserId, createdAt: string)

  /** The signed-in user as the page keeps it. */
  datatype User = User(id: UserId, email: Option<string>)

  /** The payload of an insert: the store fills in the rest of the row. */
  datatype NewBookmark = NewBookmark(title: string, url: string, userId: UserId)

  /** The page's state: the list shown, the user, the two form fields, the
      loading and submitting flags, and the owner the change channel was
      opened for (`None` while no channel is open). */
  datatype State = State(
    bookmarks: seq<Bookmark>,
    user: Option<User>,
    title: string,
    url: string,
    loading: bool,
    submitting: bool,
    channel: Option<UserId>)

  /** The state on mount. */
  const Initial: State := State([], None, "", "", true, false, None)

  /** The answer to a bookmark query: rows, a null `data` without an error,
      or an error (which also comes with a null `data`). */
  datatype Fetch = Rows(rows: seq<Bookmark>) | NoData | FetchFailed

  /** The answer to an insert or a delete. */
  datatype Write = Written | WriteFailed

  datatype Request =
    | GetUser
    | SelectBookmarks(owner: UserId)   // all rows of `owner`, newest first
    | InsertBookmark(row: NewBookmark)
    | DeleteBookmark(id: BookmarkId)
    | Subscribe(owner: UserId)         // change channel filtered to `owner`
    | RemoveChannel
    | SignOut

  datatype Toast = Success(text: string) | Error(text: string)

  datatype Event =
    | Send(request: Request)
    | Notify(toast: Toast)
    | Redirect(path: string)
    | Confirm(question: string)

  /** A transition's new state and the events it emitted, in order. */
  datatype Step = Step(state: State, events: seq<Event>)

  const Home: string := "/"
  const FillBothFields: string := "Please fill in both fields"
  const LoadFailed: string := "Failed to load bookmarks"
  const AddFailed: string := "Failed to add bookmark"
  const Added: string := "Bookmark added"
  const DeleteFailed: string := "Failed to delete bookmark"
  const Deleted: string := "Bookmark deleted"

  /** The requests in an event log, in the order they were issued. */
  function Requests(log: seq<Event>): (r: seq<Request>)
    ensures |r| <= |log|
  {
    if log == [] then []
    else (if log[0].Send? then [log[0].request] else []) + Requests(log[1..])
  }

  lemma {:induction false} RequestsAppend(a: seq<Event>, b: seq<Event>)
    ensures Requests(a + b) == Requests(a) + Requests(b)
    decreases |a|
  {
    if a == [] {
      assert a + b == b;
    } else {
      var head := if a[0].Send? then [a[0].request] else [];
      assert (a + b)[0] == a[0];
      assert (a + b)[1..] == a[1..] + b;
      RequestsAppend(a[1..], b);
      calc {
        Requests(a + b);
        head + Requests(a[1..] + b);
        head + (Requests(a[1..]) + Requests(b));
        (head + Requests(a[1..])) + Requests(b);
      }
    }
  }

  lemma RequestsOfOne(e: Event)
    ensures Requests([e]) == (if e.Send? then [e.request] else [])
  {
  }

  /** `(data as Bookmark[]) || []`: the fetched rows, or the empty list when
      `data` is null. */
  function Snapshot(f: Fetch): (r: seq<Bookmark>)
    ensures f.Rows? ==> r == f.rows
    ensures f.NoData? || f.FetchFailed? ==> r == []
  {
    if f.Rows? then f.rows else []
  }

  // ---------------------------------------------------------------- loading

  /** The mount effect: look up the session user; without one, redirect home
      and touch nothing; with one, record the user, replace the list wholesale
      by the fetched snapshot (a failed fetch is reported and leaves the list
      empty), leave the loading state and open the change channel for that
      user. */
  function Load(s: State, current: Option<User>, fetched: Fetch): (r: Step)
    ensures current.None? ==>
      && r.state == s
      && Requests(r.events) == [GetUser]
      && r.events == [Send(GetUser), Redirect(Home)]
    ensures current.Some? ==>
      && Requests(r.events) == [GetUser, SelectBookmarks(current.value.id), Subscribe(current.value.id)]
      && (forall e :: e in r.events ==> !e.Redirect?)
      && r.state.user == current
      && r.state.bookmarks == Snapshot(fetched)
      && !r.state.loading
      && r.state.channel == Some(current.value.id)
      && (Notify(Error(LoadFailed)) in r.events <==> fetched.FetchFailed?)
    ensures current.Some? ==>
      r.state.title == s.title && r.state.url == s.url && r.state.submitting == s.submitting
  {
    match current
    case None =>
      Step(s, [Send(GetUser), Redirect(Home)])
    case Some(u) =>
      LoadedLogFacts(u.id, fetched.FetchFailed?);
      Step(s.(user := current, bookmarks := Snapshot(fetched), loading := false, channel := Some(u.id)),
           LoadedLog(u.id, fetched.FetchFailed?))
  }

  /** The events of a load for a signed-in user: the user lookup, the query,
      the failure toast when the query failed, and the subscription. */
  function LoadedLog(id: UserId, failed: bool): (log: seq<Event>)
    ensures |log| == if failed then 4 else 3
    ensures log[0] == Send(GetUser) && log[1] == Send(SelectBookmarks(id))
    ensures failed ==> log[2] == Notify(Error(LoadFailed))
    ensures log[|log| - 1] == Send(Subscribe(id))
  {
    var report := if failed then [Notify(Error(LoadFailed))] else [];
    [Send(GetUser), Send(SelectBookmarks(id))] + report + [Send(Subscribe(id))]
  }

  lemma LoadedLogFacts(id: UserId, failed: bool)
    ensures Requests(LoadedLog(id, failed)) == [GetUser, SelectBookmarks(id), Subscribe(id)]
    ensures forall e :: e in LoadedLog(id, failed) ==> !e.Redirect?
    ensures Notify(Error(LoadFailed)) in LoadedLog(id, failed) <==> failed
  {
    LoadedLogRequests(id, failed);
    LoadedLogEvents(id, failed);
  }

  lemma LoadedLogRequests(id: UserId, failed: bool)
    ensures Requests(LoadedLog(id, failed)) == [GetUser, SelectBookmarks(id), Subscribe(id)]
  {
    var report := if failed then [Notify(Error(LoadFailed))] else [];
    var head := [Send(GetUser), Send(SelectBookmarks(id))];
    RequestsAppend(head + report, [Send(Subscribe(id))]);
    RequestsAppend(head, report);
    RequestsAppend([Send(GetUser)], [Send(SelectBookmarks(id))]);
    assert head == [Send(GetUser)] + [Send(SelectBookmarks(id))];
    RequestsOfOne(Send(GetUser));
    RequestsOfOne(Send(SelectBookmarks(id)));
    RequestsOfOne(Send(Subscribe(id)));
    RequestsOfOne(Notify(Error(LoadFailed)));
  }

  /** The events of a signed-in load, listed: no redirect among them, and the
      failure toast exactly when the query failed. */
  lemma LoadedLogEvents(id: UserId, failed: bool)
    ensures forall e :: e in LoadedLog(id, failed) ==> !e.Redirect?
    ensures Notify(Error(LoadFailed)) in LoadedLog(id, failed) <==> failed
  {
    var log := LoadedLog(id, failed);
    if failed {
      assert log == [Send(GetUser), Send(SelectBookmarks(id)), Notify(Error(LoadFailed)), Send(Subscribe(id))];
    } else {
      assert log == [Send(GetUser), Send(SelectBookmarks(id)), Send(Subscribe(id))];
    }
  }

  /** A change notification on the channel: re-query the channel owner's rows
      and replace the list wholesale (by `[]` when `data` is null). Nothing
      else changes and no toast is shown. Without an open channel no
      notification is delivered and nothing happens. */
  function Reconcile(s: State, fetched: Fetch): (r: Step)
    ensures s.channel.None? ==> r.state == s && r.events == []
    ensures s.channel.Some? ==>
      && r.events == [Send(SelectBookmarks(s.channel.value))]
      && r.state.bookmarks == Snapshot(fetched)
      && r.state.(bookmarks := s.bookmarks) == s
  {
    match s.channel
    case None => Step(s, [])
    case Some(owner) =>
      Step(s.(bookmarks := Snapshot(fetched)), [Send(SelectBookmarks(owner))])
  }

  // ----------------------------------------------------------------- adding

  /** The guard of the add handler: a user is signed in and neither field is
      blank after trimming, that is, each field holds a visible character. */
  function CanSubmit(s: State): (ok: bool)
    ensures ok <==> s.user.Some? && !AllWhitespace(s.title) && !AllWhitespace(s.url)
  {
    s.user.Some? && Trim(s.title) != [] && Trim(s.url) != []
  }

  /** The insert payload: the trimmed title, the normalised untrimmed URL and
      the user's id. */
  function RowOf(s: State): (row: NewBookmark)
    requires s.user.Some?
    ensures row.userId == s.user.value.id
    ensures row.url == Normalize(s.url)
    ensures HasScheme(row.url) && (row.url == s.url || row.url == Https + s.url)
    ensures row.title == Trim(s.title)
    ensures row.title == [] <==> AllWhitespace(s.title)
    ensures row.title == [] || (!IsWhitespace(row.title[0]) && !IsWhitespace(row.title[|row.title| - 1]))
  {
    NewBookmark(Trim(s.title), Normalize(s.url), s.user.value.id)
  }

  /** First half of the add handler, up to the pending insert. A rejected
      submission shows the fill-in toast, issues no request and changes
      nothing; an accepted one issues exactly one insert and marks the form
      as submitting. The list is not touched either way. */
  function BeginAdd(s: State): (r: Step)
    ensures r.state.bookmarks == s.bookmarks && r.state.user == s.user && r.state.channel == s.channel
    ensures !CanSubmit(s) ==> r.state == s && r.events == [Notify(Error(FillBothFields))]
    ensures CanSubmit(s) ==>
      && r.events == [Send(InsertBookmark(RowOf(s)))]
      && r.state.submitting
      && r.state.(submitting := s.submitting) == s
  {
    if !CanSubmit(s) then Step(s, [Notify(Error(FillBothFields))])
    else Step(s.(submitting := true), [Send(InsertBookmark(RowOf(s)))])
  }

  /** Second half of the add handler, once the insert has answered: success
      clears both fields, failure keeps them for a retry; the form stops
      submitting and nothing else changes. */
  function FinishAdd(s: State, outcome: Write): (r: Step)
    ensures !r.state.submitting
    ensures outcome.Written? ==> r.state.title == [] && r.state.url == [] && r.events == [Notify(Success(Added))]
    ensures outcome.WriteFailed? ==> r.state.title == s.title && r.state.url == s.url && r.events == [Notify(Error(AddFailed))]
    ensures r.state.bookmarks == s.bookmarks && r.state.user == s.user
    ensures r.state.loading == s.loading && r.state.channel == s.channel
    ensures Requests(r.events) == []
  {
    match outcome
    case Written =>
      Step(s.(title := [], url := [], submitting := false), [Notify(Success(Added))])
    case WriteFailed =>
      Step(s.(submitting := false), [Notify(Error(AddFailed))])
  }

  /** The whole add handler for a given insert outcome. */
  function AddBookmark(s: State, outcome: Write): (r: Step)
    ensures r.state.bookmarks == s.bookmarks && r.state.user == s.user && r.state.channel == s.channel
    ensures !CanSubmit(s) ==> r.state == s && Requests(r.events) == []
    ensures CanSubmit(s) ==> Requests(r.events) == [InsertBookmark(RowOf(s))]
    ensures CanSubmit(s) ==> !r.state.submitting
    ensures CanSubmit(s) && outcome.Written? ==> r.state.title == [] && r.state.url == []
    ensures CanSubmit(s) && outcome.WriteFailed? ==> r.state.title == s.title && r.state.url == s.url
    ensures CanSubmit(s) && outcome.Written? ==> r.state == s.(title := [], url := [], submitting := false)
    ensures CanSubmit(s) && outcome.WriteFailed? ==> r.state == s.(submitting := false)
  {
    var b := BeginAdd(s);
    if !CanSubmit(s) then b
    else
      var f := FinishAdd(b.state, outcome);
      RequestsAppend(b.events, f.events);
      Step(f.state, b.events + f.events)
  }

  // --------------------------------------------------------------- deleting

  /** The confirmation question: the bookmark's title, verbatim, quoted
      after `Delete` and followed by a question mark. */
  function DeletePrompt(name: string): (q: string)
    ensures |q| == |name| + 10
    ensures q[..8] == "Delete \""
    ensures q[8..8 + |name|] == name
    ensures q[|name| + 8] == '"' && q[|q| - 1] == '?'
  {
    "Delete \"" + name + "\"?"
  }

  /** The delete handler for a given dialog answer and delete outcome: the
      question is always asked; a declined question issues nothing more; an
      accepted one issues exactly one delete, for `id`, and reports its
      outcome. The list is left for the change channel to update. */
  function RemoveBookmark(s: State, id: BookmarkId, name: string, confirmed: bool, outcome: Write): (r: Step)
    ensures r.state == s
    ensures |r.events| > 0 && r.events[0] == Confirm(DeletePrompt(name))
    ensures !confirmed ==> Requests(r.events) == [] && |r.events| == 1
    ensures confirmed ==> Requests(r.events) == [DeleteBookmark(id)]
    ensures confirmed ==>
      (Notify(Success(Deleted)) in r.events <==> outcome.Written?) &&
      (Notify(Error(DeleteFailed)) in r.events <==> outcome.WriteFailed?)
  {
    var ask := [Confirm(DeletePrompt(name))];
    if !confirmed then Step(s, ask)
    else
      var report := if outcome.Written? then Notify(Success(Deleted)) else Notify(Error(DeleteFailed));
      RequestsAppend(ask + [Send(DeleteBookmark(id))], [report]);
      RequestsAppend(ask, [Send(DeleteBookmark(id))]);
      Step(s, ask + [Send(DeleteBookmark(id))] + [report])
  }

  // ------------------------------------------------------------------ other

  /** Typing in the title field. */
  function EditTitle(s: State, text: string): (r: State)
    ensures r.title == text && r.(title := s.title) == s
  {
    s.(title := text)
  }

  /** Typing in the URL field. */
  function EditUrl(s: State, text: string): (r: State)
    ensures r.url == text && r.(url := s.url) == s
  {
    s.(url := text)
  }

  /** The sign-out button: end the session, then navigate home. */
  function LeaveSession(s: State): (r: Step)
    ensures r.state == s
    ensures Requests(r.events) == [SignOut]
    ensures r.events[|r.events| - 1] == Redirect(Home)
  {
    Step(s, [Send(SignOut), Redirect(Home)])
  }

  /** The effect cleanup on unmount: remove the change channel if one was opened. */
  function Unmount(s: State): (r: Step)
    ensures r.state.channel == None
    ensures r.state.(channel := s.channel) == s
    ensures Requests(r.events) == (if s.channel.Some? then [RemoveChannel] else [])
  {
    if s.channel.Some? then Step(s.(channel := None), [Send(RemoveChannel)]) else Step(s, [])
  }
}
