/**
 A dashboard session as a sequence of atomic actions: each user intent or
 backend notification is applied together with the answers the backend gave
 it. Because every handler runs to completion inside one action, the
 interleavings the page does not guard against are not represented here.
 */
module Session {
  import opened Common
  import opened Dashboard

  datatype Action =
    | Mount(current: Option<User>, fetched: Fetch)
    | Changed(fetched: Fetch)
    | TypeTitle(text: string)
    | TypeUrl(text: string)
    | Submit(outcome: Write)
    | Remove(id: BookmarkId, name: string, confirmed: bool, outcome: Write)
    | SignOutClicked
    | Unmounted

  /** Whether an action carries a bookmark query's answer. */
  predicate Fetches(a: Action) {
    a.Mount? || a.Changed?
  }

  function Apply(s: State, a: Action): Step {
    match a
    case Mount(current, fetched) => Load(s, current, fetched)
    case Changed(fetched) => Reconcile(s, fetched)
    case TypeTitle(text) => Step(EditTitle(s, text), [])
    case TypeUrl(text) => Step(EditUrl(s, text), [])
    case Submit(outcome) => AddBookmark(s, outcome)
    case Remove(id, name, confirmed, outcome) => RemoveBookmark(s, id, name, confirmed, outcome)
    case SignOutClicked => LeaveSession(s)
    case Unmounted => Unmount(s)
  }

  /** The state after a sequence of actions and every event they emitted, in order. */
  function Run(s: State, actions: seq<Action>): (r: Step)
    decreases |actions|
  {
    if actions == [] then Step(s, [])
    else
      var first := Apply(s, actions[0]);
      var rest := Run(first.state, actions[1..]);
      Step(rest.state, first.events + rest.events)
  }

  /** What holds between actions: no submission is pending, the page has
      left the loading state exactly when a user is known, and an open
      channel belongs to that user. */
  predicate Consistent(s: State) {
    && !s.submitting
    && (s.user.Some? <==> !s.loading)
    && (s.channel.Some? ==> s.user.Some? && s.channel.value == s.user.value.id)
  }

  lemma InitialConsistent()
    ensures Consistent(Initial)
  {
  }

  lemma ApplyConsistent(s: State, a: Action)
    requires Consistent(s)
    ensures Consistent(Apply(s, a).state)
  {
  }

  /** Every run from a consistent state ends in a consistent state. */
  lemma {:induction false} RunConsistent(s: State, actions: seq<Action>)
    requires Consistent(s)
    ensures Consistent(Run(s, actions).state)
    decreases |actions|
  {
    if actions != [] {
      ApplyConsistent(s, actions[0]);
      RunConsistent(Apply(s, actions[0]).state, actions[1..]);
    }
  }

  /** The list only ever changes to a snapshot the store returned for a
      query of the signed-in user's own bookmarks, issued by the same step. */
  lemma ListComesFromStore(s: State, a: Action)
    requires Consistent(s)
    ensures var r := Apply(s, a);
      || r.state.bookmarks == s.bookmarks
      || (&& Fetches(a)
          && r.state.bookmarks == Snapshot(a.fetched)
          && r.state.user.Some?
          && SelectBookmarks(r.state.user.value.id) in Requests(r.events))
  {
  }

  /** Adding, deleting, typing, signing out and unmounting never touch the
      list: a run without a query answer ends with the list it started with. */
  lemma {:induction false} ListUnchangedWithoutFetch(s: State, actions: seq<Action>)
    requires forall i :: 0 <= i < |actions| ==> !Fetches(actions[i])
    ensures Run(s, actions).state.bookmarks == s.bookmarks
    decreases |actions|
  {
    if actions != [] {
      assert !Fetches(actions[0]);
      var first := Apply(s, actions[0]);
      assert first.state.bookmarks == s.bookmarks;
      ListUnchangedWithoutFetch(first.state, actions[1..]);
    }
  }

  /** Every row the store returns for a query of `owner` belongs to `owner`. */
  predicate HonoursOwner(f: Fetch, owner: UserId) {
    f.Rows? ==> OwnedBy(f.rows, owner)
  }

  predicate OwnedBy(bookmarks: seq<Bookmark>, owner: UserId) {
    forall i :: 0 <= i < |bookmarks| ==> bookmarks[i].userId == owner
  }

  /** The trust boundary: the page keeps no bookmark of another user as long
      as the store honours the owner filter of every query. Here `owner` is
      the one user who may sign in during the run. */
  lemma {:induction false} OwnershipKept(s: State, actions: seq<Action>, owner: UserId)
    requires Consistent(s)
    requires s.user.Some? ==> s.user.value.id == owner
    requires OwnedBy(s.bookmarks, owner)
    requires forall i :: 0 <= i < |actions| ==> Fetches(actions[i]) ==> HonoursOwner(actions[i].fetched, owner)
    requires forall i :: 0 <= i < |actions| ==> actions[i].Mount? && actions[i].current.Some? ==> actions[i].current.value.id == owner
    ensures OwnedBy(Run(s, actions).state.bookmarks, owner)
    decreases |actions|
  {
    if actions != [] {
      var a := actions[0];
      var first := Apply(s, a);
      ApplyConsistent(s, a);
      assert Fetches(a) ==> HonoursOwner(a.fetched, owner);
      assert OwnedBy(first.state.bookmarks, owner);
      OwnershipKept(first.state, actions[1..], owner);
    }
  }

  /** The list holds only bookmarks of the signed-in user, if any. */
  predicate OwnedByCurrent(s: State) {
    s.user.Some? ==> OwnedBy(s.bookmarks, s.user.value.id)
  }

  /** The store honours the owner filter of the query `a` issues from `s`:
      the mounted user's on a signed-in mount, the channel owner's on a
      change notification. Other actions issue no query. */
  predicate HonestAnswer(s: State, a: Action) {
    match a
    case Mount(current, fetched) => current.Some? ==> HonoursOwner(fetched, current.value.id)
    case Changed(fetched) => s.channel.Some? ==> HonoursOwner(fetched, s.channel.value)
    case _ => true
  }

  /** Every query answered during the run honours its own owner filter. */
  predicate HonestRun(s: State, actions: seq<Action>)
    decreases |actions|
  {
    actions == [] ||
    (HonestAnswer(s, actions[0]) && HonestRun(Apply(s, actions[0]).state, actions[1..]))
  }

  /** One action keeps the list owned by whoever is signed in, when the
      answer to its query honours that query's owner filter. */
  lemma ApplyKeepsOwnership(s: State, a: Action)
    requires Consistent(s) && OwnedByCurrent(s)
    requires HonestAnswer(s, a)
    ensures OwnedByCurrent(Apply(s, a).state)
  {
  }

  /** The trust boundary, relative to the signed-in user: over any run in
      which the store honours every query's owner filter, the list never
      holds another user's bookmark, even when a different user signs in. */
  lemma {:induction false} RunKeepsOwnership(s: State, actions: seq<Action>)
    requires Consistent(s) && OwnedByCurrent(s)
    requires HonestRun(s, actions)
    ensures OwnedByCurrent(Run(s, actions).state)
    decreases |actions|
  {
    if actions != [] {
      ApplyKeepsOwnership(s, actions[0]);
      ApplyConsistent(s, actions[0]);
      RunKeepsOwnership(Apply(s, actions[0]).state, actions[1..]);
    }
  }

  /** After a change notification on an open channel, the list is exactly
      the snapshot just fetched, whatever happened before. */
  lemma {:induction false} LastFetchWins(s: State, actions: seq<Action>, fetched: Fetch)
    requires Run(s, actions).state.channel.Some?
    ensures Run(s, actions + [Changed(fetched)]).state.bookmarks == Snapshot(fetched)
    decreases |actions|
  {
    if actions == [] {
      assert [] + [Changed(fetched)] == [Changed(fetched)];
    } else {
      assert (actions + [Changed(fetched)])[0] == actions[0];
      assert (actions + [Changed(fetched)])[1..] == actions[1..] + [Changed(fetched)];
      LastFetchWins(Apply(s, actions[0]).state, actions[1..], fetched);
    }
  }

  /** Without a signed-in user, mounting issues no bookmark query and opens
      no channel: only the user lookup and the redirect home. */
  lemma UnauthenticatedMountQueriesNothing(s: State, fetched: Fetch)
    ensures Apply(s, Mount(None, fetched)).state == s
    ensures Requests(Apply(s, Mount(None, fetched)).events) == [GetUser]
  {
  }
}
