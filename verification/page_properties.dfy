/**
 What the dashboard's handlers promise, stated over the transitions of
 `Dashboard`: when a submission is accepted, what it sends, and that
 re-fetching is idempotent.
 */
module PageProperties {
  import opened Text
  import opened Urls
  import opened Dashboard

  /** A bare host, with no scheme and no surrounding whitespace, is sent
      with `https://` in front; a title without surrounding whitespace is
      sent as typed. */
  lemma AddBareHost(s: State, outcome: Write, title: string, host: string)
    requires s.user.Some?
    requires title != [] && !IsWhitespace(title[0]) && !IsWhitespace(title[|title| - 1])
    requires host != [] && !HasScheme(host) && !IsWhitespace(host[0]) && !IsWhitespace(host[|host| - 1])
    ensures Requests(AddBookmark(s.(title := title, url := host), outcome).events)
         == [InsertBookmark(NewBookmark(title, Https + host, s.user.value.id))]
  {
    SubmitsAsTyped(s, outcome, title, host, Https + host);
  }

  /** Anything typed behind `http://`, even nothing or trailing blanks, is
      accepted and sent exactly as typed. */
  lemma AddHttpHost(s: State, outcome: Write, title: string, host: string)
    requires s.user.Some?
    requires title != [] && !IsWhitespace(title[0]) && !IsWhitespace(title[|title| - 1])
    ensures CanSubmit(s.(title := title, url := Http + host))
    ensures Requests(AddBookmark(s.(title := title, url := Http + host), outcome).events)
         == [InsertBookmark(NewBookmark(title, Http + host, s.user.value.id))]
  {
    TrimUnpadded(title);
    var typed := Http + host;
    assert typed[0] == 'h';
    assert Http <= typed;
    var s1 := s.(title := title, url := typed);
    assert CanSubmit(s1);
    assert RowOf(s1) == NewBookmark(title, typed, s.user.value.id);
  }

  /** A title and a URL without surrounding whitespace are sent as the title
      and the normalised URL. */
  lemma SubmitsAsTyped(s: State, outcome: Write, title: string, url: string, sent: string)
    requires s.user.Some?
    requires title != [] && !IsWhitespace(title[0]) && !IsWhitespace(title[|title| - 1])
    requires url != [] && !IsWhitespace(url[0]) && !IsWhitespace(url[|url| - 1])
    requires Normalize(url) == sent
    ensures Requests(AddBookmark(s.(title := title, url := url), outcome).events)
         == [InsertBookmark(NewBookmark(title, sent, s.user.value.id))]
  {
    TrimUnpadded(title);
    TrimUnpadded(url);
    var s1 := s.(title := title, url := url);
    assert CanSubmit(s1);
    assert RowOf(s1) == NewBookmark(title, sent, s.user.value.id);
  }

  /** An empty title or an empty URL never issues a request. */
  lemma AddEmptyFieldSendsNothing(s: State, outcome: Write)
    requires s.title == [] || s.url == []
    ensures AddBookmark(s, outcome).state == s
    ensures Requests(AddBookmark(s, outcome).events) == []
  {
  }

  /** Re-fetching with no intervening change yields the same list as fetching once. */
  lemma ReconcileIdempotent(s: State, fetched: Fetch)
    ensures Reconcile(Reconcile(s, fetched).state, fetched).state == Reconcile(s, fetched).state
  {
  }
}
