/** The session list view: sources and sessions arrive from two independent fetches,
    the selected source starts empty and is defaulted once to the first fetched
    source, the user may change it from the dropdown, and the list shows the
    sessions of the selected source. */
module ListSessions {
  import opened Api
  import opened ViewRules

  /** `session.sourceContext?.source === selectedSource`: a session without a source
      context never matches, not even the empty selection. */
  predicate MatchesSource(s: Session, selected: string)
    ensures MatchesSource(s, selected) <==> s.sourceContext == Some(SourceContext(Some(selected)))
  {
    s.sourceContext.Some? && s.sourceContext.value.source == Some(selected)
  }

  /** `small` can be obtained from `big` by deleting elements, without reordering. */
  ghost predicate IsSubsequence(small: seq<Session>, big: seq<Session>)
    decreases |big|
  {
    if small == [] then true
    else if big == [] then false
    else if small[0] == big[0] then IsSubsequence(small[1..], big[1..])
    else IsSubsequence(small, big[1..])
  }

  /** The order-preserving filter of the sessions on the selected source: exactly the
      matching sessions, each as often as it occurs in the input, in input order. */
  function FilterBySource(sessions: seq<Session>, selected: string): (r: seq<Session>)
    ensures forall i :: 0 <= i < |r| ==> MatchesSource(r[i], selected)
    ensures forall s :: multiset(r)[s] == if MatchesSource(s, selected) then multiset(sessions)[s] else 0
    ensures IsSubsequence(r, sessions)
  {
    if sessions == [] then []
    else
      var rest := FilterBySource(sessions[1..], selected);
      assert sessions == [sessions[0]] + sessions[1..];
      if MatchesSource(sessions[0], selected) then
        assert ([sessions[0]] + rest)[1..] == rest;
        [sessions[0]] + rest
      else
        assert rest != [] ==> rest[0] != sessions[0];
        rest
  }

  /** A session is listed if and only if it is one of the input sessions and belongs
      to the selected source; sessions without a source context are never listed. */
  lemma FilterMembership(sessions: seq<Session>, selected: string, s: Session)
    ensures s in FilterBySource(sessions, selected) <==> s in sessions && MatchesSource(s, selected)
    ensures s.sourceContext.None? ==> s !in FilterBySource(sessions, selected)
    ensures s.sourceContext.Some? && s.sourceContext.value.source.None? ==> s !in FilterBySource(sessions, selected)
  {
  }

  /** Filtering an already filtered list on the same source changes nothing. */
  lemma {:induction false} FilterIdempotent(sessions: seq<Session>, selected: string)
    ensures FilterBySource(FilterBySource(sessions, selected), selected) == FilterBySource(sessions, selected)
  {
    if sessions != [] {
      FilterIdempotent(sessions[1..], selected);
      var rest := FilterBySource(sessions[1..], selected);
      if MatchesSource(sessions[0], selected) {
        assert ([sessions[0]] + rest)[1..] == rest;
      }
    }
  }

  /** When every session belongs to the selected source, the filter keeps the whole list. */
  lemma {:induction false} FilterKeepsMatching(sessions: seq<Session>, selected: string)
    requires forall i :: 0 <= i < |sessions| ==> MatchesSource(sessions[i], selected)
    ensures FilterBySource(sessions, selected) == sessions
  {
    if sessions != [] {
      FilterKeepsMatching(sessions[1..], selected);
    }
  }

  /** `sessionsData?.sessions?.filter(...) || []`: missing data lists nothing. */
  function FilteredSessions(data: Option<SessionsResponse>, selected: string): (r: seq<Session>)
    ensures data.None? || data.value.sessions.None? ==> r == []
    ensures forall i :: 0 <= i < |r| ==> MatchesSource(r[i], selected)
    ensures data.Some? && data.value.sessions.Some? ==>
      IsSubsequence(r, data.value.sessions.value) &&
      forall s :: multiset(r)[s] == if MatchesSource(s, selected) then multiset(data.value.sessions.value)[s] else 0
  {
    match data
    case None => []
    case Some(resp) =>
      match resp.sessions
      case None => []
      case Some(list) => FilterBySource(list, selected)
  }

  // ---------------------------------------------------------------- list items

  datatype ListAction = OpenInBrowser(url: string) | CopyToClipboard(content: string, title: string)
  datatype ListItem = ListItem(key: string, title: string, subtitle: string, accessory: string,
                               actions: seq<ListAction>)

  /** The list row of one session: the fallback title, the raw state, the id as accessory,
      an open-in-browser action only for a session with a URL, and always a copy-id action. */
  function SessionListItem(s: Session): (item: ListItem)
    ensures item.key == s.id && item.accessory == s.id && item.subtitle == s.state
    ensures item.title != "" && item.title == FallbackTitle(s)
    ensures (exists a :: a in item.actions && a.OpenInBrowser?) <==> s.url != ""
    ensures forall a :: a in item.actions && a.OpenInBrowser? ==> a.url == s.url
    ensures |item.actions| == if s.url != "" then 2 else 1
    ensures item.actions[|item.actions| - 1] == CopyToClipboard(s.id, "Copy Session ID")
  {
    var open := if s.url != "" then [OpenInBrowser(s.url)] else [];
    var actions := open + [CopyToClipboard(s.id, "Copy Session ID")];
    assert s.url != "" ==> actions[0] == OpenInBrowser(s.url);
    ListItem(s.id, FallbackTitle(s), s.state, s.id, actions)
  }

  /** The view's state: the selected source and the latest response of each fetch. */
  class SessionList {
    var selectedSource: string
    var sourcesData: Option<SourcesResponse>
    var sessionsData: Option<SessionsResponse>

    /** Mounting the view: nothing fetched, nothing selected. */
    constructor ()
      ensures selectedSource == "" && sourcesData == None && sessionsData == None
    {
      selectedSource := "";
      sourcesData := None;
      sessionsData := None;
    }

    /** The sources fetch resolves; the effect that depends on it then defaults an
        empty selection to the first source and leaves any other selection alone. */
    method ReceiveSources(data: SourcesResponse)
      modifies this
      ensures sourcesData == Some(data) && sessionsData == old(sessionsData)
      ensures selectedSource == DefaultSelection(Some(data), old(selectedSource))
      ensures old(selectedSource) != "" ==> selectedSource == old(selectedSource)
    {
      sourcesData := Some(data);
      if data.sources.Some? && |data.sources.value| > 0 && selectedSource == "" {
        selectedSource := data.sources.value[0].name;
      }
    }

    /** The sessions fetch resolves. */
    method ReceiveSessions(data: SessionsResponse)
      modifies this
      ensures sessionsData == Some(data)
      ensures selectedSource == old(selectedSource) && sourcesData == old(sourcesData)
    {
      sessionsData := Some(data);
    }

    /** The user picks a source in the dropdown. */
    method OnChange(value: string)
      modifies this
      ensures selectedSource == value
      ensures sourcesData == old(sourcesData) && sessionsData == old(sessionsData)
    {
      selectedSource := value;
    }

    /** The sessions the view lists right now. */
    function Shown(): (r: seq<Session>)
      reads this
      ensures r == FilteredSessions(sessionsData, selectedSource)
      ensures forall i :: 0 <= i < |r| ==> MatchesSource(r[i], selectedSource)
      ensures sessionsData.None? || sessionsData.value.sessions.None? ==> r == []
      ensures sessionsData.Some? && sessionsData.value.sessions.Some? ==>
        IsSubsequence(r, sessionsData.value.sessions.value) &&
        forall s :: multiset(r)[s] ==
          if MatchesSource(s, selectedSource) then multiset(sessionsData.value.sessions.value)[s] else 0
    {
      FilteredSessions(sessionsData, selectedSource)
    }

    /** The rows of the list, one per shown session, in order. */
    function Items(): (items: seq<ListItem>)
      reads this
      ensures |items| == |Shown()|
      ensures forall i :: 0 <= i < |items| ==> items[i] == SessionListItem(Shown()[i])
    {
      var shown := Shown();
      seq(|shown|, i requires 0 <= i < |shown| => SessionListItem(shown[i]))
    }
  }

  /** Two sources arrive with nothing selected: the first is chosen; the user then picks
      the second, and a later refresh of the sources keeps the user's choice. Sessions of
      the chosen source are the ones listed. */
  method DefaultOnceScenario()
  {
    var a := Source("a", "1", None);
    var b := Source("b", "2", None);
    var view := new SessionList();
    view.ReceiveSources(SourcesResponse(Some([a, b])));
    assert view.selectedSource == "a";
    view.OnChange("b");
    view.ReceiveSources(SourcesResponse(Some([a, b])));
    assert view.selectedSource == "b";
    var inB := Session("sessions/1", "1", "t", "running", "", "p", Some(SourceContext(Some("b"))));
    var inA := Session("sessions/2", "2", "t", "running", "", "p", Some(SourceContext(Some("a"))));
    view.ReceiveSessions(SessionsResponse(Some([inA, inB])));
    assert [inA, inB][1..] == [inB];
    assert [inB][1..] == [];
    assert FilterBySource([inB], "b") == [inB];
    assert view.Shown() == [inB];
  }
}
