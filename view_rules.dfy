/** Two rules that more than one view applies word for word: the fallback chain
    for a session's displayed title, and the default-once choice of a source. */
module ViewRules {
  import opened Api

  const UntitledSession: string := "Untitled Session"

  /** JavaScript's `a || b || ... ` over strings: the first non-empty candidate,
      or "" when every candidate is empty. */
  function FirstNonEmpty(candidates: seq<string>): (r: string)
    ensures r == "" <==> forall i :: 0 <= i < |candidates| ==> candidates[i] == ""
    ensures r != "" ==> exists k :: 0 <= k < |candidates| && candidates[k] == r &&
                          forall j :: 0 <= j < k ==> candidates[j] == ""
  {
    if candidates == [] then ""
    else if candidates[0] != "" then candidates[0]
    else
      var rest := FirstNonEmpty(candidates[1..]);
      assert forall i :: 1 <= i < |candidates| ==> candidates[i] == candidates[1..][i - 1];
      rest
  }

  /** The title a session is shown under: its title, else its prompt, else a fixed label. */
  function FallbackTitle(s: Session): (r: string)
    ensures r != ""
    ensures r == FirstNonEmpty([s.title, s.prompt, UntitledSession])
  {
    if s.title != "" then s.title
    else
      assert [s.title, s.prompt, UntitledSession][1..] == [s.prompt, UntitledSession];
      if s.prompt != "" then s.prompt
      else
        assert [s.prompt, UntitledSession][1..] == [UntitledSession];
        assert UntitledSession[0] == 'U';
        assert FirstNonEmpty([UntitledSession]) == UntitledSession;
        assert FirstNonEmpty([s.prompt, UntitledSession]) == UntitledSession;
        UntitledSession
  }

  /** The fallback never invents text: the title shown is one of its three candidates,
      and the title wins whenever the session has one. */
  lemma FallbackTitlePriority(s: Session)
    ensures FallbackTitle(s) in {s.title, s.prompt, UntitledSession}
    ensures s.title != "" ==> FallbackTitle(s) == s.title
    ensures s.title == "" && s.prompt != "" ==> FallbackTitle(s) == s.prompt
    ensures s.title == "" && s.prompt == "" ==> FallbackTitle(s) == UntitledSession
  {
  }

  /** The name of the first fetched source, when the response holds a non-empty list. */
  function FirstSourceName(data: Option<SourcesResponse>): (r: Option<string>)
    ensures r.Some? <==> data.Some? && data.value.sources.Some? && |data.value.sources.value| > 0
    ensures r.Some? ==> r.value == data.value.sources.value[0].name
  {
    match data
    case None => None
    case Some(resp) =>
      match resp.sources
      case None => None
      case Some(list) => if |list| > 0 then Some(list[0].name) else None
  }

  /** The effect that runs whenever the sources response changes: an empty selection
      takes the first source's name; any other selection is kept. */
  function DefaultSelection(data: Option<SourcesResponse>, selected: string): (r: string)
    ensures r == selected || (selected == "" && FirstSourceName(data) == Some(r))
    ensures selected == "" && FirstSourceName(data).Some? ==> r == FirstSourceName(data).value
  {
    if FirstSourceName(data).Some? && selected == "" then FirstSourceName(data).value
    else selected
  }

  /** A selection that is already non-empty (the user's choice, or an earlier default)
      survives every later sources response. */
  lemma DefaultNeverOverrides(data: Option<SourcesResponse>, selected: string)
    requires selected != ""
    ensures DefaultSelection(data, selected) == selected
  {
  }

  /** Re-running the effect on the same response changes nothing. */
  lemma DefaultSelectionIdempotent(data: Option<SourcesResponse>, selected: string)
    ensures DefaultSelection(data, DefaultSelection(data, selected)) == DefaultSelection(data, selected)
  {
  }

  /** The default is applied once: after a first response chose a non-empty name,
      no later response, whatever it holds, moves the selection. */
  lemma DefaultAppliedOnce(first: Option<SourcesResponse>, later: Option<SourcesResponse>)
    requires DefaultSelection(first, "") != ""
    ensures DefaultSelection(later, DefaultSelection(first, "")) == DefaultSelection(first, "")
  {
  }
}
