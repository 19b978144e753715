/** The menu-bar summary: the five most recent sessions, each with a shortened title
    and an icon chosen from its free-text state, a placeholder when there are none,
    and two items that launch the other views. Everything here is a pure function
    of the latest sessions response and the loading flag. */
module MenuBarStatus {
  import opened Api
  import opened ViewRules

  /** The width the menu bar shortens titles to (the default argument of `truncate`). */
  const TitleWidth: nat := 40
  const Ellipsis: string := "..."
  /** How many sessions the menu bar shows. */
  const RecentLimit: nat := 5

  // ---------------------------------------------------------------- truncation

  /** A text no longer than `length` is kept; a longer one is cut to `length`
      characters and marked with an ellipsis. */
  function Truncate(text: string, length: nat): (r: string)
    ensures |text| <= length ==> r == text
    ensures |text| > length ==>
      |r| == length + 3 && r[..length] == text[..length] && r[length..] == Ellipsis
  {
    if |text| <= length then text else text[..length] + Ellipsis
  }

  /** The shortened text is never more than three characters longer than either
      the original or the width, and it always starts like the original. */
  lemma TruncateBounds(text: string, length: nat)
    ensures |Truncate(text, length)| <= |text| + 3
    ensures |Truncate(text, length)| <= length + 3
    ensures var n := if |text| <= length then |text| else length;
            Truncate(text, length)[..n] == text[..n]
  {
  }

  /** Shortening twice is shortening once, for every text: an already shortened
      title is left exactly as it is. */
  lemma TruncateIdempotent(text: string, length: nat)
    ensures Truncate(Truncate(text, length), length) == Truncate(text, length)
  {
  }

  /** At the menu bar's width: 40 characters are kept, 41 become 40 plus the ellipsis. */
  lemma TruncateAtTitleWidth(text: string)
    ensures |text| <= 40 ==> Truncate(text, TitleWidth) == text
    ensures |text| == 41 ==> Truncate(text, TitleWidth) == text[..40] + "..." &&
                             |Truncate(text, TitleWidth)| == 43
  {
  }

  // ---------------------------------------------------------------- case folding

  /** Lower-casing of one character; only the ASCII letters A-Z change. */
  function LowerChar(c: char): (d: char)
    ensures 'A' <= c <= 'Z' ==> 'a' <= d <= 'z' && d as int - c as int == 32
    ensures !('A' <= c <= 'Z') ==> d == c
  {
    if 'A' <= c <= 'Z' then (c as int + 32) as char else c
  }

  /** `toLowerCase` over ASCII text. */
  function ToLower(s: string): (r: string)
    ensures |r| == |s|
    ensures forall i :: 0 <= i < |s| ==> r[i] == LowerChar(s[i])
  {
    if s == [] then [] else [LowerChar(s[0])] + ToLower(s[1..])
  }

  /** Lower-casing an already lower-cased text changes nothing. */
  lemma ToLowerIdempotent(s: string)
    ensures ToLower(ToLower(s)) == ToLower(s)
  {
  }

  // ---------------------------------------------------------------- state icons

  datatype Glyph = Circle | Checkmark | XMarkCircle | Plus | MagnifyingGlass
  datatype Tint = Orange | Green | Red | SecondaryText
  datatype StateIcon = StateIcon(source: Glyph, tintColor: Tint)

  const RunningIcon: StateIcon := StateIcon(Circle, Orange)
  const DoneIcon: StateIcon := StateIcon(Checkmark, Green)
  const FailedIcon: StateIcon := StateIcon(XMarkCircle, Red)
  const DefaultIcon: StateIcon := StateIcon(Circle, SecondaryText)

  /** The state names of each coloured bucket, in lower case. */
  const RunningStates: set<string> := {"running", "in_progress", "active", "awaiting_user_feedback"}
  const DoneStates: set<string> := {"succeeded", "completed", "done"}
  const FailedStates: set<string> := {"failed", "error"}

  /** The icon for a session state: one of four buckets, decided on the lower-cased
      state, with an absent state read as the empty one. */
  function GetStateIcon(state: Option<string>): (r: StateIcon)
    ensures r in {RunningIcon, DoneIcon, FailedIcon, DefaultIcon}
    ensures var s := ToLower(state.GetOr(""));
      && (r == RunningIcon <==> s in RunningStates)
      && (r == DoneIcon <==> s in DoneStates)
      && (r == FailedIcon <==> s in FailedStates)
      && (r == DefaultIcon <==> s !in RunningStates + DoneStates + FailedStates)
  {
    var s := ToLower(state.GetOr(""));
    if s == "running" || s == "in_progress" || s == "active" || s == "awaiting_user_feedback" then
      RunningIcon
    else if s == "succeeded" || s == "completed" || s == "done" then
      DoneIcon
    else if s == "failed" || s == "error" then
      FailedIcon
    else
      DefaultIcon
  }

  /** The icon depends only on the lower-cased state: the case of the letters never matters. */
  lemma StateIconIgnoresCase(s: string)
    ensures GetStateIcon(Some(s)) == GetStateIcon(Some(ToLower(s)))
  {
    ToLowerIdempotent(s);
  }

  /** Two states that differ only in letter case get the same icon. */
  lemma StateIconCaseInsensitive(a: string, b: string)
    requires ToLower(a) == ToLower(b)
    ensures GetStateIcon(Some(a)) == GetStateIcon(Some(b))
  {
  }

  /** A missing or empty state gets the gray default circle. */
  lemma StateIconUnset()
    ensures GetStateIcon(None) == DefaultIcon
    ensures GetStateIcon(Some("")) == DefaultIcon
  {
  }

  /** Upper- and mixed-case spellings of a running state get the orange circle. */
  lemma RunningExamples()
    ensures GetStateIcon(Some("Running")) == RunningIcon
    ensures GetStateIcon(Some("ACTIVE")) == RunningIcon
  {
  }

  /** "DONE" and "Error" reach the green and red buckets. */
  lemma FinishedExamples()
    ensures GetStateIcon(Some("DONE")) == DoneIcon
    ensures GetStateIcon(Some("Error")) == FailedIcon
  {
  }

  /** States outside the table, such as "queued" and "pending", get the gray default
      (even "pending", which the dead colour table of the same file lists). */
  lemma UnlistedExamples()
    ensures GetStateIcon(Some("queued")) == DefaultIcon
    ensures GetStateIcon(Some("pending")) == DefaultIcon
  {
  }

  // ---------------------------------------------------------------- recent sessions

  /** `data?.sessions || []`. */
  function SessionsOf(data: Option<SessionsResponse>): (r: seq<Session>)
    ensures data.None? || data.value.sessions.None? ==> r == []
    ensures data.Some? && data.value.sessions.Some? ==> r == data.value.sessions.value
  {
    match data
    case None => []
    case Some(resp) => resp.sessions.GetOr([])
  }

  /** The sessions the menu bar lists: the first five of the response, in the order
      the service returned them. */
  function RecentSessions(data: Option<SessionsResponse>): (r: seq<Session>)
    ensures |r| == if |SessionsOf(data)| < RecentLimit then |SessionsOf(data)| else RecentLimit
    ensures r == SessionsOf(data)[..|r|]
  {
    var all := SessionsOf(data);
    if |all| <= RecentLimit then all else all[..RecentLimit]
  }

  // ---------------------------------------------------------------- menu items

  datatype MenuAction = NoAction | OpenUrl(url: string) | LaunchCommand(name: string)
  datatype ItemIcon = NoIcon | PlainIcon(glyph: Glyph) | StatusIcon(icon: StateIcon)
  datatype MenuItem = MenuItem(title: string, subtitle: Option<string>, icon: ItemIcon, action: MenuAction)

  const NoRecentItem: MenuItem := MenuItem("No recent sessions", None, NoIcon, NoAction)
  const StartNewSessionCommand: string := "start-new-session"
  const ListSessionsCommand: string := "list-sessions"

  /** Clicking a session opens its URL, and does nothing when the session has none. */
  function OpenAction(s: Session): (a: MenuAction)
    ensures a != NoAction <==> s.url != ""
    ensures a != NoAction ==> a == OpenUrl(s.url)
  {
    if s.url != "" then OpenUrl(s.url) else NoAction
  }

  /** The menu item of one recent session. */
  function SessionItem(s: Session): (item: MenuItem)
    ensures item.title != "" && |item.title| <= TitleWidth + 3
    ensures item.title == Truncate(FallbackTitle(s), TitleWidth)
    ensures item.subtitle == Some(s.state)
    ensures item.icon == StatusIcon(GetStateIcon(Some(s.state)))
    ensures item.action == OpenAction(s)
  {
    MenuItem(Truncate(FallbackTitle(s), TitleWidth), Some(s.state),
             StatusIcon(GetStateIcon(Some(s.state))), OpenAction(s))
  }

  /** A session with a title or prompt of at most 40 characters is shown under it in full. */
  lemma SessionItemShortTitle(s: Session)
    requires |FallbackTitle(s)| <= TitleWidth
    ensures SessionItem(s).title == FallbackTitle(s)
  {
  }

  /** The "Recent Sessions" section: one item per recent session, in order, followed
      by the placeholder when there is nothing to show and nothing is loading. */
  function RecentSection(data: Option<SessionsResponse>, isLoading: bool): (items: seq<MenuItem>)
    ensures var recent := RecentSessions(data);
      && |items| == |recent| + (if recent == [] && !isLoading then 1 else 0)
      && (forall i :: 0 <= i < |recent| ==> items[i] == SessionItem(recent[i]))
      && (recent == [] && !isLoading ==> items == [NoRecentItem])
  {
    var recent := RecentSessions(data);
    var listed := seq(|recent|, i requires 0 <= i < |recent| => SessionItem(recent[i]));
    if |listed| == 0 && !isLoading then listed + [NoRecentItem] else listed
  }

  /** The placeholder is shown exactly when the recent list is empty and the view is not
      loading; it can never be mistaken for a session's item. */
  lemma NoRecentShownIff(data: Option<SessionsResponse>, isLoading: bool)
    ensures NoRecentItem in RecentSection(data, isLoading) <==> RecentSessions(data) == [] && !isLoading
  {
  }

  /** The second section: the two items that launch the other views. */
  function ActionsSection(): (items: seq<MenuItem>)
    ensures |items| == 2
    ensures forall i :: 0 <= i < |items| ==> items[i].action.LaunchCommand?
    ensures items[0].action.name == StartNewSessionCommand
    ensures items[1].action.name == ListSessionsCommand
  {
    [ MenuItem("Start New Session", None, PlainIcon(Plus), LaunchCommand(StartNewSessionCommand)),
      MenuItem("Search Sessions", None, PlainIcon(MagnifyingGlass), LaunchCommand(ListSessionsCommand)) ]
  }
}
