/** The session creation form: a source dropdown defaulted once to the first fetched
    source, a branch dropdown filled from a second fetch of the selected source's
    details (issued only while a source is selected), a message field, and a submit
    handler that POSTs the new session and reports the outcome in a toast. */
module StartNewSession {
  import opened Api
  import opened ViewRules

  // ---------------------------------------------------------------- source details

  /** The dependent fetch of the selected source's details: it runs only while the
      selection is non-empty, against the resource named by the selection. */
  function DetailFetch(selected: string): (url: Option<string>)
    ensures url.Some? <==> selected != ""
    ensures url.Some? ==> url.value == ApiBaseUrl + "/" + selected
  {
    if selected != "" then Some("https://jules.googleapis.com/v1alpha/" + selected) else None
  }

  /** The details fetch that a change of selection starts: the hook's URL follows the
      selection, so a fetch starts when the selection changes to a non-empty value, and
      none when it stays the same or the gate closes. */
  function TriggeredFetch(before: string, after: string): (url: Option<string>)
    ensures url.Some? <==> before != after && after != ""
    ensures url.Some? ==> url == DetailFetch(after)
  {
    if before != after then DetailFetch(after) else None
  }

  /** `sourceDetails?.githubRepo?.branches || []`. */
  function BranchesOf(details: Option<Source>): (r: seq<GitHubBranch>)
    ensures (details.None? || details.value.githubRepo.None? ||
             details.value.githubRepo.value.branches.None?) ==> r == []
    ensures details.Some? && details.value.githubRepo.Some? &&
            details.value.githubRepo.value.branches.Some? ==>
              r == details.value.githubRepo.value.branches.value
  {
    match details
    case None => []
    case Some(src) =>
      match src.githubRepo
      case None => []
      case Some(repo) => repo.branches.GetOr([])
  }

  /** The values offered by the branch dropdown, one per branch, in order. */
  function BranchChoices(details: Option<Source>): (r: seq<string>)
    ensures |r| == |BranchesOf(details)|
    ensures forall i :: 0 <= i < |r| ==> r[i] == BranchesOf(details)[i].displayName
  {
    var branches := BranchesOf(details);
    seq(|branches|, i requires 0 <= i < |branches| => branches[i].displayName)
  }

  /** `sourceDetails?.githubRepo?.defaultBranch?.displayName`: the branch preselected in
      the dropdown, absent when any link of the chain is absent. */
  function DefaultBranch(details: Option<Source>): (r: Option<string>)
    ensures r.Some? <==> details.Some? && details.value.githubRepo.Some? &&
                         details.value.githubRepo.value.defaultBranch.Some?
    ensures r.Some? ==> r.value == details.value.githubRepo.value.defaultBranch.value.displayName
  {
    match details
    case None => None
    case Some(src) =>
      match src.githubRepo
      case None => None
      case Some(repo) =>
        match repo.defaultBranch
        case None => None
        case Some(b) => Some(b.displayName)
  }

  /** Before any details arrive, or when the service leaves the repository or its branch
      list out, the dropdown offers nothing; before any details arrive it preselects nothing. */
  lemma NoDetailsNoBranches(details: Option<Source>)
    requires details.None? || details.value.githubRepo.None? ||
             details.value.githubRepo.value.branches.None?
    ensures BranchChoices(details) == []
    ensures details.None? ==> DefaultBranch(details) == None
  {
  }

  // ---------------------------------------------------------------- the request

  datatype FormValues = FormValues(source: string, branch: string, message: string)

  datatype GitHubRepoContext = GitHubRepoContext(startingBranch: string)
  datatype RequestSourceContext = RequestSourceContext(source: string, githubRepoContext: GitHubRepoContext)
  /** The JSON body of `POST /sessions`, field for field. */
  datatype SessionPayload = SessionPayload(prompt: string, sourceContext: RequestSourceContext)

  datatype Header = Header(name: string, value: string)
  datatype PostRequest = PostRequest(url: string, headers: seq<Header>, body: SessionPayload)

  /** The payload of a submitted form: the message is the prompt, the chosen source and
      branch go into the source context. */
  function BuildPayload(values: FormValues): (p: SessionPayload)
    ensures p.prompt == values.message
    ensures p.sourceContext.source == values.source
    ensures p.sourceContext.githubRepoContext.startingBranch == values.branch
  {
    SessionPayload(values.message,
                   RequestSourceContext(values.source, GitHubRepoContext(values.branch)))
  }

  /** Reading the form back out of a payload. */
  function PayloadValues(p: SessionPayload): (v: FormValues)
    ensures v.message == p.prompt && v.source == p.sourceContext.source
    ensures v.branch == p.sourceContext.githubRepoContext.startingBranch
  {
    FormValues(p.sourceContext.source, p.sourceContext.githubRepoContext.startingBranch, p.prompt)
  }

  /** The payload loses nothing and adds nothing: form and payload determine each other. */
  lemma PayloadRoundTrip(values: FormValues, p: SessionPayload)
    ensures PayloadValues(BuildPayload(values)) == values
    ensures BuildPayload(PayloadValues(p)) == p
  {
  }

  /** The creation request: a POST to the sessions collection carrying the API key
      and the payload as JSON. */
  function CreateSessionRequest(apiKey: string, values: FormValues): (req: PostRequest)
    ensures req.url == ApiBaseUrl + "/sessions"
    ensures Header("Content-Type", "application/json") in req.headers
    ensures Header("X-Goog-Api-Key", apiKey) in req.headers
    ensures |req.headers| == 2
    ensures req.body == BuildPayload(values)
  {
    PostRequest("https://jules.googleapis.com/v1alpha/sessions",
                [Header("Content-Type", "application/json"), Header("X-Goog-Api-Key", apiKey)],
                BuildPayload(values))
  }

  // ---------------------------------------------------------------- the outcome

  const CreateFailurePrefix: string := "Failed to create session: "

  /** The error thrown for a non-2xx reply: a fixed prefix, the status text, a dash,
      and the raw body text. */
  function CreateErrorMessage(statusText: string, bodyText: string): (m: string)
    ensures |m| == |CreateFailurePrefix| + |statusText| + 3 + |bodyText|
    ensures m[..|CreateFailurePrefix|] == CreateFailurePrefix
    ensures m[|CreateFailurePrefix|..|CreateFailurePrefix| + |statusText|] == statusText
    ensures m[|CreateFailurePrefix| + |statusText|..|CreateFailurePrefix| + |statusText| + 3] == " - "
    ensures m[|m| - |bodyText|..] == bodyText
  {
    "Failed to create session: " + statusText + " - " + bodyText
  }

  /** `part` occurs in `whole` starting at index `i`. */
  ghost predicate OccursAt(whole: string, part: string, i: int) {
    0 <= i <= |whole| - |part| && whole[i..i + |part|] == part
  }

  /** `part` occurs in `whole` as a contiguous piece. */
  ghost predicate Contains(whole: string, part: string) {
    exists i :: OccursAt(whole, part, i)
  }

  /** The failure message carries both the status text and the body. */
  lemma ErrorMessageContainsBoth(statusText: string, bodyText: string)
    ensures Contains(CreateErrorMessage(statusText, bodyText), statusText)
    ensures Contains(CreateErrorMessage(statusText, bodyText), bodyText)
  {
    var m := CreateErrorMessage(statusText, bodyText);
    var n := |CreateFailurePrefix|;
    assert OccursAt(m, statusText, n);
    assert m[|m| - |bodyText|..|m| - |bodyText| + |bodyText|] == bodyText;
    assert OccursAt(m, bodyText, |m| - |bodyText|);
  }

  /** For a given status, distinct bodies give distinct messages: the body can be read back. */
  lemma ErrorMessageKeepsBody(statusText: string, body1: string, body2: string)
    requires CreateErrorMessage(statusText, body1) == CreateErrorMessage(statusText, body2)
    ensures body1 == body2
  {
  }

  /** What `response.json()` does with the body of a 2xx reply. */
  datatype JsonBody = ValidJson | InvalidJson(message: string)

  /** What the awaited `fetch` comes back with. */
  datatype PostOutcome =
    | NetworkError(message: string)
    | Response(ok: bool, statusText: string, bodyText: string, json: JsonBody)

  /** The message of the error caught by the handler, or None when the session was created:
      a transport error, a non-2xx reply, or a 2xx reply whose body is not JSON. */
  function SubmitError(o: PostOutcome): (e: Option<string>)
    ensures o.NetworkError? ==> e == Some(o.message)
    ensures o.Response? && !o.ok ==> e == Some(CreateErrorMessage(o.statusText, o.bodyText))
    ensures o.Response? && o.ok ==> (e.None? <==> o.json.ValidJson?)
    ensures o.Response? && o.ok && o.json.InvalidJson? ==> e == Some(o.json.message)
  {
    match o
    case NetworkError(msg) => Some(msg)
    case Response(ok, statusText, bodyText, json) =>
      if !ok then Some(CreateErrorMessage(statusText, bodyText))
      else
        match json
        case ValidJson => None
        case InvalidJson(msg) => Some(msg)
  }

  datatype ToastStyle = Animated | Success | Failure
  datatype ToastContent = ToastContent(style: ToastStyle, title: string, message: Option<string>)

  const CreatingTitle: string := "Creating session..."
  const CreatedTitle: string := "Session created successfully"
  const CreatedMessage: string := "Check logs for details"
  const FailedTitle: string := "Failed to create session"

  /** How the toast reads once the handler is done: Success exactly when the session was
      created, otherwise Failure with the caught error's message. */
  function FinalToast(o: PostOutcome): (t: ToastContent)
    ensures t.style == Success <==> SubmitError(o).None?
    ensures t.style == Failure <==> SubmitError(o).Some?
    ensures t.style == Failure ==> t.title == FailedTitle && t.message == SubmitError(o)
    ensures t.style == Success ==> t.title == CreatedTitle && t.message == Some(CreatedMessage)
  {
    match SubmitError(o)
    case None => ToastContent(Success, CreatedTitle, Some(CreatedMessage))
    case Some(msg) => ToastContent(Failure, FailedTitle, Some(msg))
  }

  /** A reply with status 500 and body "boom" ends in a Failure toast naming both. */
  lemma ServerErrorExample(statusText: string)
    ensures FinalToast(Response(false, statusText, "boom", ValidJson)).style == Failure
    ensures FinalToast(Response(false, statusText, "boom", ValidJson)).message ==
            Some(CreateErrorMessage(statusText, "boom"))
    ensures Contains(CreateErrorMessage(statusText, "boom"), "boom")
  {
    ErrorMessageContainsBoth(statusText, "boom");
  }

  // ---------------------------------------------------------------- observable effects

  /** What the form does that the outside world can see, in order. */
  datatype Effect = SetLoading(value: bool) | ShowToast(style: ToastStyle, title: string) | Post(request: PostRequest)

  /** The value of the submit-in-flight flag after a run of effects, starting from `init`. */
  function LoadingAfter(init: bool, trace: seq<Effect>): (b: bool)
    ensures (forall i :: 0 <= i < |trace| ==> !trace[i].SetLoading?) ==> b == init
    ensures trace != [] && trace[|trace| - 1].SetLoading? ==> b == trace[|trace| - 1].value
    decreases |trace|
  {
    if trace == [] then init
    else LoadingAfter(if trace[0].SetLoading? then trace[0].value else init, trace[1..])
  }

  /** The flag after two runs is the flag after the second, started from the first's. */
  lemma {:induction false} LoadingAfterAppend(init: bool, a: seq<Effect>, b: seq<Effect>)
    ensures LoadingAfter(init, a + b) == LoadingAfter(LoadingAfter(init, a), b)
    decreases |a|
  {
    if a == [] {
      assert a + b == b;
    } else {
      assert (a + b)[0] == a[0];
      assert (a + b)[1..] == a[1..] + b;
      LoadingAfterAppend(if a[0].SetLoading? then a[0].value else init, a[1..], b);
    }
  }

  /** The effects of one submit: raise the flag, show the progress toast, POST, lower the flag. */
  function SubmitEffects(apiKey: string, values: FormValues): (t: seq<Effect>)
    ensures |t| == 4 && t[0] == SetLoading(true) && t[|t| - 1] == SetLoading(false)
    ensures t[1] == ShowToast(Animated, CreatingTitle) && t[2] == Post(CreateSessionRequest(apiKey, values))
    ensures forall i :: 0 <= i < |t| && t[i].Post? ==> i == 2 && t[i].request == CreateSessionRequest(apiKey, values)
  {
    [SetLoading(true), ShowToast(Animated, CreatingTitle), Post(CreateSessionRequest(apiKey, values)),
     SetLoading(false)]
  }

  /** Whatever came before, the flag is raised while the POST is in flight and lowered
      once the submit is over, on the success and on the failure path alike. */
  lemma SubmitLoadingLifecycle(before: seq<Effect>, init: bool, apiKey: string, values: FormValues)
    ensures var t := before + SubmitEffects(apiKey, values);
      && t[|before| + 2].Post?
      && LoadingAfter(init, t[..|before| + 2]) == true
      && LoadingAfter(init, t) == false
  {
    var s := SubmitEffects(apiKey, values);
    var t := before + s;
    var raised := [SetLoading(true), ShowToast(Animated, CreatingTitle)];
    assert t[..|before| + 2] == before + raised;
    LoadingAfterAppend(init, before, raised);
    assert raised[1..] == [ShowToast(Animated, CreatingTitle)];
    assert LoadingAfter(LoadingAfter(init, before), raised) == LoadingAfter(true, raised[1..]);
  }

  /** The toast that `handleSubmit` shows and then restyles in place. */
  class Toast {
    var style: ToastStyle
    var title: string
    var message: Option<string>

    constructor (style: ToastStyle, title: string)
      ensures this.style == style && this.title == title && this.message == None
    {
      this.style := style;
      this.title := title;
      this.message := None;
    }

    /** The toast as the user reads it. */
    function Content(): (c: ToastContent)
      reads this
    {
      ToastContent(style, title, message)
    }
  }

  /** The form's state. `effects` records every observable action in order, and the
      in-flight flag is always the one those actions leave behind. */
  class NewSessionForm {
    const apiKey: string
    var isLoading: bool
    var selectedSource: string
    var sourcesData: Option<SourcesResponse>
    var sourceDetails: Option<Source>
    /** The selection the stored details were fetched for. */
    var detailsFor: string
    ghost var effects: seq<Effect>

    ghost predicate Valid()
      reads this
    {
      isLoading == LoadingAfter(false, effects)
    }

    /** Opening the form with the API key from the preferences. */
    constructor (apiKey: string)
      ensures Valid()
      ensures this.apiKey == apiKey && !isLoading && selectedSource == ""
      ensures sourcesData == None && sourceDetails == None && detailsFor == "" && effects == []
    {
      this.apiKey := apiKey;
      isLoading := false;
      selectedSource := "";
      sourcesData := None;
      sourceDetails := None;
      detailsFor := "";
      effects := [];
    }

    /** The sources fetch resolves and the default-once effect runs; when it changes the
        selection, the details fetch for the new selection starts. */
    method ReceiveSources(data: SourcesResponse) returns (fetch: Option<string>)
      requires Valid()
      modifies this
      ensures Valid()
      ensures sourcesData == Some(data)
      ensures selectedSource == DefaultSelection(Some(data), old(selectedSource))
      ensures old(selectedSource) != "" ==> selectedSource == old(selectedSource)
      ensures fetch == TriggeredFetch(old(selectedSource), selectedSource)
      ensures isLoading == old(isLoading) && effects == old(effects)
      ensures sourceDetails == old(sourceDetails) && detailsFor == old(detailsFor)
    {
      var before := selectedSource;
      sourcesData := Some(data);
      if data.sources.Some? && |data.sources.value| > 0 && selectedSource == "" {
        selectedSource := data.sources.value[0].name;
      }
      fetch := TriggeredFetch(before, selectedSource);
    }

    /** The user picks a source; a new non-empty pick starts the details fetch for it. */
    method OnChange(value: string) returns (fetch: Option<string>)
      requires Valid()
      modifies this
      ensures Valid()
      ensures selectedSource == value && fetch == TriggeredFetch(old(selectedSource), value)
      ensures isLoading == old(isLoading) && sourcesData == old(sourcesData)
      ensures sourceDetails == old(sourceDetails) && detailsFor == old(detailsFor)
      ensures effects == old(effects)
    {
      fetch := TriggeredFetch(selectedSource, value);
      selectedSource := value;
    }

    /** The details fetched for the selection `fetchedFor` arrive. */
    method ReceiveSourceDetails(fetchedFor: string, details: Source)
      requires Valid()
      modifies this
      ensures Valid()
      ensures sourceDetails == Some(details) && detailsFor == fetchedFor
      ensures isLoading == old(isLoading) && selectedSource == old(selectedSource)
      ensures sourcesData == old(sourcesData) && effects == old(effects)
    {
      sourceDetails := Some(details);
      detailsFor := fetchedFor;
    }

    /** The details the hook exposes now: the stored ones, and only while the gate is
        open and they were fetched for the current selection. */
    function CurrentDetails(): (d: Option<Source>)
      reads this
      ensures d.Some? <==> sourceDetails.Some? && selectedSource != "" && detailsFor == selectedSource
      ensures d.Some? ==> d == sourceDetails
    {
      if selectedSource != "" && detailsFor == selectedSource then sourceDetails else None
    }

    /** The branch dropdown as it is rendered now: the current details' branches, and none
        while the details of another source, or none at all, are stored. */
    function Branches(): (r: seq<string>)
      reads this
      ensures r == BranchChoices(CurrentDetails())
      ensures sourceDetails.None? || detailsFor != selectedSource ==> r == []
    {
      BranchChoices(CurrentDetails())
    }

    /** The branch the dropdown preselects now. */
    function PreselectedBranch(): (r: Option<string>)
      reads this
      ensures r == DefaultBranch(CurrentDetails())
      ensures sourceDetails.None? || detailsFor != selectedSource ==> r.None?
    {
      DefaultBranch(CurrentDetails())
    }

    /** `handleSubmit`: raise the flag, show the progress toast, POST the payload,
        restyle the toast from the outcome, and lower the flag whatever the outcome. */
    method HandleSubmit(values: FormValues, outcome: PostOutcome) returns (toast: Toast)
      requires Valid()
      modifies this
      ensures Valid() && fresh(toast)
      ensures !isLoading
      ensures effects == old(effects) + SubmitEffects(apiKey, values)
      ensures toast.Content() == FinalToast(outcome)
      ensures selectedSource == old(selectedSource) && sourcesData == old(sourcesData)
      ensures sourceDetails == old(sourceDetails) && detailsFor == old(detailsFor)
    {
      isLoading := true;
      effects := effects + [SetLoading(true)];
      toast := new Toast(Animated, CreatingTitle);
      effects := effects + [ShowToast(Animated, CreatingTitle)];
      var request := CreateSessionRequest(apiKey, values);
      effects := effects + [Post(request)];
      var error: Option<string>;
      match outcome {
        case NetworkError(msg) =>
          error := Some(msg);
        case Response(ok, statusText, bodyText, json) =>
          if !ok {
            error := Some(CreateErrorMessage(statusText, bodyText));
          } else {
            match json {
              case ValidJson => error := None;
              case InvalidJson(msg) => error := Some(msg);
            }
          }
      }
      if error.None? {
        toast.style := Success;
        toast.title := CreatedTitle;
        toast.message := Some(CreatedMessage);
      } else {
        toast.style := Failure;
        toast.title := FailedTitle;
        toast.message := error;
      }
      isLoading := false;
      effects := effects + [SetLoading(false)];
      assert effects == old(effects) + SubmitEffects(apiKey, values);
    }
  }

  /** Source "sources/42", branch "main", message "fix bug": one POST to the sessions
      collection with exactly that body; a 500 reply with body "boom" then leaves a
      Failure toast that names the body, and the flag lowered. */
  method SubmitScenario()
  {
    var form := new NewSessionForm("key");
    var fetch := form.OnChange("sources/42");
    assert fetch == Some(ApiBaseUrl + "/" + "sources/42");
    var values := FormValues("sources/42", "main", "fix bug");
    var toast := form.HandleSubmit(values, Response(false, "Internal Server Error", "boom", ValidJson));
    assert form.effects[2].request.body ==
           SessionPayload("fix bug", RequestSourceContext("sources/42", GitHubRepoContext("main")));
    assert toast.style == Failure && !form.isLoading;
    ErrorMessageContainsBoth("Internal Server Error", "boom");
    assert Contains(toast.message.value, "boom");
  }

  /** Details arrive for "sources/1" and its branch "main" is offered; picking "sources/2"
      starts that source's fetch and offers nothing until its details arrive. */
  method DetailsScenario()
  {
    var form := new NewSessionForm("key");
    var fetch := form.OnChange("sources/1");
    assert fetch == DetailFetch("sources/1");
    var main := GitHubBranch("main");
    var repo := GitHubRepo("owner", "repo", Some(main), Some([main]));
    form.ReceiveSourceDetails("sources/1", Source("sources/1", "1", Some(repo)));
    assert form.Branches() == ["main"];
    assert form.PreselectedBranch() == Some("main");
    fetch := form.OnChange("sources/2");
    assert fetch == DetailFetch("sources/2");
    assert form.Branches() == [] && form.PreselectedBranch() == None;
  }
}
