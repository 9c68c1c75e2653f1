/**
 * The `Home` page component of pages/index.tsx as a request/render state
 * machine. Its state is the four React state hooks (apiKey, content, diagram,
 * loading) plus `awaiting`: whether a call of `requestDiagarm` is suspended at
 * one of its two awaits, `await fetch(...)` or `await response.json()`, so that
 * a response can only arrive for a request that was started. No state changes
 * between the two awaits, so they are one wait here; a rejected `json()`
 * leaves the state as a non-ok response does. Each event of the page is one
 * transition: editing the two inputs, clicking Generate, and the ok or non-ok
 * answer to the request.
 *
 * The transitions are given twice: as functions on a `UiState` value (used to
 * state properties of whole runs) and as methods of the class `Page`, whose
 * fields are updated in place as the component's setters do. The event
 * handlers `SetApiKey`, `SetContent`, `ReceiveOk`, `ReceiveNotOk` and
 * `ClickGenerateButton` are each proved equal to `Step` on their event;
 * `RequestDiagram` is proved equal to `Started`, and `GenerateBtnHandler` to
 * `Started` or no change, which is `Step` on a click whenever the button is
 * enabled. The constructor yields `Initial`.
 */
module Home {
  import opened TextLines
  import opened Trimming
  import opened Extraction

  datatype UiState = UiState(apiKey: string, content: string, diagram: string, loading: bool, awaiting: bool)

  /** The state when the page is first rendered. */
  const Initial: UiState := UiState([], [], [], false, false)

  datatype Event =
    | EditApiKey(key: string)   // the API key input
    | EditContent(text: string) // the scenario text area
    | ClickGenerate             // the Generate diagram button
    | ResponseOk(raw: string)   // the proxy answered with an ok status and this result text
    | ResponseNotOk             // the proxy answered with a non-ok status

  /** The Generate button is disabled while the key or the scenario is empty. */
  predicate GenerateEnabled(s: UiState)
  {
    s.apiKey != [] && s.content != []
  }

  /** The guard of the Generate handler: no request in flight and a visible scenario. */
  predicate RequestGuard(s: UiState)
  {
    !s.loading && |Trim(s.content)| > 0
  }

  /** The Code (copy) and SVG buttons are enabled only with a diagram and no request in flight. */
  predicate ExportEnabled(s: UiState)
  {
    s.diagram != [] && !s.loading
  }

  /** The renderer is asked to process the diagram node only when there is a diagram. */
  predicate RendersDiagram(s: UiState)
  {
    s.diagram != []
  }

  /** The start of a request: clear the diagram, raise the loading flag, await the answer. */
  function Started(s: UiState): UiState
  {
    s.(diagram := [], loading := true, awaiting := true)
  }

  /** An ok answer: extract, keep the extraction if it is accepted, drop the loading flag. */
  function Answered(s: UiState, raw: string): UiState
  {
    var text := Extract(raw);
    s.(diagram := if Accepted(text) then text else s.diagram, loading := false, awaiting := false)
  }

  /** A non-ok answer throws before the loading flag is dropped: only the await ends. */
  function Failed(s: UiState): UiState
  {
    s.(awaiting := false)
  }

  function Step(s: UiState, e: Event): UiState
  {
    match e
    case EditApiKey(key) => s.(apiKey := key)
    case EditContent(text) => s.(content := text)
    case ClickGenerate => if GenerateEnabled(s) && RequestGuard(s) then Started(s) else s
    case ResponseOk(raw) => if s.awaiting then Answered(s, raw) else s
    case ResponseNotOk => if s.awaiting then Failed(s) else s
  }

  function Run(s: UiState, events: seq<Event>): UiState
    decreases |events|
  {
    if events == [] then s else Run(Step(s, events[0]), events[1..])
  }

  /**
   * The page invariant: a request in flight has raised the loading flag; while
   * loading there is no diagram; and a diagram is always an accepted,
   * fence-free extraction.
   */
  ghost predicate Consistent(s: UiState)
  {
    && (s.awaiting ==> s.loading)
    && (s.loading ==> s.diagram == [])
    && (s.diagram != [] ==> Accepted(s.diagram) && FenceFree(s.diagram))
  }

  // ---------------------------------------------------------------------
  // Properties of the state machine

  /** Every event keeps the page invariant. */
  lemma StepConsistent(s: UiState, e: Event)
    requires Consistent(s)
    ensures Consistent(Step(s, e))
  {
    if e.ResponseOk? {
      ExtractFenceFree(e.raw);
    }
  }

  /** Every run keeps the page invariant. */
  lemma {:induction false} RunConsistent(s: UiState, events: seq<Event>)
    requires Consistent(s)
    ensures Consistent(Run(s, events))
    decreases |events|
  {
    if events != [] {
      StepConsistent(s, events[0]);
      RunConsistent(Step(s, events[0]), events[1..]);
    }
  }

  /** In every reachable state the export buttons are enabled exactly when a diagram is
      shown, and a shown diagram is an accepted, fence-free extraction. */
  lemma ReachableExport(events: seq<Event>)
    ensures var s := Run(Initial, events);
      && (ExportEnabled(s) <==> s.diagram != [])
      && (RendersDiagram(s) ==> !s.loading && Accepted(s.diagram) && FenceFree(s.diagram))
  {
    RunConsistent(Initial, events);
  }

  /** Clicking Generate starts a request exactly when the button is enabled, nothing is
      loading and the scenario has a visible character; it then clears the diagram and
      raises the loading flag, and leaves the inputs alone. Otherwise nothing changes. */
  lemma ClickGenerateStarts(s: UiState)
    ensures var t := Step(s, ClickGenerate);
      && (t.loading != s.loading <==>
          s.apiKey != [] && s.content != [] && !s.loading && HasVisibleChar(s.content))
      && (t.loading == s.loading ==> t == s)
      && (t.loading != s.loading ==>
          t.diagram == [] && t.loading && t.awaiting && t.apiKey == s.apiKey && t.content == s.content)
  {
    TrimNonEmpty(s.content);
    if GenerateEnabled(s) && RequestGuard(s) {
      assert Step(s, ClickGenerate) == Started(s);
    } else {
      assert Step(s, ClickGenerate) == s;
    }
  }

  /** An ok answer to a request in flight always ends loading; the diagram is the
      extraction when it is accepted, and then its lines are exactly the reply's
      unfenced lines; otherwise it stays empty. */
  lemma OkAnswerCompletes(s: UiState, raw: string)
    requires Consistent(s) && s.awaiting
    ensures var t := Step(s, ResponseOk(raw));
      && !t.loading && !t.awaiting
      && t.diagram == (if Accepted(Extract(raw)) then Extract(raw) else [])
      && (t.diagram != [] ==> Split(t.diagram, Newline) == KeptLines(Split(raw, Newline)))
      && t.apiKey == s.apiKey && t.content == s.content
  {
    if Accepted(Extract(raw)) {
      AcceptedExtraction(raw);
    }
  }

  /** A non-ok answer to a request in flight leaves the page loading with no diagram. */
  lemma NotOkAnswerStaysLoading(s: UiState)
    requires Consistent(s) && s.awaiting
    ensures var t := Step(s, ResponseNotOk);
      t.loading && t.diagram == [] && !t.awaiting && !ExportEnabled(t)
  {
  }

  /** Once a request has failed, the page stays loading with no diagram whatever happens
      next: the guard refuses every later request and no answer is awaited. */
  lemma {:induction false} StuckAfterFailure(s: UiState, events: seq<Event>)
    requires s.loading && !s.awaiting && s.diagram == []
    ensures var t := Run(s, events);
      t.loading && !t.awaiting && t.diagram == [] && !ExportEnabled(t)
    decreases |events|
  {
    if events != [] {
      StuckAfterFailure(Step(s, events[0]), events[1..]);
    }
  }

  /** A run of two events is the two steps in turn. */
  lemma RunTwo(s: UiState, first: Event, second: Event)
    ensures Run(s, [first, second]) == Step(Step(s, first), second)
  {
    var events := [first, second];
    assert events[1..] == [second];
    assert Run(s, events) == Run(Step(s, first), [second]);
    assert [second][1..] == [];
    assert Run(Step(s, first), [second]) == Run(Step(Step(s, first), second), []);
  }

  /** A fenced two-line reply to a scenario renders its two message lines. */
  lemma FencedReplyScenario(key: string, raw: string)
    requires key != []
    requires raw == "```\nA->>B: Request\nB->>A: Response\n```"
    ensures var t := Run(UiState(key, "OAuth2 flow for backend service", [], false, false),
                         [ClickGenerate, ResponseOk(raw)]);
      && t.diagram == "A->>B: Request\nB->>A: Response"
      && !t.loading && ExportEnabled(t)
  {
    var scenario := "OAuth2 flow for backend service";
    var s := UiState(key, scenario, [], false, false);
    assert !IsSpace(scenario[0]);
    TrimNonEmpty(scenario);
    assert Step(s, ClickGenerate) == Started(s);
    RunTwo(s, ClickGenerate, ResponseOk(raw));
    var text := "A->>B: Request\nB->>A: Response";
    ExtractFencedExample(raw);
    assert Accepted(text) by { assert text[0] != UnknownError[0]; }
  }

  /** A sentinel reply, or the proxy's fallback when the completion has no message,
      leaves the diagram empty, ends loading and keeps copy and export disabled. */
  lemma SentinelReplyScenario(s: UiState, content: Option<string>)
    requires Consistent(s) && GenerateEnabled(s) && RequestGuard(s)
    requires content == None || content == Some(UnknownError)
    ensures var t := Run(s, [ClickGenerate, ResponseOk(ProxyResult(content))]);
      t.diagram == [] && !t.loading && !ExportEnabled(t)
  {
    var raw := ProxyResult(content);
    SentinelRejected(content);
    RunTwo(s, ClickGenerate, ResponseOk(raw));
    assert Step(s, ClickGenerate) == Started(s);
  }

  // ---------------------------------------------------------------------
  // The component, with its state hooks as fields

  class Page {
    var apiKey: string
    var content: string
    var diagram: string
    var loading: bool
    var awaiting: bool

    function State(): UiState
      reads this
    {
      UiState(apiKey, content, diagram, loading, awaiting)
    }

    ghost predicate Valid()
      reads this
    {
      Consistent(State())
    }

    /** The initial values of the state hooks. */
    constructor ()
      ensures Valid() && State() == Initial
    {
      apiKey, content, diagram, loading, awaiting := [], [], [], false, false;
    }

    /** The API key input's change handler. */
    method SetApiKey(key: string)
      requires Valid()
      modifies this
      ensures Valid()
      ensures apiKey == key
      ensures content == old(content) && diagram == old(diagram)
      ensures loading == old(loading) && awaiting == old(awaiting)
      ensures State() == Step(old(State()), EditApiKey(key))
    {
      apiKey := key;
    }

    /** The scenario text area's change handler. */
    method SetContent(text: string)
      requires Valid()
      modifies this
      ensures Valid()
      ensures content == text
      ensures apiKey == old(apiKey) && diagram == old(diagram)
      ensures loading == old(loading) && awaiting == old(awaiting)
      ensures State() == Step(old(State()), EditContent(text))
    {
      content := text;
    }

    /** `requestDiagarm` up to its `await fetch(...)`: clear the diagram, start loading. */
    method RequestDiagram()
      requires Valid() && !loading
      modifies this
      ensures Valid()
      ensures diagram == [] && loading && awaiting
      ensures apiKey == old(apiKey) && content == old(content)
      ensures State() == Started(old(State()))
    {
      diagram := [];
      loading := true;
      awaiting := true;
    }

    /** `requestDiagarm` after an ok response: extract, accept or not, stop loading. */
    method ReceiveOk(raw: string)
      requires Valid() && awaiting
      modifies this
      ensures Valid()
      ensures !loading && !awaiting
      ensures diagram == (if Accepted(Extract(raw)) then Extract(raw) else [])
      ensures apiKey == old(apiKey) && content == old(content)
      ensures State() == Step(old(State()), ResponseOk(raw))
    {
      var text := Extract(raw);
      if Accepted(text) {
        diagram := text;
        ExtractFenceFree(raw);
      }
      loading := false;
      awaiting := false;
    }

    /** `requestDiagarm` after a non-ok response: the error is thrown before the
        loading flag is reset, so only the await ends. */
    method ReceiveNotOk()
      requires Valid() && awaiting
      modifies this
      ensures Valid()
      ensures loading && diagram == [] && !awaiting
      ensures apiKey == old(apiKey) && content == old(content)
      ensures State() == Step(old(State()), ResponseNotOk)
    {
      awaiting := false;
    }

    /** `generateBtnHandler`: start a request only when nothing is loading and the
        scenario has a visible character. */
    method GenerateBtnHandler() returns (started: bool)
      requires Valid()
      modifies this
      ensures Valid()
      ensures started <==> !old(loading) && HasVisibleChar(old(content))
      ensures State() == if started then Started(old(State())) else old(State())
      ensures GenerateEnabled(old(State())) ==> State() == Step(old(State()), ClickGenerate)
    {
      TrimNonEmpty(content);
      started := !loading && |Trim(content)| > 0;
      if started {
        RequestDiagram();
      }
    }

    /** A click on the Generate button, which is disabled while the key or the
        scenario is empty. */
    method ClickGenerateButton() returns (started: bool)
      requires Valid()
      modifies this
      ensures Valid()
      ensures started <==> GenerateEnabled(old(State())) && RequestGuard(old(State()))
      ensures State() == Step(old(State()), ClickGenerate)
    {
      started := false;
      if apiKey != [] && content != [] {
        started := GenerateBtnHandler();
      }
    }
  }
}
