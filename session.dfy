/**
  The per-connection turn orchestrator: the state machine over the turn
  counter, the theme and conclusion flags and the message history; the
  directive it composes for the storyteller; the order of the messages it
  sends; and the image pipeline that chains each generated image into the
  next edit.

  The storyteller call is an oracle (`AgentRun`): the tool calls it made
  against the game context and what it returned. The connection is a
  boolean per call, the image service a function from its inputs to the
  decoded output, and every message sent is appended to `events`.
 */
module Session {
  import opened Wrappers
  import opened ObjectiveSpec
  import opened AgentService

  type Bytes = seq<bv8>

  /** An image held in memory: its bytes and its mime type. */
  datatype Image = Image(bytes: Bytes, mime: string)

  /** The storyteller's structured answer. */
  datatype StoryResponse = StoryResponse(
    imagePrompt: string,
    charactersInScene: seq<string>,
    narration: string,
    choices: seq<string>)

  /** One tool invocation made by the storyteller during its run. */
  datatype ToolCall =
    | CreateObjectives(inputs: seq<ObjectiveInput>)
    | UpdateStatus(ids: seq<int>)
    | GetObjectives

  /**
    How the storyteller call ended: a structured answer, an answer recovered
    from a JSON text (which skips the roster update), or no answer at all.
   */
  datatype AgentResult =
    | Structured(response: StoryResponse)
    | FromText(response: StoryResponse)
    | NoResponse
  {
    function Response(): Option<StoryResponse>
    {
      if NoResponse? then None else Some(response)
    }
  }

  datatype AgentRun = AgentRun(toolCalls: seq<ToolCall>, result: AgentResult)

  /** One pending objective in the reminder, rendered `ID {id}: {objective}`. */
  datatype PendingItem = PendingItem(id: int, objective: string)

  datatype Reminder =
    | PendingObjectives(items: seq<PendingItem>)
    | AllObjectivesDone
    | ObjectivesNotDefined

  datatype Summary = NoPreviousScene | PreviousNarration(excerpt: string)

  /** The instruction sent to the storyteller; its fixed wording is not modelled. */
  datatype Directive =
    | ThemeDirective(theme: string)
    | ConcludeDirective
    | ContinueDirective(reminder: Reminder, summary: Summary, choice: string)

  datatype Content =
    | DirectiveText(directive: Directive)
    | StoryJson(story: StoryResponse)
    | ThemeSetupLog(narration: string, choices: seq<string>, imagePrompt: string)

  datatype Role = User | Assistant

  datatype Message = Message(role: Role, content: Content)

  /** One objective as serialised for the client. */
  datatype ObjectiveEntry = ObjectiveEntry(id: int, objective: string, finished: bool)

  datatype ErrorReason =
    | AgentResponseError
    | NoReferenceImage
    | SceneImageFailed
    | InitialImageFailed
    | PlaceholderUnavailable

  /** A message sent to the client, or a background image task started. */
  datatype Event =
    | ObjectivesEvent(entries: seq<ObjectiveEntry>, turnId: int)
    | NarrationBlock(content: string, turnId: int)
    | ChoicesEvent(choices: seq<string>, turnId: int)
    | ImageEvent(image: Bytes, turnId: int)
    | ErrorEvent(reason: ErrorReason, turnId: int)
    | SceneImageTask(prompt: string, turnId: int)
    | InitialImageTask(prompt: string, turnId: int)

  /** A call made to the external image-editing service. */
  datatype ImageRequest = ImageRequest(images: seq<Image>, prompt: string)

  /** The static configuration the session reads. */
  datatype Config = Config(
    maxGameTurns: int,
    introPrompt: string,
    initialImagePrompt: string,
    usePlaceholderInitialImage: bool,
    auroraDescription: string,
    characterImagePaths: map<string, string>)

  const FallbackThemes: seq<string> := ["Fallback Theme 1", "Fallback Theme 2"]
  const InitialBaseImage: string := "images/aurora.png"
  const SummaryLength: nat := 150

  // ---------------------------------------------------------------------------
  // Directive composition

  /** The unfinished objectives, in list order. */
  function PendingItems(objs: seq<Objective>): (r: seq<PendingItem>)
    ensures |r| <= |objs|
    ensures forall p :: p in r <==>
      exists o :: o in objs && !o.finished && p == PendingItem(o.id, o.objective)
  {
    if objs == [] then []
    else
      var here := if objs[0].finished then [] else [PendingItem(objs[0].id, objs[0].objective)];
      here + PendingItems(objs[1..])
  }

  /**
    The reminder keeps list order: the pending items of two consecutive runs
    of objectives are those of the first run followed by those of the second.
   */
  lemma {:induction false} PendingItemsAppend(a: seq<Objective>, b: seq<Objective>)
    ensures PendingItems(a + b) == PendingItems(a) + PendingItems(b)
    decreases |a|
  {
    if a == [] {
      assert a + b == b;
    } else {
      assert (a + b)[0] == a[0];
      assert (a + b)[1..] == a[1..] + b;
      PendingItemsAppend(a[1..], b);
    }
  }

  /** The reminder of pending objectives: listed only once objectives are initialised. */
  function ReminderFor(initialized: bool, objs: seq<Objective>): (r: Reminder)
    ensures r.ObjectivesNotDefined? <==> !initialized
    ensures r.PendingObjectives? <==> initialized && exists o :: o in objs && !o.finished
    ensures r.PendingObjectives? ==> forall p :: p in r.items <==>
      exists o :: o in objs && !o.finished && p == PendingItem(o.id, o.objective)
  {
    var pending := if initialized && objs != [] then PendingItems(objs) else [];
    assert initialized ==> forall o :: o in objs && !o.finished ==> PendingItem(o.id, o.objective) in pending;
    if pending != [] then assert pending[0] in pending; PendingObjectives(pending)
    else if initialized then AllObjectivesDone
    else ObjectivesNotDefined
  }

  /** At most the first `n` characters of `s`. */
  function Truncate(s: string, n: nat): (r: string)
    ensures |r| <= n && r <= s
    ensures |s| <= n ==> r == s
    ensures |s| > n ==> |r| == n
  {
    if |s| <= n then s else s[..n]
  }

  /** The previous-scene summary: at most 150 characters of the last narration. */
  function SummaryFor(last: Option<StoryResponse>): (r: Summary)
    ensures r.NoPreviousScene? <==> last.None?
    ensures r.PreviousNarration? ==>
      |r.excerpt| <= SummaryLength && r.excerpt <= last.value.narration &&
      (|last.value.narration| <= SummaryLength ==> r.excerpt == last.value.narration)
  {
    match last
    case None => NoPreviousScene
    case Some(r) => PreviousNarration(Truncate(r.narration, SummaryLength))
  }

  /**
    The directive of a turn: the theme on the first call after a reset; the
    conclusion when the new turn number reaches the maximum; otherwise the
    continuation with the reminder and summary.
   */
  function DirectiveFor(themeSelected: bool, newTurn: int, maxGameTurns: int,
                        initialized: bool, objs: seq<Objective>,
                        last: Option<StoryResponse>, choice: string): (r: Directive)
    ensures r.ThemeDirective? <==> !themeSelected
    ensures r.ConcludeDirective? <==> themeSelected && newTurn >= maxGameTurns
    ensures r.ThemeDirective? ==> r.theme == choice
    ensures r.ContinueDirective? ==>
      r.choice == choice && r.reminder == ReminderFor(initialized, objs) && r.summary == SummaryFor(last)
  {
    if !themeSelected then ThemeDirective(choice)
    else if newTurn >= maxGameTurns then ConcludeDirective
    else ContinueDirective(ReminderFor(initialized, objs), SummaryFor(last), choice)
  }

  // ---------------------------------------------------------------------------
  // Messages of one turn

  /** The objectives payload: each objective's id, description and flag. */
  function ObjectivesPayload(objs: seq<Objective>): (r: seq<ObjectiveEntry>)
    ensures |r| == |objs|
    ensures forall i :: 0 <= i < |objs| ==>
      r[i].id == objs[i].id && r[i].objective == objs[i].objective && r[i].finished == objs[i].finished
  {
    if objs == [] then []
    else [ObjectiveEntry(objs[0].id, objs[0].objective, objs[0].finished)] + ObjectivesPayload(objs[1..])
  }

  /**
    The payload as the serialising loop is written: it reads two attributes
    that objectives do not declare, so the first objective raises and no
    payload is produced; only the empty list serialises.
   */
  function ObjectivesPayloadAsWritten(objs: seq<Objective>): (r: Option<seq<ObjectiveEntry>>)
    ensures r.Some? <==> objs == []
    ensures r.Some? ==> r.value == ObjectivesPayload(objs)
  {
    if objs == [] then Some([]) else None
  }

  /** Whatever the list, the loop as written fails exactly when there is an objective to send. */
  lemma AsWrittenPayloadFails(objs: seq<Objective>)
    ensures ObjectivesPayloadAsWritten(objs).None? <==> objs != []
    ensures objs != [] ==> ObjectivesPayloadAsWritten(objs) != Some(ObjectivesPayload(objs))
  {
  }

  /** A concrete list on which the two serialisations differ. */
  lemma AsWrittenPayloadCounterexample()
    ensures ObjectivesPayloadAsWritten([Objective(1, "find the key", false)]) == None
    ensures ObjectivesPayload([Objective(1, "find the key", false)]) ==
      [ObjectiveEntry(1, "find the key", false)]
  {
  }

  /**
    The messages of a turn whose storyteller call succeeded, in the order they
    are sent: objectives, narration, scene image task, choices. Choices are
    withheld once the game is concluded.
   */
  function TurnEvents(connected: bool, turnId: int, objs: seq<Objective>,
                      r: StoryResponse, concluded: bool): (evs: seq<Event>)
    ensures evs == [] <==> !connected
    ensures |evs| <= 4
  {
    (if connected then [ObjectivesEvent(ObjectivesPayload(objs), turnId)] else []) +
    (if connected && r.narration != "" then [NarrationBlock(r.narration, turnId)] else []) +
    (if connected && r.imagePrompt != "" then [SceneImageTask(r.imagePrompt, turnId)] else []) +
    (if connected && !concluded && r.choices != [] then [ChoicesEvent(r.choices, turnId)] else [])
  }

  /**
    A connected turn opens with the objectives and sends at most four
    messages; the choices are among them exactly when the game is open and
    there are choices.
   */
  lemma TurnEventsContent(connected: bool, turnId: int, objs: seq<Objective>,
                          r: StoryResponse, concluded: bool)
    ensures var evs := TurnEvents(connected, turnId, objs, r, concluded);
      |evs| <= 4 && (connected ==> evs[0] == ObjectivesEvent(ObjectivesPayload(objs), turnId)) &&
      (ChoicesEvent(r.choices, turnId) in evs <==> connected && !concluded && r.choices != [])
  {
  }

  /**
    The sends of a successful turn as the code is written: connected, with any
    objective, the serialising loop raises, and the handler sends one error
    in place of the objectives, narration, scene image task and choices.
   */
  function TurnEventsAsWritten(connected: bool, turnId: int, objs: seq<Objective>,
                               r: StoryResponse, concluded: bool): (evs: seq<Event>)
    ensures evs == [] <==> !connected
    ensures forall e :: e in evs && e.ObjectivesEvent? ==> e.entries == []
  {
    if connected && ObjectivesPayloadAsWritten(objs).None? then [ErrorEvent(AgentResponseError, turnId)]
    else TurnEvents(connected, turnId, objs, r, concluded)
  }

  /**
    The two agree exactly when there is nothing to serialise or no one to
    send to; otherwise the turn as written loses its narration and choices.
   */
  lemma AsWrittenTurnLosesStory(connected: bool, turnId: int, objs: seq<Objective>,
                                r: StoryResponse, concluded: bool)
    ensures !connected || objs == [] ==>
      TurnEventsAsWritten(connected, turnId, objs, r, concluded) == TurnEvents(connected, turnId, objs, r, concluded)
    ensures connected && objs != [] ==>
      TurnEventsAsWritten(connected, turnId, objs, r, concluded) == [ErrorEvent(AgentResponseError, turnId)] &&
      TurnEvents(connected, turnId, objs, r, concluded)[0] == ObjectivesEvent(ObjectivesPayload(objs), turnId)
    ensures connected && objs != [] && r.narration != "" ==>
      NarrationBlock(r.narration, turnId) in TurnEvents(connected, turnId, objs, r, concluded) &&
      NarrationBlock(r.narration, turnId) !in TurnEventsAsWritten(connected, turnId, objs, r, concluded)
  {
    if connected && objs != [] && r.narration != "" {
      var evs := TurnEvents(connected, turnId, objs, r, concluded);
      assert evs[1] == NarrationBlock(r.narration, turnId);
    }
  }

  /**
    The conclusion check of a recorded turn: a completed quest concludes an
    open game and discards the turn's choices. Yields the flag and the choices.
   */
  function TurnConclusion(state: QuestState, wasConcluded: bool, choices: seq<string>): (r: (bool, seq<string>))
    ensures r.0 <==> wasConcluded || state == Completed
    ensures r.0 && !wasConcluded ==> r.1 == []
    ensures !(r.0 && !wasConcluded) ==> r.1 == choices
  {
    if state == Completed && !wasConcluded then (true, []) else (wasConcluded, choices)
  }

  /**
    The conclusion check as the code is written: it follows the objectives
    message, so when that message raises the check never runs.
   */
  function TurnConclusionAsWritten(connected: bool, objs: seq<Objective>, state: QuestState,
                                   wasConcluded: bool, choices: seq<string>): (r: (bool, seq<string>))
    ensures !connected || objs == [] ==> r == TurnConclusion(state, wasConcluded, choices)
  {
    if connected && ObjectivesPayloadAsWritten(objs).None? then (wasConcluded, choices)
    else TurnConclusion(state, wasConcluded, choices)
  }

  /**
    As written, a connected game never ends on quest completion: a completed
    quest has objectives, so the check is skipped and flag and choices stay,
    where the corrected turn concludes and withholds the choices.
   */
  lemma AsWrittenNeverConcludesOnCompletion(objs: seq<Objective>, wasConcluded: bool, choices: seq<string>)
    requires QuestConsistent(Completed, objs)
    ensures TurnConclusionAsWritten(true, objs, Completed, wasConcluded, choices) == (wasConcluded, choices)
    ensures !wasConcluded ==> TurnConclusion(Completed, wasConcluded, choices) == (true, [])
  {
  }

  /** Position of a message kind in the per-turn order. */
  function Rank(e: Event): nat
  {
    match e
    case ObjectivesEvent(_, _) => 0
    case NarrationBlock(_, _) => 1
    case SceneImageTask(_, _) => 2
    case ChoicesEvent(_, _) => 3
    case _ => 4
  }

  /**
    Within a turn, each kind is sent at most once and in the fixed order; a
    concluded turn sends no choices; every message carries the turn's id.
   */
  lemma TurnEventsOrdered(connected: bool, turnId: int, objs: seq<Objective>,
                          r: StoryResponse, concluded: bool)
    ensures var evs := TurnEvents(connected, turnId, objs, r, concluded);
      (forall i, j :: 0 <= i < j < |evs| ==> Rank(evs[i]) < Rank(evs[j])) &&
      (concluded ==> forall i :: 0 <= i < |evs| ==> !evs[i].ChoicesEvent?) &&
      (forall i :: 0 <= i < |evs| ==> Rank(evs[i]) < 4 && evs[i].turnId == turnId) &&
      (!connected <==> evs == [])
  {
    var evs := TurnEvents(connected, turnId, objs, r, concluded);
    var a := if connected then [ObjectivesEvent(ObjectivesPayload(objs), turnId)] else [];
    var b := if connected && r.narration != "" then [NarrationBlock(r.narration, turnId)] else [];
    var c := if connected && r.imagePrompt != "" then [SceneImageTask(r.imagePrompt, turnId)] else [];
    var d := if connected && !concluded && r.choices != [] then [ChoicesEvent(r.choices, turnId)] else [];
    assert evs == a + b + c + d;
    RanksIncrease(a, b, c, d);
  }

  /** Four runs of at most one message each, of ranks 0 to 3, are in strictly increasing rank. */
  lemma RanksIncrease(a: seq<Event>, b: seq<Event>, c: seq<Event>, d: seq<Event>)
    requires |a| <= 1 && |b| <= 1 && |c| <= 1 && |d| <= 1
    requires forall k :: 0 <= k < |a| ==> Rank(a[k]) == 0
    requires forall k :: 0 <= k < |b| ==> Rank(b[k]) == 1
    requires forall k :: 0 <= k < |c| ==> Rank(c[k]) == 2
    requires forall k :: 0 <= k < |d| ==> Rank(d[k]) == 3
    ensures var evs := a + b + c + d;
      forall i, j :: 0 <= i < j < |evs| ==> Rank(evs[i]) < Rank(evs[j])
  {
    var evs := a + b + c + d;
    forall i, j | 0 <= i < j < |evs| ensures Rank(evs[i]) < Rank(evs[j]) {
      assert forall k :: 0 <= k < |a| ==> Rank(evs[k]) == 0;
      assert forall k :: |a| <= k < |a| + |b| ==> Rank(evs[k]) == 1;
      assert forall k :: |a| + |b| <= k < |a| + |b| + |c| ==> Rank(evs[k]) == 2;
      assert forall k :: |a| + |b| + |c| <= k < |evs| ==> Rank(evs[k]) == 3;
    }
  }

  // ---------------------------------------------------------------------------
  // Image inputs

  /** Whether a loaded image counts as present: both bytes and mime non-empty. */
  predicate Loaded(img: Option<Image>)
  {
    img.Some? && img.value.bytes != [] && img.value.mime != ""
  }

  /**
    The reference portraits attached for the characters in the scene, in scene
    order: every character other than `aurora` with a non-empty known path
    whose image loads.
   */
  function Portraits(chars: seq<string>, paths: map<string, string>,
                     load: string -> Option<Image>): (r: seq<Image>)
    ensures |r| <= |chars|
    ensures forall img :: img in r ==>
      exists c :: c in chars && c != "aurora" && c in paths && paths[c] != "" &&
        Loaded(load(paths[c])) && img == load(paths[c]).value
  {
    if chars == [] then []
    else
      var c := chars[0];
      var here :=
        if c in paths && paths[c] != "" && c != "aurora" && Loaded(load(paths[c]))
        then [load(paths[c]).value] else [];
      here + Portraits(chars[1..], paths, load)
  }

  // ---------------------------------------------------------------------------
  // The storyteller call

  /** The part of the game context the objective tools read and write. */
  datatype ObjectiveState = ObjectiveState(
    questState: QuestState,
    objectives: seq<Objective>,
    initialized: bool,
    nextId: int)

  /**
    The effect of one tool call: creation numbers the inputs once, when not
    yet initialised and given some; a status update marks the listed ids and
    recomputes the quest state, when initialised and non-empty; reading the
    objectives changes nothing.
   */
  function ApplyTool(s: ObjectiveState, call: ToolCall): (r: ObjectiveState)
    ensures s.initialized ==> r.initialized
    ensures call.GetObjectives? ==> r == s
    ensures call.CreateObjectives? && (s.initialized || call.inputs == []) ==> r == s
    ensures call.CreateObjectives? && !s.initialized && call.inputs != [] ==>
      r.initialized && r.nextId == s.nextId + |call.inputs| && r.objectives == Numbered(call.inputs, s.nextId) &&
      (r.questState == Completed <==> AllObjectivesCompleted(r.objectives)) &&
      (r.questState != Completed ==> r.questState == InProgress)
    ensures call.UpdateStatus? && (!s.initialized || s.objectives == []) ==> r == s
    ensures call.UpdateStatus? ==>
      r.initialized == s.initialized && r.nextId == s.nextId && |r.objectives| == |s.objectives| &&
      (s.initialized && s.objectives != [] ==> (r.questState == Completed <==> AllObjectivesCompleted(r.objectives)))
  {
    match call
    case CreateObjectives(inputs) =>
      if s.initialized || inputs == [] then s
      else
        var objs := Numbered(inputs, s.nextId);
        ObjectiveState(if AllObjectivesCompleted(objs) then Completed else InProgress,
                       objs, true, s.nextId + |inputs|)
    case UpdateStatus(ids) =>
      if !s.initialized || s.objectives == [] then s
      else
        var objs := MarkAll(s.objectives, ids);
        s.(questState := QuestStateAfterStatusUpdate(s.questState, objs), objectives := objs)
    case GetObjectives => s
  }

  /** The tool calls of a run applied in order. */
  function ApplyTools(s: ObjectiveState, calls: seq<ToolCall>): ObjectiveState
    decreases |calls|
  {
    if calls == [] then s else ApplyTool(ApplyTools(s, calls[..|calls| - 1]), calls[|calls| - 1])
  }

  /**
    A status update that lists the id of every unfinished objective completes
    the quest: with distinct ids every objective ends finished.
   */
  lemma UpdateFinishingAllCompletes(s: ObjectiveState, ids: seq<int>)
    requires s.initialized && s.objectives != [] && UniqueIds(s.objectives)
    requires forall i :: 0 <= i < |s.objectives| && !s.objectives[i].finished ==> s.objectives[i].id in ids
    ensures ApplyTool(s, UpdateStatus(ids)).questState == Completed
  {
    MarkAllUnique(s.objectives, ids);
  }

  /**
    Every run keeps the quest state consistent with its objectives, and
    keeps the ids distinct.
   */
  lemma {:induction false} ApplyToolsKeepsInvariant(s: ObjectiveState, calls: seq<ToolCall>)
    ensures QuestConsistent(s.questState, s.objectives) ==>
      QuestConsistent(ApplyTools(s, calls).questState, ApplyTools(s, calls).objectives)
    ensures UniqueIds(s.objectives) ==> UniqueIds(ApplyTools(s, calls).objectives)
    decreases |calls|
  {
    if calls != [] {
      var prev := ApplyTools(s, calls[..|calls| - 1]);
      ApplyToolsKeepsInvariant(s, calls[..|calls| - 1]);
      match calls[|calls| - 1]
      case CreateObjectives(inputs) =>
        if !prev.initialized && inputs != [] {
          NumberedIds(inputs, prev.nextId);
        }
      case UpdateStatus(ids) =>
        if prev.initialized && prev.objectives != [] && UniqueIds(prev.objectives) {
          MarkAllShape(prev.objectives, ids);
          SameShapeUnique(prev.objectives, MarkAll(prev.objectives, ids));
        }
      case GetObjectives =>
    }
  }

  /** Once initialised, the objectives stay initialised whatever the run does. */
  lemma {:induction false} ApplyToolsKeepsInitialized(s: ObjectiveState, calls: seq<ToolCall>)
    ensures s.initialized ==> ApplyTools(s, calls).initialized
    ensures calls == [] ==> ApplyTools(s, calls) == s
    decreases |calls|
  {
    if calls != [] {
      ApplyToolsKeepsInitialized(s, calls[..|calls| - 1]);
    }
  }

  /** The objective part of a context. */
  ghost function ObjectivesOf(ctx: GameContext): ObjectiveState
    reads ctx`questState, ctx`objectives, ctx`objectivesInitialized, ctx`nextObjectiveId
  {
    ObjectiveState(ctx.questState, ctx.objectives, ctx.objectivesInitialized, ctx.nextObjectiveId)
  }

  /** One tool call, dispatched to the context's tool of that name. */
  method RunTool(ctx: GameContext, call: ToolCall)
    modifies ctx`objectives, ctx`questState, ctx`objectivesInitialized, ctx`nextObjectiveId
    ensures ObjectivesOf(ctx) == ApplyTool(old(ObjectivesOf(ctx)), call)
  {
    match call
    case CreateObjectives(inputs) =>
      var _ := ctx.CreateGameObjectivesTool(inputs);
    case UpdateStatus(ids) =>
      var _ := ctx.UpdateObjectiveStatusTool(ids);
    case GetObjectives =>
      var _ := ctx.GetObjectivesTool();
  }

  /**
    Runs the storyteller oracle: applies its tool calls to the context in
    order, then, for a structured answer only, updates the in-scene roster.
    The quest-state invariant of the context survives.
   */
  method RunAgent(ctx: GameContext, run: AgentRun) returns (response: Option<StoryResponse>)
    modifies ctx`objectives, ctx`questState, ctx`objectivesInitialized, ctx`nextObjectiveId, ctx`characters
    ensures response == run.result.Response()
    ensures ObjectivesOf(ctx) == ApplyTools(old(ObjectivesOf(ctx)), run.toolCalls)
    ensures old(QuestConsistent(ctx.questState, ctx.objectives)) ==>
      QuestConsistent(ctx.questState, ctx.objectives)
    ensures old(UniqueIds(ctx.objectives)) ==> UniqueIds(ctx.objectives)
    ensures run.toolCalls == [] ==>
      ctx.objectives == old(ctx.objectives) && ctx.questState == old(ctx.questState) &&
      ctx.objectivesInitialized == old(ctx.objectivesInitialized) &&
      ctx.nextObjectiveId == old(ctx.nextObjectiveId)
    ensures old(ctx.objectivesInitialized) ==> ctx.objectivesInitialized
    ensures run.result.Structured? ==>
      ctx.characters == WithSceneStatus(old(ctx.characters), run.result.response.charactersInScene)
    ensures !run.result.Structured? ==> ctx.characters == old(ctx.characters)
  {
    for k := 0 to |run.toolCalls|
      invariant ctx.characters == old(ctx.characters)
      invariant ObjectivesOf(ctx) == ApplyTools(old(ObjectivesOf(ctx)), run.toolCalls[..k])
    {
      assert run.toolCalls[..k + 1][..k] == run.toolCalls[..k];
      RunTool(ctx, run.toolCalls[k]);
    }
    assert run.toolCalls[..|run.toolCalls|] == run.toolCalls;
    ApplyToolsKeepsInvariant(old(ObjectivesOf(ctx)), run.toolCalls);
    ApplyToolsKeepsInitialized(old(ObjectivesOf(ctx)), run.toolCalls);
    if run.result.Structured? {
      ctx.UpdateCharacterSceneStatus(run.result.response.charactersInScene);
    }
    response := run.result.Response();
  }

  // ---------------------------------------------------------------------------
  // The session

  class RPGSession {
    const sessionId: string
    const config: Config
    var messages: seq<Message>
    var currentNarration: string
    var currentChoices: seq<string>
    var currentImagePrompt: string
    var currentCharactersInScene: seq<string>
    var referenceImageBytes: Option<Bytes>
    var referenceImageMime: Option<string>
    var turnNumber: int
    var gameConcluded: bool
    var themeSelected: bool
    var objectivesExplained: bool
    var gameObjectivesNarration: Option<string>
    var lastAssistantResponse: Option<StoryResponse>
    var gameContext: GameContext
    /** Every message sent to the client and every background task started, in order. */
    var events: seq<Event>
    /** Every call made to the image service, in order. */
    var imageRequests: seq<ImageRequest>

    /**
      The phase invariant: before the theme is chosen the turn is 0 and the
      game open; afterwards the turn is at least 1; an open game has not
      passed the maximum; the context mirrors the turn and keeps its quest
      state consistent with its objectives, whose ids are distinct.
     */
    ghost predicate Valid()
      reads this, gameContext
    {
      (!themeSelected ==> turnNumber == 0 && !gameConcluded) &&
      (themeSelected ==> turnNumber >= 1) &&
      (!gameConcluded ==> turnNumber <= 1 || turnNumber < config.maxGameTurns) &&
      gameContext.currentTurn == turnNumber &&
      QuestConsistent(gameContext.questState, gameContext.objectives) &&
      UniqueIds(gameContext.objectives)
    }

    /** Whether a reference image is available for the next edit. */
    predicate HasReference()
      reads this
    {
      referenceImageBytes.Some? && referenceImageBytes.value != [] &&
      referenceImageMime.Some? && referenceImageMime.value != ""
    }

    constructor (id: string, cfg: Config)
      ensures Valid()
      ensures sessionId == id && config == cfg
      ensures messages == [] && events == [] && imageRequests == []
      ensures turnNumber == 0 && !gameConcluded && !themeSelected && !objectivesExplained
      ensures referenceImageBytes == None && referenceImageMime == None
      ensures fresh(gameContext) && gameContext.objectives == [] && !gameContext.objectivesInitialized
      ensures gameContext.characters == [Character("aurora", cfg.auroraDescription, true)]
    {
      sessionId := id;
      config := cfg;
      messages := [];
      currentNarration := "";
      currentChoices := [];
      currentImagePrompt := "";
      currentCharactersInScene := [];
      referenceImageBytes := None;
      referenceImageMime := None;
      turnNumber := 0;
      gameConcluded := false;
      themeSelected := false;
      objectivesExplained := false;
      gameObjectivesNarration := None;
      lastAssistantResponse := None;
      events := [];
      imageRequests := [];
      var ctx := new GameContext();
      ctx.AddCharacter(Character("aurora", cfg.auroraDescription, true));
      gameContext := ctx;
    }

    /**
      The turn bookkeeping before the storyteller call: the first call after a
      reset selects the theme as turn 1; every later call advances the turn
      by one and concludes the game once the maximum is reached. Returns the
      directive for the storyteller.
     */
    method BeginTurn(choice: string) returns (directive: Directive)
      requires Valid() && !gameConcluded
      modifies this`themeSelected, this`turnNumber, this`gameConcluded, gameContext`currentTurn, gameContext`theme
      ensures Valid() && themeSelected && gameContext.currentTurn == turnNumber
      ensures directive == DirectiveFor(old(themeSelected), old(turnNumber) + 1, config.maxGameTurns,
        gameContext.objectivesInitialized, gameContext.objectives, lastAssistantResponse, choice)
      ensures !old(themeSelected) ==>
        turnNumber == 1 && !gameConcluded && gameContext.theme == Some(choice)
      ensures old(themeSelected) ==>
        turnNumber == old(turnNumber) + 1 && gameContext.theme == old(gameContext.theme) &&
        (gameConcluded <==> turnNumber >= config.maxGameTurns)
    {
      if !themeSelected {
        themeSelected := true;
        turnNumber := 1;
        gameContext.currentTurn := 1;
        gameContext.theme := Some(choice);
        directive := ThemeDirective(choice);
      } else {
        turnNumber := turnNumber + 1;
        gameContext.currentTurn := turnNumber;
        if turnNumber >= config.maxGameTurns {
          gameConcluded := true;
          directive := ConcludeDirective;
        } else {
          var reminder := ReminderFor(gameContext.objectivesInitialized, gameContext.objectives);
          directive := ContinueDirective(reminder, SummaryFor(lastAssistantResponse), choice);
        }
      }
    }

    /**
      The turn after a successful storyteller call: the history gains the
      directive and the answer; the objectives, narration, scene image task
      and choices are sent in that order; a completed quest concludes the game
      and withholds the choices.
     */
    method RecordResponse(directive: Directive, r: StoryResponse, turnId: int, connected: bool)
      modifies this`messages, this`lastAssistantResponse, this`objectivesExplained,
        this`gameObjectivesNarration, this`currentNarration, this`currentChoices,
        this`currentImagePrompt, this`currentCharactersInScene, this`gameConcluded, this`events
      ensures messages == old(messages) + [Message(User, DirectiveText(directive)), Message(Assistant, StoryJson(r))]
      ensures lastAssistantResponse == Some(r)
      ensures gameConcluded == (old(gameConcluded) || gameContext.questState == Completed)
      ensures events == old(events) + TurnEvents(connected, turnId, gameContext.objectives, r, gameConcluded)
      ensures currentChoices ==
        (if gameContext.questState == Completed && !old(gameConcluded) then [] else r.choices)
      ensures currentNarration == r.narration && currentImagePrompt == r.imagePrompt
      ensures currentCharactersInScene == r.charactersInScene
      ensures turnNumber == 1 && !old(objectivesExplained) ==>
        objectivesExplained && gameObjectivesNarration == Some(r.narration)
      ensures !(turnNumber == 1 && !old(objectivesExplained)) ==>
        objectivesExplained == old(objectivesExplained) &&
        gameObjectivesNarration == old(gameObjectivesNarration)
    {
      StoreResponse(directive, r);
      ConcludeOnCompletion();
      SendTurnMessages(gameContext.objectives, r, gameConcluded, turnId, connected);
    }

    /** The history and the current-turn fields after an answer. */
    method StoreResponse(directive: Directive, r: StoryResponse)
      modifies this`messages, this`lastAssistantResponse, this`objectivesExplained,
        this`gameObjectivesNarration, this`currentNarration, this`currentChoices,
        this`currentImagePrompt, this`currentCharactersInScene
      ensures messages == old(messages) + [Message(User, DirectiveText(directive)), Message(Assistant, StoryJson(r))]
      ensures lastAssistantResponse == Some(r)
      ensures currentChoices == r.choices
      ensures currentNarration == r.narration && currentImagePrompt == r.imagePrompt
      ensures currentCharactersInScene == r.charactersInScene
      ensures turnNumber == 1 && !old(objectivesExplained) ==>
        objectivesExplained && gameObjectivesNarration == Some(r.narration)
      ensures !(turnNumber == 1 && !old(objectivesExplained)) ==>
        objectivesExplained == old(objectivesExplained) &&
        gameObjectivesNarration == old(gameObjectivesNarration)
    {
      messages := messages + [Message(User, DirectiveText(directive)), Message(Assistant, StoryJson(r))];
      lastAssistantResponse := Some(r);
      if turnNumber == 1 && !objectivesExplained {
        objectivesExplained := true;
        gameObjectivesNarration := Some(r.narration);
      }
      currentNarration := r.narration;
      currentChoices := r.choices;
      currentImagePrompt := r.imagePrompt;
      currentCharactersInScene := r.charactersInScene;
    }

    /** A completed quest concludes an open game and discards the turn's choices. */
    method ConcludeOnCompletion()
      modifies this`gameConcluded, this`currentChoices
      ensures gameConcluded == (old(gameConcluded) || gameContext.questState == Completed)
      ensures currentChoices ==
        (if gameContext.questState == Completed && !old(gameConcluded) then [] else old(currentChoices))
      ensures (gameConcluded, currentChoices) ==
        TurnConclusion(gameContext.questState, old(gameConcluded), old(currentChoices))
    {
      if gameContext.questState == Completed && !gameConcluded {
        gameConcluded := true;
        if |currentChoices| > 0 {
          currentChoices := [];
        }
      }
    }

    /**
      The sends of a recorded turn, in order. The conclusion check between the
      objectives and the narration sends nothing, so its outcome is passed in.
     */
    method SendTurnMessages(objs: seq<Objective>, r: StoryResponse, concluded: bool, turnId: int, connected: bool)
      modifies this`events
      ensures events == old(events) + TurnEvents(connected, turnId, objs, r, concluded)
    {
      ghost var a := if connected then [ObjectivesEvent(ObjectivesPayload(objs), turnId)] else [];
      ghost var b := if connected && r.narration != "" then [NarrationBlock(r.narration, turnId)] else [];
      ghost var c := if connected && r.imagePrompt != "" then [SceneImageTask(r.imagePrompt, turnId)] else [];
      ghost var d := if connected && !concluded && r.choices != [] then [ChoicesEvent(r.choices, turnId)] else [];
      if connected {
        events := events + [ObjectivesEvent(ObjectivesPayload(objs), turnId)];
      }
      assert events == old(events) + a;
      if connected && r.narration != "" {
        events := events + [NarrationBlock(r.narration, turnId)];
      }
      assert events == old(events) + (a + b);
      if r.imagePrompt != "" && connected {
        events := events + [SceneImageTask(r.imagePrompt, turnId)];
      }
      assert events == old(events) + (a + b + c);
      if connected && !concluded && r.choices != [] {
        events := events + [ChoicesEvent(r.choices, turnId)];
      }
      assert events == old(events) + (a + b + c + d);
    }

    /**
      `process_user_choice`. A concluded game ignores the choice entirely;
      otherwise the turn is played (see `PlayTurn`).
     */
    method ProcessUserChoice(choice: string, turnId: int, connected: bool, run: AgentRun)
      requires Valid()
      modifies this`themeSelected, this`turnNumber, gameContext`currentTurn, gameContext`theme,
        this`messages, this`lastAssistantResponse, this`objectivesExplained,
        this`gameObjectivesNarration, this`currentNarration, this`currentChoices,
        this`currentImagePrompt, this`currentCharactersInScene, this`gameConcluded, this`events,
        gameContext`objectives, gameContext`questState, gameContext`objectivesInitialized,
        gameContext`nextObjectiveId, gameContext`characters
      ensures Valid()
      ensures gameContext == old(gameContext) && imageRequests == old(imageRequests)
      ensures referenceImageBytes == old(referenceImageBytes) && referenceImageMime == old(referenceImageMime)
      ensures old(gameConcluded) ==> unchanged(this) && unchanged(gameContext)
      ensures !old(gameConcluded) && !old(themeSelected) ==>
        themeSelected && turnNumber == 1 && gameContext.theme == Some(choice)
      ensures !old(gameConcluded) && old(themeSelected) ==>
        themeSelected && turnNumber == old(turnNumber) + 1 &&
        gameContext.theme == old(gameContext.theme) &&
        (turnNumber >= config.maxGameTurns ==> gameConcluded)
      ensures !old(gameConcluded) ==>
        ObjectivesOf(gameContext) == ApplyTools(old(ObjectivesOf(gameContext)), run.toolCalls) &&
        gameContext.characters ==
          (if run.result.Structured? then WithSceneStatus(old(gameContext.characters), run.result.response.charactersInScene)
           else old(gameContext.characters))
      ensures !old(gameConcluded) && run.result.NoResponse? ==>
        messages == old(messages) &&
        events == old(events) + (if connected then [ErrorEvent(AgentResponseError, turnId)] else []) &&
        gameConcluded == (old(themeSelected) && turnNumber >= config.maxGameTurns) &&
        currentNarration == "" && currentChoices == [] && currentImagePrompt == "" &&
        currentCharactersInScene == old(currentCharactersInScene) &&
        lastAssistantResponse == old(lastAssistantResponse) &&
        objectivesExplained == old(objectivesExplained) && gameObjectivesNarration == old(gameObjectivesNarration)
      ensures !old(gameConcluded) && !run.result.NoResponse? ==>
        var r := run.result.response;
        messages == old(messages) + [Message(User, DirectiveText(DirectiveFor(old(themeSelected), old(turnNumber) + 1,
          config.maxGameTurns, old(gameContext.objectivesInitialized), old(gameContext.objectives),
          old(lastAssistantResponse), choice))), Message(Assistant, StoryJson(r))] &&
        lastAssistantResponse == Some(r) &&
        gameConcluded == ((old(themeSelected) && turnNumber >= config.maxGameTurns) || gameContext.questState == Completed) &&
        currentChoices == TurnConclusion(gameContext.questState, (old(themeSelected) && turnNumber >= config.maxGameTurns), r.choices).1 &&
        events == old(events) + TurnEvents(connected, turnId, gameContext.objectives, r, gameConcluded) &&
        currentNarration == r.narration && currentImagePrompt == r.imagePrompt &&
        currentCharactersInScene == r.charactersInScene &&
        (turnNumber == 1 && !old(objectivesExplained) ==>
          objectivesExplained && gameObjectivesNarration == Some(r.narration)) &&
        (!(turnNumber == 1 && !old(objectivesExplained)) ==>
          objectivesExplained == old(objectivesExplained) &&
          gameObjectivesNarration == old(gameObjectivesNarration))
    {
      if gameConcluded {
        return;
      }
      PlayTurn(choice, turnId, connected, run);
    }

    /**
      One turn of an open game: the turn advances (see `BeginTurn`), then the
      storyteller runs and its answer is recorded (see `RunTurn`). A turn at
      the maximum concludes even when the call fails.
     */
    method PlayTurn(choice: string, turnId: int, connected: bool, run: AgentRun)
      requires Valid() && !gameConcluded
      modifies this`themeSelected, this`turnNumber, gameContext`currentTurn, gameContext`theme,
        this`messages, this`lastAssistantResponse, this`objectivesExplained,
        this`gameObjectivesNarration, this`currentNarration, this`currentChoices,
        this`currentImagePrompt, this`currentCharactersInScene, this`gameConcluded, this`events,
        gameContext`objectives, gameContext`questState, gameContext`objectivesInitialized,
        gameContext`nextObjectiveId, gameContext`characters
      ensures Valid()
      ensures !old(themeSelected) ==>
        themeSelected && turnNumber == 1 && gameContext.theme == Some(choice)
      ensures old(themeSelected) ==>
        themeSelected && turnNumber == old(turnNumber) + 1 &&
        gameContext.theme == old(gameContext.theme) &&
        (turnNumber >= config.maxGameTurns ==> gameConcluded)
      ensures
        ObjectivesOf(gameContext) == ApplyTools(old(ObjectivesOf(gameContext)), run.toolCalls) &&
        gameContext.characters ==
          (if run.result.Structured? then WithSceneStatus(old(gameContext.characters), run.result.response.charactersInScene)
           else old(gameContext.characters))
      ensures run.result.NoResponse? ==>
        messages == old(messages) &&
        events == old(events) + (if connected then [ErrorEvent(AgentResponseError, turnId)] else []) &&
        gameConcluded == (old(themeSelected) && turnNumber >= config.maxGameTurns) &&
        currentNarration == "" && currentChoices == [] && currentImagePrompt == "" &&
        currentCharactersInScene == old(currentCharactersInScene) &&
        lastAssistantResponse == old(lastAssistantResponse) &&
        objectivesExplained == old(objectivesExplained) && gameObjectivesNarration == old(gameObjectivesNarration)
      ensures !run.result.NoResponse? ==>
        var r := run.result.response;
        messages == old(messages) + [Message(User, DirectiveText(DirectiveFor(old(themeSelected), old(turnNumber) + 1,
          config.maxGameTurns, old(gameContext.objectivesInitialized), old(gameContext.objectives),
          old(lastAssistantResponse), choice))), Message(Assistant, StoryJson(r))] &&
        lastAssistantResponse == Some(r) &&
        gameConcluded == ((old(themeSelected) && turnNumber >= config.maxGameTurns) || gameContext.questState == Completed) &&
        currentChoices == TurnConclusion(gameContext.questState, (old(themeSelected) && turnNumber >= config.maxGameTurns), r.choices).1 &&
        events == old(events) + TurnEvents(connected, turnId, gameContext.objectives, r, gameConcluded) &&
        currentNarration == r.narration && currentImagePrompt == r.imagePrompt &&
        currentCharactersInScene == r.charactersInScene &&
        (turnNumber == 1 && !old(objectivesExplained) ==>
          objectivesExplained && gameObjectivesNarration == Some(r.narration)) &&
        (!(turnNumber == 1 && !old(objectivesExplained)) ==>
          objectivesExplained == old(objectivesExplained) &&
          gameObjectivesNarration == old(gameObjectivesNarration))
    {
      var directive := BeginTurn(choice);
      RunTurn(directive, turnId, connected, run);
    }

    /**
      The turn after its bookkeeping: the current fields are cleared, the
      storyteller's tool calls are applied to the context in order, and a
      failed call leaves the history as it was and sends one error, while a
      successful one is recorded (see `RecordResponse`).
     */
    method RunTurn(directive: Directive, turnId: int, connected: bool, run: AgentRun)
      requires Valid() && themeSelected
      modifies this`messages, this`lastAssistantResponse, this`objectivesExplained,
        this`gameObjectivesNarration, this`currentNarration, this`currentChoices,
        this`currentImagePrompt, this`currentCharactersInScene, this`gameConcluded, this`events,
        gameContext`objectives, gameContext`questState, gameContext`objectivesInitialized,
        gameContext`nextObjectiveId, gameContext`characters
      ensures Valid()
      ensures
        ObjectivesOf(gameContext) == ApplyTools(old(ObjectivesOf(gameContext)), run.toolCalls) &&
        gameContext.characters ==
          (if run.result.Structured? then WithSceneStatus(old(gameContext.characters), run.result.response.charactersInScene)
           else old(gameContext.characters))
      ensures run.result.NoResponse? ==>
        messages == old(messages) &&
        events == old(events) + (if connected then [ErrorEvent(AgentResponseError, turnId)] else []) &&
        gameConcluded == old(gameConcluded) &&
        currentNarration == "" && currentChoices == [] && currentImagePrompt == "" &&
        currentCharactersInScene == old(currentCharactersInScene) &&
        lastAssistantResponse == old(lastAssistantResponse) &&
        objectivesExplained == old(objectivesExplained) && gameObjectivesNarration == old(gameObjectivesNarration)
      ensures !run.result.NoResponse? ==>
        var r := run.result.response;
        messages == old(messages) + [Message(User, DirectiveText(directive)), Message(Assistant, StoryJson(r))] &&
        lastAssistantResponse == Some(r) &&
        gameConcluded == (old(gameConcluded) || gameContext.questState == Completed) &&
        currentChoices == TurnConclusion(gameContext.questState, old(gameConcluded), r.choices).1 &&
        events == old(events) + TurnEvents(connected, turnId, gameContext.objectives, r, gameConcluded) &&
        currentNarration == r.narration && currentImagePrompt == r.imagePrompt &&
        currentCharactersInScene == r.charactersInScene &&
        (turnNumber == 1 && !old(objectivesExplained) ==>
          objectivesExplained && gameObjectivesNarration == Some(r.narration)) &&
        (!(turnNumber == 1 && !old(objectivesExplained)) ==>
          objectivesExplained == old(objectivesExplained) &&
          gameObjectivesNarration == old(gameObjectivesNarration))
    {
      var response := RunAgent(gameContext, run);
      assert Valid();
      AnswerTurn(directive, response, turnId, connected);
    }

    /**
      The end of a turn: the current fields are cleared; a failed storyteller
      call then sends one error and records nothing, while an answer is
      recorded (see `RecordResponse`).
     */
    method AnswerTurn(directive: Directive, response: Option<StoryResponse>, turnId: int, connected: bool)
      requires Valid() && themeSelected
      modifies this`messages, this`lastAssistantResponse, this`objectivesExplained,
        this`gameObjectivesNarration, this`currentNarration, this`currentChoices,
        this`currentImagePrompt, this`currentCharactersInScene, this`gameConcluded, this`events
      ensures Valid()
      ensures response.None? ==>
        messages == old(messages) && gameConcluded == old(gameConcluded) &&
        events == old(events) + (if connected then [ErrorEvent(AgentResponseError, turnId)] else []) &&
        currentNarration == "" && currentChoices == [] && currentImagePrompt == "" &&
        currentCharactersInScene == old(currentCharactersInScene) &&
        lastAssistantResponse == old(lastAssistantResponse) &&
        objectivesExplained == old(objectivesExplained) && gameObjectivesNarration == old(gameObjectivesNarration)
      ensures response.Some? ==>
        var r := response.value;
        messages == old(messages) + [Message(User, DirectiveText(directive)), Message(Assistant, StoryJson(r))] &&
        lastAssistantResponse == Some(r) &&
        gameConcluded == (old(gameConcluded) || gameContext.questState == Completed) &&
        currentChoices == TurnConclusion(gameContext.questState, old(gameConcluded), r.choices).1 &&
        events == old(events) + TurnEvents(connected, turnId, gameContext.objectives, r, gameConcluded) &&
        currentNarration == r.narration && currentImagePrompt == r.imagePrompt &&
        currentCharactersInScene == r.charactersInScene &&
        (turnNumber == 1 && !old(objectivesExplained) ==>
          objectivesExplained && gameObjectivesNarration == Some(r.narration)) &&
        (!(turnNumber == 1 && !old(objectivesExplained)) ==>
          objectivesExplained == old(objectivesExplained) &&
          gameObjectivesNarration == old(gameObjectivesNarration))
    {
      currentNarration := "";
      currentChoices := [];
      currentImagePrompt := "";
      if response.None? {
        if connected {
          events := events + [ErrorEvent(AgentResponseError, turnId)];
        }
        return;
      }
      RecordResponse(directive, response.value, turnId, connected);
    }

    /** The reset at the start of `start_game`: turn, flags, history and a fresh context. */
    method Reset()
      modifies this`turnNumber, this`gameConcluded, this`themeSelected, this`objectivesExplained,
        this`messages, this`gameObjectivesNarration, this`lastAssistantResponse, this`gameContext
      ensures Valid()
      ensures turnNumber == 0 && !gameConcluded && !themeSelected && !objectivesExplained
      ensures messages == [] && gameObjectivesNarration == None && lastAssistantResponse == None
      ensures fresh(gameContext) && gameContext.objectives == [] && !gameContext.objectivesInitialized &&
        gameContext.questState == NotStarted && gameContext.nextObjectiveId == 1 &&
        gameContext.characters == [Character("aurora", config.auroraDescription, true)]
    {
      turnNumber := 0;
      gameConcluded := false;
      themeSelected := false;
      objectivesExplained := false;
      messages := [];
      gameObjectivesNarration := None;
      lastAssistantResponse := None;
      var ctx := new GameContext();
      ctx.AddCharacter(Character("aurora", config.auroraDescription, true));
      gameContext := ctx;
    }

    /**
      `start_game`: resets the session (see `Reset`). Connected, it sends the
      theme prompt, the initial image (a placeholder, or a background edit
      task), then the theme choices, and leaves exactly one assistant entry in
      the history. A missing placeholder sends one error and stops; a closed
      connection stops after the reset.
     */
    method StartGame(connected: bool, initialChoices: Option<seq<string>>, placeholder: Option<Image>)
      modifies this`turnNumber, this`gameConcluded, this`themeSelected, this`objectivesExplained,
        this`messages, this`gameObjectivesNarration, this`lastAssistantResponse, this`gameContext,
        this`events, this`referenceImageBytes, this`referenceImageMime
      ensures Valid()
      ensures turnNumber == 0 && !gameConcluded && !themeSelected && !objectivesExplained
      ensures gameObjectivesNarration == None && lastAssistantResponse == None
      ensures fresh(gameContext) && gameContext.objectives == [] && !gameContext.objectivesInitialized &&
        gameContext.questState == NotStarted && gameContext.nextObjectiveId == 1 &&
        gameContext.characters == [Character("aurora", config.auroraDescription, true)]
      ensures imageRequests == old(imageRequests)
      ensures var themes := if initialChoices.Some? then initialChoices.value else FallbackThemes;
        var usePlaceholder := config.usePlaceholderInitialImage || config.initialImagePrompt == "";
        if !connected then
          messages == [] && events == old(events) &&
          referenceImageBytes == old(referenceImageBytes) && referenceImageMime == old(referenceImageMime)
        else if usePlaceholder && !Loaded(placeholder) then
          messages == [] &&
          events == old(events) + [NarrationBlock(config.introPrompt, 0), ErrorEvent(PlaceholderUnavailable, 0)] &&
          referenceImageBytes == old(referenceImageBytes) && referenceImageMime == old(referenceImageMime)
        else
          messages == [Message(Assistant, ThemeSetupLog(config.introPrompt, themes, config.initialImagePrompt))] &&
          events == old(events) + [NarrationBlock(config.introPrompt, 0)] +
            (if usePlaceholder then [ImageEvent(placeholder.value.bytes, 0)]
             else [InitialImageTask(config.initialImagePrompt, 0)]) +
            [ChoicesEvent(themes, 0)] &&
          (usePlaceholder ==>
            referenceImageBytes == Some(placeholder.value.bytes) &&
            referenceImageMime == Some(placeholder.value.mime)) &&
          (!usePlaceholder ==>
            referenceImageBytes == old(referenceImageBytes) && referenceImageMime == old(referenceImageMime))
    {
      Reset();
      var themes := if initialChoices.Some? then initialChoices.value else FallbackThemes;
      if !connected {
        return;
      }
      events := events + [NarrationBlock(config.introPrompt, 0)];
      if config.usePlaceholderInitialImage || config.initialImagePrompt == "" {
        if Loaded(placeholder) {
          referenceImageBytes := Some(placeholder.value.bytes);
          referenceImageMime := Some(placeholder.value.mime);
          events := events + [ImageEvent(placeholder.value.bytes, 0)];
        } else {
          events := events + [ErrorEvent(PlaceholderUnavailable, 0)];
          return;
        }
      } else {
        events := events + [InitialImageTask(config.initialImagePrompt, 0)];
      }
      events := events + [ChoicesEvent(themes, 0)];
      messages := messages + [Message(Assistant, ThemeSetupLog(config.introPrompt, themes, config.initialImagePrompt))];
    }

    /**
      `generate_scene`. Without a reference image it sends one error and calls
      no service. Otherwise it sends the previous reference image followed by
      the portraits of the characters in the scene; the output becomes the new
      reference (as PNG) only when the service succeeds.
     */
    method GenerateScene(prompt: string, turnId: int, connected: bool,
                         load: string -> Option<Image>, edit: (seq<Image>, string) -> Option<Bytes>)
      modifies this`referenceImageBytes, this`referenceImageMime, this`events, this`imageRequests
      ensures !old(HasReference()) ==>
        imageRequests == old(imageRequests) &&
        referenceImageBytes == old(referenceImageBytes) && referenceImageMime == old(referenceImageMime) &&
        events == old(events) + (if connected then [ErrorEvent(NoReferenceImage, turnId)] else [])
      ensures old(HasReference()) ==>
        var inputs := [Image(old(referenceImageBytes).value, old(referenceImageMime).value)] +
          Portraits(currentCharactersInScene, config.characterImagePaths, load);
        imageRequests == old(imageRequests) + [ImageRequest(inputs, prompt)] &&
        match edit(inputs, prompt)
        case None =>
          referenceImageBytes == old(referenceImageBytes) && referenceImageMime == old(referenceImageMime) &&
          events == old(events) + (if connected then [ErrorEvent(SceneImageFailed, turnId)] else [])
        case Some(out) =>
          referenceImageBytes == Some(out) && referenceImageMime == Some("image/png") &&
          events == old(events) + (if connected then [ImageEvent(out, turnId)] else [])
    {
      if !HasReference() {
        if connected {
          events := events + [ErrorEvent(NoReferenceImage, turnId)];
        }
        return;
      }
      var previous := Image(referenceImageBytes.value, referenceImageMime.value);
      var inputs := CollectImages(previous, currentCharactersInScene, config.characterImagePaths, load);
      imageRequests := imageRequests + [ImageRequest(inputs, prompt)];
      var output := edit(inputs, prompt);
      if output.None? {
        if connected {
          events := events + [ErrorEvent(SceneImageFailed, turnId)];
        }
        return;
      }
      referenceImageBytes := Some(output.value);
      referenceImageMime := Some("image/png");
      if connected {
        events := events + [ImageEvent(output.value, turnId)];
      }
    }

    /**
      `generate_image`: loads the base image and, before calling the service,
      makes it the reference; a successful output then replaces the reference
      bytes. So a failed service call still leaves the base image as the
      reference, unlike `generate_scene`.
     */
    method GenerateImage(prompt: string, baseImage: string, turnId: int, connected: bool,
                         processed: Option<Image>, edit: (seq<Image>, string) -> Option<Bytes>)
      modifies this`referenceImageBytes, this`referenceImageMime, this`events, this`imageRequests
      ensures baseImage == "" || !Loaded(processed) ==>
        imageRequests == old(imageRequests) &&
        referenceImageBytes == old(referenceImageBytes) && referenceImageMime == old(referenceImageMime) &&
        events == old(events) + (if connected then [ErrorEvent(InitialImageFailed, turnId)] else [])
      ensures baseImage != "" && Loaded(processed) ==>
        var base := processed.value;
        imageRequests == old(imageRequests) + [ImageRequest([base], prompt)] &&
        referenceImageMime == Some(base.mime) &&
        match edit([base], prompt)
        case None =>
          referenceImageBytes == Some(base.bytes) &&
          events == old(events) + (if connected then [ErrorEvent(InitialImageFailed, turnId)] else [])
        case Some(out) =>
          referenceImageBytes == Some(out) &&
          events == old(events) + (if connected then [ImageEvent(out, turnId)] else [])
    {
      if baseImage == "" || !Loaded(processed) {
        if connected {
          events := events + [ErrorEvent(InitialImageFailed, turnId)];
        }
        return;
      }
      var base := processed.value;
      referenceImageBytes := Some(base.bytes);
      referenceImageMime := Some(base.mime);
      imageRequests := imageRequests + [ImageRequest([base], prompt)];
      var output := edit([base], prompt);
      if output.None? {
        if connected {
          events := events + [ErrorEvent(InitialImageFailed, turnId)];
        }
        return;
      }
      referenceImageBytes := Some(output.value);
      if connected {
        events := events + [ImageEvent(output.value, turnId)];
      }
    }
  }

  /**
    The image inputs of a scene edit: the previous reference, then the
    portrait of each character in the scene that has a non-empty known path
    and loads, skipping `aurora`, whom the previous image already shows.
   */
  method CollectImages(previous: Image, chars: seq<string>, paths: map<string, string>,
                       load: string -> Option<Image>) returns (inputs: seq<Image>)
    ensures inputs == [previous] + Portraits(chars, paths, load)
  {
    inputs := [previous];
    for k := 0 to |chars|
      invariant inputs == [previous] + Portraits(chars[..k], paths, load)
    {
      var name := chars[k];
      PortraitsSnoc(chars[..k], name, paths, load);
      assert chars[..k + 1] == chars[..k] + [name];
      if name in paths && paths[name] != "" {
        if name == "aurora" {
          // the previous output already carries her
        } else {
          var portrait := load(paths[name]);
          if Loaded(portrait) {
            inputs := inputs + [portrait.value];
          }
        }
      }
    }
    assert chars[..|chars|] == chars;
  }

  lemma PortraitsSnoc(chars: seq<string>, c: string, paths: map<string, string>,
                      load: string -> Option<Image>)
    ensures Portraits(chars + [c], paths, load) == Portraits(chars, paths, load) +
      (if c in paths && paths[c] != "" && c != "aurora" && Loaded(load(paths[c]))
       then [load(paths[c]).value] else [])
  {
    if chars != [] {
      assert (chars + [c])[1..] == chars[1..] + [c];
      PortraitsSnoc(chars[1..], c, paths, load);
    }
  }
}
