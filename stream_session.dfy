/**
  The earlier, streaming session: the storyteller's answer arrives as a
  stream of tokens that are forwarded to the client and accumulated; as soon
  as the accumulated text holds a complete `"image_prompt": "…"` value an
  image task is started, once; at the end the whole text is parsed as JSON
  with defaults for missing fields.

  The completion API is an oracle (`StreamCall`): either the call failed, or
  the chunks it produced, each with the connection state observed when it
  was handled. JSON decoding is an oracle function to a `Json` value.
 */
module StreamingSession {
  import opened Wrappers

  /** A decoded JSON value; numbers are integers here. */
  datatype Json =
    | JNull
    | JBool(b: bool)
    | JNumber(n: int)
    | JString(s: string)
    | JArray(items: seq<Json>)
    | JObject(fields: map<string, Json>)

  datatype JsonParse = ParseError | Parsed(value: Json)

  /** One streamed chunk: its content (possibly absent) and whether the socket was open. */
  datatype Chunk = Chunk(content: Option<string>, connected: bool)

  /**
    The outcome of the completion call: the call itself failed; the stream
    yielded its chunks and ended; or the stream yielded some chunks and then
    raised while being iterated (an iteration error, or a chunk without
    choices).
   */
  datatype StreamCall =
    | ApiFailure(connectedOnFailure: bool)
    | Streamed(chunks: seq<Chunk>, connectedAtEnd: bool)
    | StreamBroken(chunks: seq<Chunk>)

  datatype ChatRole = SystemRole | UserRole | AssistantRole

  datatype ChatMessage = ChatMessage(role: ChatRole, content: string)

  datatype ErrorKind = ApiError | ResponseFormatError | ResponseProcessingError | InvalidInput

  /** A message sent to the client, or an image task started. */
  datatype StreamEvent =
    | TextToken(content: string)
    | ImageTriggered(prompt: string, turnId: int)
    | ChoicesMsg(choices: Json)
    | ErrorMsg(kind: ErrorKind, errorTurnId: Option<int>)

  /** A tracked background image task. */
  datatype BackgroundTask = ImageTask(prompt: string, turnId: int, cancelled: bool)

  const ImagePromptMarker: string := "\"image_prompt\": \""
  const OpeningRequest: string := "Start a new fantasy adventure."

  // ---------------------------------------------------------------------------
  // Substring search and the early prompt

  /** Whether `pat` occurs in `s` starting at index `k`. */
  predicate MatchAt(s: string, pat: string, k: nat)
  {
    k + |pat| <= |s| && s[k..k + |pat|] == pat
  }

  /** The first index at or after `from` where `pat` occurs in `s` (`str.find`). */
  function IndexOf(s: string, pat: string, from: nat): (r: Option<nat>)
    decreases |s| - from
    ensures r.Some? ==>
      from <= r.value && MatchAt(s, pat, r.value) &&
      forall k :: from <= k < r.value ==> !MatchAt(s, pat, k)
    ensures r.None? ==> forall k :: from <= k ==> !MatchAt(s, pat, k)
  {
    if from + |pat| > |s| then None
    else if s[from..from + |pat|] == pat then Some(from)
    else IndexOf(s, pat, from + 1)
  }

  /** A match found in `s` is still the first match once more text arrives. */
  lemma {:induction false} IndexOfExtend(s: string, t: string, pat: string, from: nat)
    requires IndexOf(s, pat, from).Some?
    ensures IndexOf(s + t, pat, from) == IndexOf(s, pat, from)
    decreases |s| - from
  {
    assert from + |pat| <= |s|;
    assert (s + t)[from..from + |pat|] == s[from..from + |pat|];
    if s[from..from + |pat|] != pat {
      IndexOfExtend(s, t, pat, from + 1);
    }
  }

  /** A one-character pattern matches exactly where that character is. */
  lemma MatchQuote(s: string, k: nat)
    ensures MatchAt(s, "\"", k) <==> k < |s| && s[k] == '"'
  {
    if k < |s| {
      assert s[k..k + 1] == [s[k]];
    }
  }

  /**
    The early image prompt: the text between the end of the first marker and
    the next double quote, or nothing while that quote has not arrived.
   */
  function EarlyPrompt(buf: string): (r: Option<string>)
    ensures var m := IndexOf(buf, ImagePromptMarker, 0);
      r.Some? <==> m.Some? && IndexOf(buf, "\"", m.value + |ImagePromptMarker|).Some?
    ensures r.Some? ==>
      var start := IndexOf(buf, ImagePromptMarker, 0).value + |ImagePromptMarker|;
      r.value == buf[start..IndexOf(buf, "\"", start).value]
    ensures r.Some? ==> '"' !in r.value
  {
    match IndexOf(buf, ImagePromptMarker, 0)
    case None => None
    case Some(i) =>
      var start := i + |ImagePromptMarker|;
      match IndexOf(buf, "\"", start)
      case None => None
      case Some(j) =>
        assert forall k :: start <= k < j ==> buf[k] != '"' by {
          forall k | start <= k < j ensures buf[k] != '"' {
            MatchQuote(buf, k);
          }
        }
        Some(buf[start..j])
  }

  /** Without the marker there is no prompt. */
  lemma EarlyPromptNeedsMarker(buf: string)
    requires forall k :: !MatchAt(buf, ImagePromptMarker, k)
    ensures EarlyPrompt(buf) == None
  {
  }

  /** With the marker found but no double quote after it, there is no prompt yet. */
  lemma EarlyPromptNeedsClosingQuote(buf: string, i: nat)
    requires IndexOf(buf, ImagePromptMarker, 0) == Some(i)
    requires forall k :: i + |ImagePromptMarker| <= k < |buf| ==> buf[k] != '"'
    ensures EarlyPrompt(buf) == None
  {
    var j := IndexOf(buf, "\"", i + |ImagePromptMarker|);
    if j.Some? {
      MatchQuote(buf, j.value);
    }
  }

  /** Once extracted, the prompt does not change as more text arrives. */
  lemma EarlyPromptExtend(s: string, t: string)
    requires EarlyPrompt(s).Some?
    ensures EarlyPrompt(s + t) == EarlyPrompt(s)
  {
    var i := IndexOf(s, ImagePromptMarker, 0).value;
    IndexOfExtend(s, t, ImagePromptMarker, 0);
    var start := i + |ImagePromptMarker|;
    var j := IndexOf(s, "\"", start).value;
    IndexOfExtend(s, t, "\"", start);
    assert (s + t)[start..j] == s[start..j];
  }

  // ---------------------------------------------------------------------------
  // The token loop

  /** What the token loop has produced so far. */
  datatype StreamOutcome = StreamOutcome(
    buffer: string,
    out: seq<StreamEvent>,
    trigger: Option<string>,
    aborted: bool)

  const StreamStart := StreamOutcome("", [], None, false)

  /**
    One chunk: a content token is accumulated and forwarded, or, with the
    socket closed, ends the stream; then, unless already triggered, a
    non-empty early prompt starts the image task while connected.
   */
  function StepChunk(o: StreamOutcome, c: Chunk, turnId: int): (r: StreamOutcome)
    ensures r.aborted <==> o.aborted || (c.content.Some? && !c.connected)
    ensures o.trigger.Some? ==> r.trigger == o.trigger
    ensures r.trigger != o.trigger ==>
      c.connected && r.trigger == EarlyPrompt(r.buffer) && r.trigger.value != ""
  {
    if c.content.Some? && !c.connected then
      o.(buffer := o.buffer + c.content.value, aborted := true)
    else
      var o1 :=
        if c.content.Some?
        then o.(buffer := o.buffer + c.content.value, out := o.out + [TextToken(c.content.value)])
        else o;
      var p := EarlyPrompt(o1.buffer);
      if o1.trigger.None? && p.Some? && p.value != "" && c.connected
      then o1.(trigger := p, out := o1.out + [ImageTriggered(p.value, turnId)])
      else o1
  }

  /** The token loop over a stream, stopping at the first abort. */
  function RunStream(chunks: seq<Chunk>, turnId: int): (r: StreamOutcome)
    ensures (forall k :: 0 <= k < |chunks| ==> chunks[k].connected) ==> !r.aborted
    decreases |chunks|
  {
    if chunks == [] then StreamStart
    else
      var prev := RunStream(chunks[..|chunks| - 1], turnId);
      if prev.aborted then prev else StepChunk(prev, chunks[|chunks| - 1], turnId)
  }

  /** The in-order concatenation of every present content token. */
  function Tokens(chunks: seq<Chunk>): string
    decreases |chunks|
  {
    if chunks == [] then ""
    else
      var last := chunks[|chunks| - 1];
      Tokens(chunks[..|chunks| - 1]) + (if last.content.Some? then last.content.value else "")
  }

  /** The tokens forwarded to the client, in order. */
  function SentTokens(out: seq<StreamEvent>): string
    decreases |out|
  {
    if out == [] then ""
    else
      var last := out[|out| - 1];
      SentTokens(out[..|out| - 1]) + (if last.TextToken? then last.content else "")
  }

  /** How many image tasks were started. */
  function TriggerCount(out: seq<StreamEvent>): nat
    decreases |out|
  {
    if out == [] then 0
    else TriggerCount(out[..|out| - 1]) + (if out[|out| - 1].ImageTriggered? then 1 else 0)
  }

  lemma SnocOut(out: seq<StreamEvent>, e: StreamEvent)
    ensures (out + [e])[..|out|] == out
  {
  }

  /**
    What holds of the token loop's outcome after any prefix: unless aborted,
    exactly the buffer was forwarded; at most one image task is started, and
    its prompt is the non-empty early prompt of the buffer.
   */
  ghost predicate OutcomeInv(o: StreamOutcome)
  {
    (!o.aborted ==> SentTokens(o.out) == o.buffer) &&
    TriggerCount(o.out) == (if o.trigger.Some? then 1 else 0) &&
    (o.trigger.Some? ==> o.trigger.value != "" && EarlyPrompt(o.buffer) == o.trigger)
  }

  /** One chunk keeps the invariant and, unless it aborts, appends its token to the buffer. */
  lemma StepChunkInv(prev: StreamOutcome, c: Chunk, turnId: int)
    requires !prev.aborted && OutcomeInv(prev)
    ensures OutcomeInv(StepChunk(prev, c, turnId))
    ensures !StepChunk(prev, c, turnId).aborted ==>
      StepChunk(prev, c, turnId).buffer == prev.buffer + (if c.content.Some? then c.content.value else "")
  {
    if c.content.Some? && !c.connected {
      if prev.trigger.Some? {
        EarlyPromptExtend(prev.buffer, c.content.value);
      }
    } else {
      var o1 :=
        if c.content.Some?
        then prev.(buffer := prev.buffer + c.content.value, out := prev.out + [TextToken(c.content.value)])
        else prev;
      if c.content.Some? {
        SnocOut(prev.out, TextToken(c.content.value));
        if prev.trigger.Some? {
          EarlyPromptExtend(prev.buffer, c.content.value);
        }
      }
      assert OutcomeInv(o1);
      var p := EarlyPrompt(o1.buffer);
      if o1.trigger.None? && p.Some? && p.value != "" && c.connected {
        SnocOut(o1.out, ImageTriggered(p.value, turnId));
      }
    }
  }

  /**
    The token loop's invariant: unless aborted, the buffer is every token so
    far and exactly those tokens were forwarded; at most one image task is
    started, and its prompt is the non-empty early prompt of the buffer.
   */
  lemma {:induction false} RunStreamInvariant(chunks: seq<Chunk>, turnId: int)
    ensures var o := RunStream(chunks, turnId);
      (!o.aborted ==> o.buffer == Tokens(chunks) && SentTokens(o.out) == o.buffer) &&
      TriggerCount(o.out) == (if o.trigger.Some? then 1 else 0) &&
      (o.trigger.Some? ==> o.trigger.value != "" && EarlyPrompt(o.buffer) == o.trigger)
    decreases |chunks|
  {
    if chunks != [] {
      var init := chunks[..|chunks| - 1];
      RunStreamInvariant(init, turnId);
      var prev := RunStream(init, turnId);
      if !prev.aborted {
        StepChunkInv(prev, chunks[|chunks| - 1], turnId);
      }
    }
  }

  /**
    With the socket open throughout, the stream is never aborted and the image
    task is started exactly when the whole answer holds a non-empty early
    prompt.
   */
  lemma {:induction false} ConnectedStreamTriggers(chunks: seq<Chunk>, turnId: int)
    requires forall k :: 0 <= k < |chunks| ==> chunks[k].connected
    ensures var o := RunStream(chunks, turnId);
      !o.aborted && o.buffer == Tokens(chunks) &&
      (o.trigger.Some? <==> EarlyPrompt(o.buffer).Some? && EarlyPrompt(o.buffer).value != "")
    decreases |chunks|
  {
    RunStreamInvariant(chunks, turnId);
    if chunks != [] {
      var init := chunks[..|chunks| - 1];
      ConnectedStreamTriggers(init, turnId);
    }
  }

  // ---------------------------------------------------------------------------
  // The final parse

  /** The parsed answer: its three fields, or why parsing failed. */
  datatype FinalParse =
    | Fields(narration: Json, choices: Json, imagePrompt: Json)
    | NotJson
    | NotAnObject

  /** `dict.get(key, default)`. */
  function Get(fields: map<string, Json>, key: string, default: Json): Json
  {
    if key in fields then fields[key] else default
  }

  /** The final parse with its defaults: empty narration, no choices, empty prompt. */
  function ParseFinal(p: JsonParse): (r: FinalParse)
    ensures r.Fields? <==> p.Parsed? && p.value.JObject?
    ensures r.NotJson? <==> p.ParseError?
  {
    match p
    case ParseError => NotJson
    case Parsed(JObject(fields)) =>
      Fields(Get(fields, "narration", JString("")), Get(fields, "choices", JArray([])),
             Get(fields, "image_prompt", JString("")))
    case Parsed(_) => NotAnObject
  }

  /** The answer's expected shape. */
  function StoryJson(narration: string, choices: seq<string>, imagePrompt: string): Json
  {
    JObject(map["narration" := JString(narration),
                "choices" := JArray(seq(|choices|, i requires 0 <= i < |choices| => JString(choices[i]))),
                "image_prompt" := JString(imagePrompt)])
  }

  /** An answer of the expected shape parses back to its own fields. */
  lemma ParseFinalStoryJson(narration: string, choices: seq<string>, imagePrompt: string)
    ensures var r := ParseFinal(Parsed(StoryJson(narration, choices, imagePrompt)));
      r.Fields? && r.narration == JString(narration) && r.imagePrompt == JString(imagePrompt) &&
      r.choices.JArray? && |r.choices.items| == |choices| &&
      forall i :: 0 <= i < |choices| ==> r.choices.items[i] == JString(choices[i])
  {
  }

  /** Each missing field takes its default and each present field its own value. */
  lemma ParseFinalDefaults(fields: map<string, Json>)
    ensures var r := ParseFinal(Parsed(JObject(fields)));
      r.Fields? &&
      (r.narration == if "narration" in fields then fields["narration"] else JString("")) &&
      (r.choices == if "choices" in fields then fields["choices"] else JArray([])) &&
      (r.imagePrompt == if "image_prompt" in fields then fields["image_prompt"] else JString(""))
  {
  }

  /** The messages that close a streamed turn. Choices carry no turn id; errors do. */
  function FinalEvents(f: FinalParse, connected: bool, turnId: int): (r: seq<StreamEvent>)
    ensures |r| <= 1 && (r == [] <==> !connected)
    ensures forall e :: e in r ==>
      (e.ChoicesMsg? <==> f.Fields?) && (e.ErrorMsg? ==> e.errorTurnId == Some(turnId))
  {
    if !connected then []
    else match f
      case Fields(_, choices, _) => [ChoicesMsg(choices)]
      case NotJson => [ErrorMsg(ResponseFormatError, Some(turnId))]
      case NotAnObject => [ErrorMsg(ResponseProcessingError, Some(turnId))]
  }

  /** Every task, marked cancelled. */
  function AllCancelled(ts: seq<BackgroundTask>): (r: seq<BackgroundTask>)
    ensures |r| == |ts|
    ensures forall i :: 0 <= i < |ts| ==> r[i].cancelled && r[i].(cancelled := ts[i].cancelled) == ts[i]
  {
    seq(|ts|, i requires 0 <= i < |ts| => ts[i].(cancelled := true))
  }

  /** The image task a stream started, if any. */
  function NewTasks(o: StreamOutcome, turnId: int): seq<BackgroundTask>
  {
    if o.trigger.Some? then [ImageTask(o.trigger.value, turnId, false)] else []
  }

  /** Whether the stream raised out of `process_user_choice`: it broke before any abort. */
  predicate EscapesHandler(call: StreamCall, turnId: int)
  {
    call.StreamBroken? && !RunStream(call.chunks, turnId).aborted
  }

  /**
    The history entries one choice appends: the choice first, then the raw
    answer only when a completed stream parsed and the socket was open.
   */
  function ChoiceMessages(choice: string, call: StreamCall, decode: string -> JsonParse, turnId: int)
    : (r: seq<ChatMessage>)
    ensures 1 <= |r| <= 2 && r[0] == ChatMessage(UserRole, choice)
    ensures |r| == 2 ==> call.Streamed? && call.connectedAtEnd && r[1].role == AssistantRole
  {
    [ChatMessage(UserRole, choice)] +
    (if call.Streamed? then
       var o := RunStream(call.chunks, turnId);
       if !o.aborted && ParseFinal(decode(o.buffer)).Fields? && call.connectedAtEnd
       then [ChatMessage(AssistantRole, o.buffer)] else []
     else [])
  }

  /**
    The messages one choice sends: a failed call sends one error at most;
    otherwise the streamed tokens and the image task, then, for a completed
    stream, the choices or the parse error.
   */
  function ChoiceEvents(call: StreamCall, decode: string -> JsonParse, turnId: int): (r: seq<StreamEvent>)
    ensures call.ApiFailure? ==> |r| <= 1
    ensures !call.ApiFailure? ==> RunStream(call.chunks, turnId).out <= r
  {
    match call
    case ApiFailure(connected) => if connected then [ErrorMsg(ApiError, None)] else []
    case Streamed(chunks, connectedAtEnd) =>
      var o := RunStream(chunks, turnId);
      if o.aborted then o.out else o.out + FinalEvents(ParseFinal(decode(o.buffer)), connectedAtEnd, turnId)
    case StreamBroken(chunks) => RunStream(chunks, turnId).out
  }

  /** The tracked tasks after one choice: the image task added, all cancelled on an abort. */
  function ChoiceTasks(tasks: seq<BackgroundTask>, call: StreamCall, turnId: int): (r: seq<BackgroundTask>)
    ensures |tasks| <= |r| <= |tasks| + 1
  {
    if call.ApiFailure? then tasks
    else
      var o := RunStream(call.chunks, turnId);
      if o.aborted then AllCancelled(tasks + NewTasks(o, turnId)) else tasks + NewTasks(o, turnId)
  }

  class RPGSession {
    const sessionId: string
    var messages: seq<ChatMessage>
    var currentNarration: Json
    var currentChoices: Json
    var currentImagePrompt: Json
    var completeResponse: string
    var backgroundTasks: seq<BackgroundTask>
    /** Every message sent to the client and every image task started, in order. */
    var events: seq<StreamEvent>

    /** A new session whose history holds the system prompt and the opening request. */
    constructor (id: string, systemPrompt: string)
      ensures sessionId == id
      ensures messages == [ChatMessage(SystemRole, systemPrompt), ChatMessage(UserRole, OpeningRequest)]
      ensures completeResponse == "" && backgroundTasks == [] && events == []
    {
      sessionId := id;
      messages := [ChatMessage(SystemRole, systemPrompt), ChatMessage(UserRole, OpeningRequest)];
      currentNarration := JString("");
      currentChoices := JArray([]);
      currentImagePrompt := JString("");
      completeResponse := "";
      backgroundTasks := [];
      events := [];
    }

    /** Cancels every tracked task; the list itself is kept. */
    method CancelBackgroundTasks()
      modifies this`backgroundTasks
      ensures backgroundTasks == AllCancelled(old(backgroundTasks))
    {
      var k := 0;
      while k < |backgroundTasks|
        invariant 0 <= k <= |backgroundTasks| == |old(backgroundTasks)|
        invariant forall i :: 0 <= i < k ==> backgroundTasks[i] == old(backgroundTasks)[i].(cancelled := true)
        invariant forall i :: k <= i < |backgroundTasks| ==> backgroundTasks[i] == old(backgroundTasks)[i]
      {
        backgroundTasks := backgroundTasks[k := backgroundTasks[k].(cancelled := true)];
        k := k + 1;
      }
    }

    /**
      The token loop: accumulates and forwards the tokens, starts the image
      task at most once, and on a closed socket cancels every task and stops.
     */
    method StreamTokens(chunks: seq<Chunk>, turnId: int) returns (aborted: bool)
      requires completeResponse == ""
      modifies this`completeResponse, this`events, this`backgroundTasks
      ensures var o := RunStream(chunks, turnId);
        aborted == o.aborted && completeResponse == o.buffer && events == old(events) + o.out &&
        backgroundTasks == if o.aborted then AllCancelled(old(backgroundTasks) + NewTasks(o, turnId))
                           else old(backgroundTasks) + NewTasks(o, turnId)
    {
      var triggered := false;
      aborted := false;
      var k := 0;
      while k < |chunks|
        invariant 0 <= k <= |chunks|
        invariant var o := RunStream(chunks[..k], turnId);
          !o.aborted && completeResponse == o.buffer && events == old(events) + o.out &&
          triggered == o.trigger.Some? && backgroundTasks == old(backgroundTasks) + NewTasks(o, turnId)
      {
        assert chunks[..k + 1][..k] == chunks[..k];
        aborted, triggered :=
          StreamChunk(chunks[k], turnId, triggered, RunStream(chunks[..k], turnId), old(events), old(backgroundTasks));
        if aborted {
          AbortedStaysAborted(chunks, k + 1, turnId);
          return;
        }
        k := k + 1;
      }
      assert chunks[..|chunks|] == chunks;
    }

    /**
      One chunk of the token loop, from the outcome `o` of the chunks before
      it: the state moves as `StepChunk` says, and an abort cancels every task.
     */
    method StreamChunk(c: Chunk, turnId: int, triggered: bool, ghost o: StreamOutcome,
                       ghost events0: seq<StreamEvent>, ghost tasks0: seq<BackgroundTask>)
      returns (aborted: bool, nowTriggered: bool)
      requires !o.aborted && completeResponse == o.buffer && triggered == o.trigger.Some?
      requires events == events0 + o.out && backgroundTasks == tasks0 + NewTasks(o, turnId)
      modifies this`completeResponse, this`events, this`backgroundTasks
      ensures var next := StepChunk(o, c, turnId);
        aborted == next.aborted && completeResponse == next.buffer && events == events0 + next.out &&
        nowTriggered == next.trigger.Some? &&
        backgroundTasks == if aborted then AllCancelled(tasks0 + NewTasks(next, turnId))
                           else tasks0 + NewTasks(next, turnId)
    {
      aborted := false;
      nowTriggered := triggered;
      if c.content.Some? {
        completeResponse := completeResponse + c.content.value;
        if c.connected {
          events := events + [TextToken(c.content.value)];
        } else {
          CancelBackgroundTasks();
          aborted := true;
          assert StepChunk(o, c, turnId) == o.(buffer := completeResponse, aborted := true);
          return;
        }
      }
      ghost var o1 := o.(buffer := completeResponse, out := events[|events0|..]);
      assert events == events0 + o1.out;
      assert o1 == if c.content.Some?
        then o.(buffer := o.buffer + c.content.value, out := o.out + [TextToken(c.content.value)])
        else o;
      if !triggered {
        var prompt := EarlyPrompt(completeResponse);
        if prompt.Some? && prompt.value != "" && c.connected {
          events := events + [ImageTriggered(prompt.value, turnId)];
          backgroundTasks := backgroundTasks + [ImageTask(prompt.value, turnId, false)];
          nowTriggered := true;
          assert StepChunk(o, c, turnId) == o1.(trigger := prompt, out := o1.out + [ImageTriggered(prompt.value, turnId)]);
          return;
        }
      }
      assert StepChunk(o, c, turnId) == o1;
    }

    /**
      `process_user_choice`: appends the choice to the history before the call.
      A failed call sends one error without a turn id. Otherwise the tokens are
      streamed (see `StreamTokens`); a completed stream is parsed with
      defaults, and the choices are sent and the raw answer appended to the
      history only while connected; a parse failure sends one error with the
      turn id and appends nothing. A stream that raises while being iterated
      skips the parse and escapes to the caller (`escaped`).
     */
    method ProcessUserChoice(choice: string, turnId: int, call: StreamCall, decode: string -> JsonParse)
      returns (escaped: bool)
      modifies this`messages, this`currentNarration, this`currentChoices, this`currentImagePrompt,
        this`completeResponse, this`events, this`backgroundTasks
      ensures call.ApiFailure? ==>
        messages == old(messages) + [ChatMessage(UserRole, choice)] && completeResponse == "" &&
        events == old(events) + (if call.connectedOnFailure then [ErrorMsg(ApiError, None)] else []) &&
        backgroundTasks == old(backgroundTasks)
      ensures call.Streamed? ==>
        var o := RunStream(call.chunks, turnId);
        completeResponse == o.buffer &&
        (o.aborted ==>
          messages == old(messages) + [ChatMessage(UserRole, choice)] &&
          events == old(events) + o.out &&
          backgroundTasks == AllCancelled(old(backgroundTasks) + NewTasks(o, turnId))) &&
        (!o.aborted ==>
          var f := ParseFinal(decode(o.buffer));
          messages == old(messages) + [ChatMessage(UserRole, choice)] +
            (if f.Fields? && call.connectedAtEnd then [ChatMessage(AssistantRole, o.buffer)] else []) &&
          events == old(events) + o.out + FinalEvents(f, call.connectedAtEnd, turnId) &&
          backgroundTasks == old(backgroundTasks) + NewTasks(o, turnId) &&
          (f.Fields? ==>
            currentNarration == f.narration && currentChoices == f.choices &&
            currentImagePrompt == f.imagePrompt))
      ensures call.StreamBroken? ==> completeResponse == RunStream(call.chunks, turnId).buffer
      ensures escaped <==> EscapesHandler(call, turnId)
      ensures messages == old(messages) + ChoiceMessages(choice, call, decode, turnId)
      ensures events == old(events) + ChoiceEvents(call, decode, turnId)
      ensures backgroundTasks == ChoiceTasks(old(backgroundTasks), call, turnId)
      ensures !(call.Streamed? && ParseFinal(decode(completeResponse)).Fields? &&
                !RunStream(call.chunks, turnId).aborted) ==>
        currentNarration == JString("") && currentChoices == JArray([]) && currentImagePrompt == JString("")
    {
      messages := messages + [ChatMessage(UserRole, choice)];
      currentNarration := JString("");
      currentChoices := JArray([]);
      currentImagePrompt := JString("");
      completeResponse := "";
      escaped := false;
      if call.ApiFailure? {
        if call.connectedOnFailure {
          events := events + [ErrorMsg(ApiError, None)];
        }
        return;
      }
      var aborted := StreamTokens(call.chunks, turnId);
      if aborted {
        return;
      }
      if call.StreamBroken? {
        escaped := true;
        return;
      }
      ApplyFinal(turnId, call.connectedAtEnd, decode);
    }

    /**
      The end of a completed stream: the whole answer is parsed with defaults;
      while connected, the choices are sent and the raw answer appended to the
      history, or one error with the turn id is sent.
     */
    method ApplyFinal(turnId: int, connected: bool, decode: string -> JsonParse)
      modifies this`messages, this`currentNarration, this`currentChoices, this`currentImagePrompt, this`events
      ensures var f := ParseFinal(decode(completeResponse));
        messages == old(messages) +
          (if f.Fields? && connected then [ChatMessage(AssistantRole, completeResponse)] else []) &&
        events == old(events) + FinalEvents(f, connected, turnId) &&
        (f.Fields? ==>
          currentNarration == f.narration && currentChoices == f.choices && currentImagePrompt == f.imagePrompt) &&
        (!f.Fields? ==>
          currentNarration == old(currentNarration) && currentChoices == old(currentChoices) &&
          currentImagePrompt == old(currentImagePrompt))
    {
      match decode(completeResponse)
      case ParseError =>
        if connected {
          events := events + [ErrorMsg(ResponseFormatError, Some(turnId))];
        }
      case Parsed(JObject(fields)) =>
        currentNarration := Get(fields, "narration", JString(""));
        currentChoices := Get(fields, "choices", JArray([]));
        currentImagePrompt := Get(fields, "image_prompt", JString(""));
        if connected {
          events := events + [ChoicesMsg(currentChoices)];
          messages := messages + [ChatMessage(AssistantRole, completeResponse)];
        }
      case Parsed(_) =>
        if connected {
          events := events + [ErrorMsg(ResponseProcessingError, Some(turnId))];
        }
    }
  }

  /** An aborted prefix decides the outcome of the whole stream. */
  lemma {:induction false} AbortedStaysAborted(chunks: seq<Chunk>, n: nat, turnId: int)
    requires n <= |chunks| && RunStream(chunks[..n], turnId).aborted
    ensures RunStream(chunks, turnId) == RunStream(chunks[..n], turnId)
    decreases |chunks| - n
  {
    if n < |chunks| {
      assert chunks[..n + 1][..n] == chunks[..n];
      AbortedStaysAborted(chunks, n + 1, turnId);
    } else {
      assert chunks[..n] == chunks;
    }
  }
}
