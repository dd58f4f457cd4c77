/**
  The chat panel (`components/ChatInterface.tsx`): one conversational turn (`handleSend`), voice
  input through a media recorder, and read-aloud playback of a message (`handleTTS`).

  The assistant, place search, geolocation, microphone, transcription and speech synthesis are not
  part of this model: what each of them does on one call is a parameter of the operation, and each
  call the component makes is recorded, in order, in an effect log, next to the messages appended.
*/
module ChatInterface {
  import opened Wrappers
  import opened Text
  import opened ChatHistory

  // ---------------------------------------------------------------------------------------------
  // The assistant's structured response and the one action it selects
  // ---------------------------------------------------------------------------------------------

  /** Every payload field is optional, as in the response's JSON. */
  datatype Payload = Payload(level: Option<real>, description: Option<string>, hours: Option<real>, query: Option<string>)

  datatype AssistantResponse = AssistantResponse(command: string, payload: Option<Payload>, commentary: Option<string>)

  /** JavaScript truthiness of an optional number: missing and 0 are false. */
  predicate TruthyNumber(x: Option<real>) {
    x.Some? && x.value != 0.0
  }

  /** JavaScript truthiness of an optional string: missing and "" are false. */
  predicate TruthyText(x: Option<string>) {
    x.Some? && x.value != ""
  }

  /** `response.payload?.level` and its siblings. */
  function Level(r: AssistantResponse): Option<real> {
    if r.payload.Some? then r.payload.value.level else None
  }

  function Description(r: AssistantResponse): Option<string> {
    if r.payload.Some? then r.payload.value.description else None
  }

  function Hours(r: AssistantResponse): Option<real> {
    if r.payload.Some? then r.payload.value.hours else None
  }

  function Query(r: AssistantResponse): Option<string> {
    if r.payload.Some? then r.payload.value.query else None
  }

  /** The log mutators of the stress-data store. */
  datatype Mutation =
    | AddStressLog(level: real)
    | AddWellnessActivity(activity: string)
    | AddSleepLog(hours: real)
    | AddEventLog(event: string)

  /** What a turn does with a response besides replying: one mutation, a place search, or nothing. */
  datatype Dispatch = Mutate(mutation: Mutation) | SearchPlaces(query: string) | ReplyOnly

  /**
    The if/else chain over `{command, payload}`. Because the commands compared are distinct, the
    first matching branch is the only one that matches: each action is chosen exactly when its
    command is given with a truthy field, and it carries that field's value.
  */
  function ChooseDispatch(r: AssistantResponse): (d: Dispatch)
    ensures (d.Mutate? && d.mutation.AddStressLog?) <==> r.command == "LOG_STRESS" && TruthyNumber(Level(r))
    ensures (d.Mutate? && d.mutation.AddWellnessActivity?) <==> r.command == "WELLNESS_ACTIVITY" && TruthyText(Description(r))
    ensures (d.Mutate? && d.mutation.AddSleepLog?) <==> r.command == "LOG_SLEEP" && TruthyNumber(Hours(r))
    ensures (d.Mutate? && d.mutation.AddEventLog?) <==> r.command == "LOG_EVENT" && TruthyText(Description(r))
    ensures d.SearchPlaces? <==> r.command == "FIND_PLACES" && TruthyText(Query(r))
    ensures d.Mutate? && d.mutation.AddStressLog? ==> Level(r) == Some(d.mutation.level)
    ensures d.Mutate? && d.mutation.AddWellnessActivity? ==> Description(r) == Some(d.mutation.activity)
    ensures d.Mutate? && d.mutation.AddSleepLog? ==> Hours(r) == Some(d.mutation.hours)
    ensures d.Mutate? && d.mutation.AddEventLog? ==> Description(r) == Some(d.mutation.event)
    ensures d.SearchPlaces? ==> Query(r) == Some(d.query)
  {
    if r.command == "LOG_STRESS" && TruthyNumber(Level(r)) then Mutate(AddStressLog(Level(r).value))
    else if r.command == "WELLNESS_ACTIVITY" && TruthyText(Description(r)) then Mutate(AddWellnessActivity(Description(r).value))
    else if r.command == "LOG_SLEEP" && TruthyNumber(Hours(r)) then Mutate(AddSleepLog(Hours(r).value))
    else if r.command == "LOG_EVENT" && TruthyText(Description(r)) then Mutate(AddEventLog(Description(r).value))
    else if r.command == "FIND_PLACES" && TruthyText(Query(r)) then SearchPlaces(Query(r).value)
    else ReplyOnly
  }

  // ---------------------------------------------------------------------------------------------
  // Messages of a turn
  // ---------------------------------------------------------------------------------------------

  const Fallback := "I'm not sure how to respond to that."
  /** The localisation key of the generic error reply (its translation is not part of this model). */
  const ErrorKey := "chat_error_generic"

  /** One reading of the clock: its ISO text and the instant it denotes. */
  datatype Stamp = Stamp(iso: string, millis: int)

  function UserMessage(text: string, at: Stamp): ChatMessage {
    ChatMessage(at.iso, User, text, at.millis, false, None)
  }

  function CommentaryReply(r: AssistantResponse, at: Stamp): ChatMessage {
    var text := if TruthyText(r.commentary) then r.commentary.value else Fallback;
    ChatMessage(at.iso + "model", Model, text, at.millis, r.command == "ANALYZE_BURNOUT", None)
  }

  function PlacesReply(text: string, grounding: Grounding, at: Stamp): ChatMessage {
    ChatMessage(at.iso + "model", Model, text, at.millis, false, Some(grounding))
  }

  function ErrorReply(at: Stamp): ChatMessage {
    ChatMessage(at.iso + "model-error", Model, ErrorKey, at.millis, false, None)
  }

  // ---------------------------------------------------------------------------------------------
  // Effects and collaborator outcomes
  // ---------------------------------------------------------------------------------------------

  datatype Location = Location(lat: real, lng: real)

  /** A recorded chunk of audio; only its size matters here. */
  datatype Chunk = Chunk(size: nat)

  /** Everything the component does that another party observes, in the order it does it. */
  datatype Effect =
    | Appended(message: ChatMessage)
    | InputSet(text: string)
    | LoadingSet(on: bool)
    | AssistantCalled(prompt: string, history: seq<ChatMessage>)
    | Mutated(mutation: Mutation)
    | PositionRequested
    | PlacesSearched(query: string, near: Option<Location>)
    | MicrophoneAlert
    | RecorderStarted(recorder: nat)
    | RecorderStopped(recorder: nat)
    | TracksStopped(stream: nat)
    | TranscriptionRequested(audio: seq<Chunk>)

  /** `processUserPrompt` either throws or resolves to a response that may be null. */
  datatype AssistantOutcome = AssistantThrew | AssistantReturned(response: Option<AssistantResponse>)

  /** No geolocation API, a position request that is denied or times out, or a position. */
  datatype GeoOutcome = NoGeolocation | PositionFailed | PositionAt(location: Location)

  datatype PlacesOutcome = PlacesThrew | PlacesFound(text: string, grounding: Grounding)

  function Near(geo: GeoOutcome): Option<Location> {
    if geo.PositionAt? then Some(geo.location) else None
  }

  /** The messages appended by a run of effects, in order. */
  function AppendedMessages(effects: seq<Effect>): seq<ChatMessage> {
    if effects == [] then []
    else (if effects[0].Appended? then [effects[0].message] else []) + AppendedMessages(effects[1..])
  }

  lemma {:induction false} AppendedMessagesConcat(a: seq<Effect>, b: seq<Effect>)
    ensures AppendedMessages(a + b) == AppendedMessages(a) + AppendedMessages(b)
  {
    if a == [] {
      assert a + b == b;
    } else {
      var head := if a[0].Appended? then [a[0].message] else [];
      assert (a + b)[0] == a[0] && (a + b)[1..] == a[1..] + b;
      assert AppendedMessages(a + b) == head + AppendedMessages(a[1..] + b);
      AppendedMessagesConcat(a[1..], b);
      assert AppendedMessages(a) == head + AppendedMessages(a[1..]);
    }
  }

  /** A place search: the position request when the API exists, the search, then its reply. */
  function SearchEffects(q: string, geo: GeoOutcome, places: PlacesOutcome, replied: Stamp): seq<Effect> {
    (if geo.NoGeolocation? then [] else [PositionRequested])
    + [PlacesSearched(q, Near(geo))]
    + match places
      case PlacesThrew => [Appended(ErrorReply(replied))]
      case PlacesFound(text, g) => [Appended(PlacesReply(text, g, replied)), LoadingSet(false)]
  }

  /** A place search appends exactly one message: the search's answer, or the error reply when it throws. */
  lemma SearchMessages(q: string, geo: GeoOutcome, places: PlacesOutcome, replied: Stamp)
    ensures AppendedMessages(SearchEffects(q, geo, places, replied))
      == [if places.PlacesFound? then PlacesReply(places.text, places.grounding, replied) else ErrorReply(replied)]
    ensures forall e :: e in SearchEffects(q, geo, places, replied) ==> !e.Mutated? && !e.AssistantCalled?
  {
    var pre := (if geo.NoGeolocation? then [] else [PositionRequested]) + [PlacesSearched(q, Near(geo))];
    var post := match places
      case PlacesThrew => [Appended(ErrorReply(replied))]
      case PlacesFound(text, g) => [Appended(PlacesReply(text, g, replied)), LoadingSet(false)];
    AppendedMessagesConcat(pre, post);
    if !geo.NoGeolocation? {
      AppendedMessagesConcat([PositionRequested], [PlacesSearched(q, Near(geo))]);
    }
    if places.PlacesFound? {
      AppendedMessagesConcat([post[0]], [post[1]]);
      assert post == [post[0]] + [post[1]];
    }
  }

  /** What a turn does after calling the assistant and before its `finally` clause. */
  function ReplyEffects(assistant: AssistantOutcome, geo: GeoOutcome, places: PlacesOutcome, replied: Stamp): seq<Effect> {
    match assistant
    case AssistantThrew => [Appended(ErrorReply(replied))]
    case AssistantReturned(None) => []
    case AssistantReturned(Some(r)) =>
      match ChooseDispatch(r)
      case ReplyOnly => [Appended(CommentaryReply(r, replied))]
      case Mutate(m) => [Mutated(m), Appended(CommentaryReply(r, replied))]
      case SearchPlaces(q) => SearchEffects(q, geo, places, replied)
  }

  /** The whole of a turn that passes the guard. */
  function TurnEffects(prompt: string, history: seq<ChatMessage>, sent: Stamp, replied: Stamp,
                       assistant: AssistantOutcome, geo: GeoOutcome, places: PlacesOutcome): seq<Effect>
  {
    [Appended(UserMessage(prompt, sent)), InputSet(""), LoadingSet(true), AssistantCalled(prompt, history)]
    + ReplyEffects(assistant, geo, places, replied)
    + [LoadingSet(false)]
  }

  /**
    The user's message is appended and the input cleared before the assistant is called, with the
    prompt as typed and the history as it was before the turn; the turn always ends with loading off.
  */
  lemma TurnOrder(prompt: string, history: seq<ChatMessage>, sent: Stamp, replied: Stamp,
                  assistant: AssistantOutcome, geo: GeoOutcome, places: PlacesOutcome)
    ensures var e := TurnEffects(prompt, history, sent, replied, assistant, geo, places);
      && |e| >= 5
      && e[0] == Appended(ChatMessage(sent.iso, User, prompt, sent.millis, false, None))
      && e[1] == InputSet("") && e[2] == LoadingSet(true)
      && e[3] == AssistantCalled(prompt, history)
      && e[|e| - 1] == LoadingSet(false)
      && (forall i :: 3 < i < |e| ==> !e[i].AssistantCalled? && e[i] != LoadingSet(true))
  {
  }

  lemma {:induction false} AppendedMessagesNone(e: seq<Effect>)
    requires forall i :: 0 <= i < |e| ==> !e[i].Appended?
    ensures AppendedMessages(e) == []
  {
    if e != [] {
      AppendedMessagesNone(e[1..]);
    }
  }

  /** The messages of a turn: the user's, then those of the reply. */
  lemma TurnMessages(prompt: string, history: seq<ChatMessage>, sent: Stamp, replied: Stamp,
                     assistant: AssistantOutcome, geo: GeoOutcome, places: PlacesOutcome)
    ensures AppendedMessages(TurnEffects(prompt, history, sent, replied, assistant, geo, places))
      == [UserMessage(prompt, sent)] + AppendedMessages(ReplyEffects(assistant, geo, places, replied))
  {
    var head := [Appended(UserMessage(prompt, sent)), InputSet(""), LoadingSet(true), AssistantCalled(prompt, history)];
    var body := ReplyEffects(assistant, geo, places, replied);
    AppendedMessagesConcat(head + body, [LoadingSet(false)]);
    AppendedMessagesConcat(head, body);
    AppendedMessagesConcat([head[0]], head[1..]);
    assert head == [head[0]] + head[1..];
    AppendedMessagesNone(head[1..]);
    AppendedMessagesNone([LoadingSet(false)]);
  }

  /**
    Exactly one reply follows the user's message, unless the assistant resolves to null; at most one
    mutation is made, it is the one the response selects, and it comes before the reply.
  */
  lemma TurnRepliesOnce(assistant: AssistantOutcome, geo: GeoOutcome, places: PlacesOutcome, replied: Stamp)
    ensures var e := ReplyEffects(assistant, geo, places, replied);
      && |AppendedMessages(e)| == (if assistant == AssistantReturned(None) then 0 else 1)
      && (forall i, j :: 0 <= i < |e| && 0 <= j < |e| && e[i].Mutated? && e[j].Mutated? ==> i == j)
      && (forall i, j :: 0 <= i < |e| && 0 <= j < |e| && e[i].Mutated? && e[j].Appended? ==> i < j)
      && (forall i :: 0 <= i < |e| && e[i].Mutated? ==>
            assistant.AssistantReturned? && assistant.response.Some?
            && ChooseDispatch(assistant.response.value) == Mutate(e[i].mutation))
  {
    var e := ReplyEffects(assistant, geo, places, replied);
    if assistant.AssistantReturned? && assistant.response.Some? {
      var r := assistant.response.value;
      match ChooseDispatch(r)
      case SearchPlaces(q) =>
        SearchMessages(q, geo, places, replied);
        assert forall i :: 0 <= i < |e| ==> e[i] in SearchEffects(q, geo, places, replied);
      case Mutate(m) =>
        AppendedMessagesConcat([e[0]], [e[1]]);
        assert e == [e[0]] + [e[1]];
      case ReplyOnly =>
    }
  }

  /** A response other than a place search is answered with its commentary, or the fixed fallback. */
  lemma CommentaryReplyText(r: AssistantResponse, geo: GeoOutcome, places: PlacesOutcome, replied: Stamp)
    requires !ChooseDispatch(r).SearchPlaces?
    ensures var ms := AppendedMessages(ReplyEffects(AssistantReturned(Some(r)), geo, places, replied));
      && |ms| == 1 && ms[0].role == Model && ms[0].grounding == None
      && (TruthyText(r.commentary) ==> ms[0].text == r.commentary.value)
      && (!TruthyText(r.commentary) ==> ms[0].text == "I'm not sure how to respond to that.")
      && (ms[0].isAnalysis <==> r.command == "ANALYZE_BURNOUT")
  {
    var e := ReplyEffects(AssistantReturned(Some(r)), geo, places, replied);
    if ChooseDispatch(r).Mutate? {
      assert e == [e[0]] + [e[1]];
      AppendedMessagesConcat([e[0]], [e[1]]);
    }
  }

  /**
    A place search passes the query through verbatim, with the position when one was obtained, and
    its one reply carries the search's text and grounding instead of the commentary; no mutation is
    made.
  */
  lemma PlacesReplyOnSearch(r: AssistantResponse, geo: GeoOutcome, text: string, g: Grounding, replied: Stamp)
    requires r.command == "FIND_PLACES" && TruthyText(Query(r))
    ensures var e := ReplyEffects(AssistantReturned(Some(r)), geo, PlacesFound(text, g), replied);
      && PlacesSearched(Query(r).value, Near(geo)) in e
      && (PositionRequested in e <==> !geo.NoGeolocation?)
      && AppendedMessages(e) == [ChatMessage(replied.iso + "model", Model, text, replied.millis, false, Some(g))]
      && (forall i :: 0 <= i < |e| ==> !e[i].Mutated?)
  {
    SearchMessages(Query(r).value, geo, PlacesFound(text, g), replied);
  }

  /** A failing assistant, or a failing place search, is answered by exactly the generic error reply. */
  lemma ErrorReplyOnFailure(assistant: AssistantOutcome, geo: GeoOutcome, places: PlacesOutcome, replied: Stamp)
    requires assistant.AssistantThrew?
      || (assistant.AssistantReturned? && assistant.response.Some?
          && ChooseDispatch(assistant.response.value).SearchPlaces? && places.PlacesThrew?)
    ensures AppendedMessages(ReplyEffects(assistant, geo, places, replied))
      == [ChatMessage(replied.iso + "model-error", Model, "chat_error_generic", replied.millis, false, None)]
  {
    if !assistant.AssistantThrew? {
      SearchMessages(ChooseDispatch(assistant.response.value).query, geo, places, replied);
    }
  }

  // ---------------------------------------------------------------------------------------------
  // The component's state
  // ---------------------------------------------------------------------------------------------

  datatype Recorder = Recorder(id: nat, stream: nat)

  /**
    `getUserMedia` either rejects or yields a stream, around which a recorder is built and started.
    With the stream in hand, building the recorder can still throw, and so can starting it.
  */
  datatype MicOutcome =
    | MicDenied
    | RecorderRefused(stream: nat)
    | StartRefused(stream: nat, recorder: nat)
    | MicGranted(stream: nat, recorder: nat)

  datatype TranscriptionOutcome = TranscriptionThrew | Transcribed(text: string)

  class Chat {
    var input: string
    var isLoading: bool
    /** The chat history the component renders and appends to. */
    var messages: seq<ChatMessage>
    var isRecording: bool
    /** `mediaRecorderRef` with the stream its `onstop` handler releases. */
    var recorder: Option<Recorder>
    /** `audioChunksRef` */
    var chunks: seq<Chunk>
    var effects: seq<Effect>

    ghost predicate Valid()
      reads this
    {
      isRecording ==> recorder.Some?
    }

    constructor(history: seq<ChatMessage>)
      ensures Valid()
      ensures input == "" && !isLoading && messages == history && !isRecording
      ensures recorder == None && chunks == [] && effects == []
    {
      input, isLoading, messages, isRecording := "", false, history, false;
      recorder, chunks, effects := None, [], [];
    }

    /**
      Performs one effect: an appended message goes to the end of the history (`addMessage`), and
      the input and loading setters update their fields; every effect is logged.
    */
    method Emit(e: Effect)
      modifies this
      ensures effects == old(effects) + [e]
      ensures messages == old(messages) + (if e.Appended? then [e.message] else [])
      ensures input == (if e.InputSet? then e.text else old(input))
      ensures isLoading == (if e.LoadingSet? then e.on else old(isLoading))
      ensures isRecording == old(isRecording) && recorder == old(recorder) && chunks == old(chunks)
    {
      match e {
        case Appended(m) => messages := AddMessage(messages, m);
        case InputSet(text) => input := text;
        case LoadingSet(on) => isLoading := on;
        case _ =>
      }
      effects := effects + [e];
    }

    /** The start of a turn: the user's message, the input cleared, loading on, the assistant called. */
    method Begin(prompt: string, history: seq<ChatMessage>, sent: Stamp)
      modifies this
      ensures effects == old(effects) + [Appended(UserMessage(prompt, sent)), InputSet(""), LoadingSet(true), AssistantCalled(prompt, history)]
      ensures messages == old(messages) + [UserMessage(prompt, sent)]
      ensures input == ""
      ensures isRecording == old(isRecording) && recorder == old(recorder) && chunks == old(chunks)
    {
      Emit(Appended(UserMessage(prompt, sent)));
      Emit(InputSet(""));
      Emit(LoadingSet(true));
      Emit(AssistantCalled(prompt, history));
    }

    /** The part of a turn that a place search takes over. */
    method SearchNearby(q: string, geo: GeoOutcome, places: PlacesOutcome, replied: Stamp)
      modifies this
      ensures effects == old(effects) + SearchEffects(q, geo, places, replied)
      ensures messages == old(messages) + AppendedMessages(SearchEffects(q, geo, places, replied))
      ensures input == old(input)
      ensures isRecording == old(isRecording) && recorder == old(recorder) && chunks == old(chunks)
    {
      SearchMessages(q, geo, places, replied);
      ghost var effects0, messages0 := effects, messages;
      if !geo.NoGeolocation? {
        Emit(PositionRequested);
      }
      Emit(PlacesSearched(q, Near(geo)));
      assert messages == messages0;
      ghost var effects1 := effects;
      assert effects1 == effects0 + ((if geo.NoGeolocation? then [] else [PositionRequested]) + [PlacesSearched(q, Near(geo))]);
      match places {
        case PlacesThrew =>
          Emit(Appended(ErrorReply(replied)));
          assert effects == effects1 + [Appended(ErrorReply(replied))];
          assert messages == messages0 + [ErrorReply(replied)];
        case PlacesFound(text, g) =>
          Emit(Appended(PlacesReply(text, g, replied)));
          Emit(LoadingSet(false));
          assert effects == effects1 + [Appended(PlacesReply(text, g, replied)), LoadingSet(false)];
          assert messages == messages0 + [PlacesReply(text, g, replied)];
      }
    }

    /** What a turn does with the assistant's outcome, up to its `finally` clause. */
    method Respond(assistant: AssistantOutcome, geo: GeoOutcome, places: PlacesOutcome, replied: Stamp)
      modifies this
      ensures effects == old(effects) + ReplyEffects(assistant, geo, places, replied)
      ensures messages == old(messages) + AppendedMessages(ReplyEffects(assistant, geo, places, replied))
      ensures input == old(input)
      ensures isRecording == old(isRecording) && recorder == old(recorder) && chunks == old(chunks)
    {
      match assistant {
        case AssistantThrew =>
          Emit(Appended(ErrorReply(replied)));
        case AssistantReturned(response) =>
          if response.Some? {
            var r := response.value;
            var d := ChooseDispatch(r);
            if d.SearchPlaces? {
              SearchNearby(d.query, geo, places, replied);
            } else {
              if d.Mutate? {
                Emit(Mutated(d.mutation));
              }
              Emit(Appended(CommentaryReply(r, replied)));
              CommentaryReplyText(r, geo, places, replied);
            }
          }
      }
    }

    /**
      `handleSend`. A blank input (`input.trim() === ''`, see `TrimEmptyIffBlank`) or a turn in
      progress makes it do nothing; otherwise the turn runs
      as `TurnEffects` describes, every message it appends lands at the end of the history, and it
      leaves the input empty and loading off.
    */
    method HandleSend(sent: Stamp, replied: Stamp, assistant: AssistantOutcome, geo: GeoOutcome, places: PlacesOutcome)
      modifies this
      ensures IsBlank(old(input)) || old(isLoading) ==>
        input == old(input) && isLoading == old(isLoading) && messages == old(messages) && effects == old(effects)
      ensures !IsBlank(old(input)) && !old(isLoading) ==>
        var turn := TurnEffects(old(input), old(messages), sent, replied, assistant, geo, places);
        && effects == old(effects) + turn
        && messages == old(messages) + AppendedMessages(turn)
        && input == "" && !isLoading
      ensures isRecording == old(isRecording) && recorder == old(recorder) && chunks == old(chunks)
    {
      if IsBlank(input) || isLoading {
        return;
      }
      Turn(input, messages, sent, replied, assistant, geo, places);
    }

    /** A turn that passed the guard: the user's message, the reply, and loading off in `finally`. */
    method Turn(prompt: string, history: seq<ChatMessage>, sent: Stamp, replied: Stamp,
                assistant: AssistantOutcome, geo: GeoOutcome, places: PlacesOutcome)
      modifies this
      ensures var turn := TurnEffects(prompt, history, sent, replied, assistant, geo, places);
        && effects == old(effects) + turn
        && messages == old(messages) + AppendedMessages(turn)
        && input == "" && !isLoading
      ensures isRecording == old(isRecording) && recorder == old(recorder) && chunks == old(chunks)
    {
      ghost var effects0, messages0 := effects, messages;
      ghost var head := [Appended(UserMessage(prompt, sent)), InputSet(""), LoadingSet(true), AssistantCalled(prompt, history)];
      ghost var body := ReplyEffects(assistant, geo, places, replied);
      Begin(prompt, history, sent);
      ghost var effects1, messages1 := effects, messages;
      Respond(assistant, geo, places, replied);
      assert effects == effects1 + body && messages == messages1 + AppendedMessages(body);
      ghost var effects2, messages2 := effects, messages;
      Emit(LoadingSet(false));
      assert messages == messages2;
      assert effects == effects0 + (head + body + [LoadingSet(false)]);
      assert messages == messages0 + ([UserMessage(prompt, sent)] + AppendedMessages(body));
      TurnMessages(prompt, history, sent, replied, assistant, geo, places);
    }

    /**
      `startRecording`: a refused microphone only raises an alert; a granted one starts a fresh
      recording. Every failure lands in the one `catch`, which alerts and nothing more: when the
      recorder cannot be built or started, the stream's tracks are not stopped, and a recorder that
      failed to start is left in the ref with the chunks emptied while no recording is in progress.
    */
    method StartRecording(mic: MicOutcome)
      modifies this
      ensures Valid()
      ensures mic.MicDenied? || mic.RecorderRefused? ==>
        effects == old(effects) + [MicrophoneAlert] && isRecording == old(isRecording)
        && recorder == old(recorder) && chunks == old(chunks)
      ensures mic.StartRefused? ==>
        effects == old(effects) + [MicrophoneAlert] && isRecording == old(isRecording)
        && recorder == Some(Recorder(mic.recorder, mic.stream)) && chunks == []
      ensures mic.MicGranted? ==>
        effects == old(effects) + [RecorderStarted(mic.recorder)] && isRecording
        && recorder == Some(Recorder(mic.recorder, mic.stream)) && chunks == []
      ensures input == old(input) && isLoading == old(isLoading) && messages == old(messages)
      requires Valid()
    {
      match mic {
        case MicDenied =>
          effects := effects + [MicrophoneAlert];
        case RecorderRefused(_) =>
          effects := effects + [MicrophoneAlert];
        case StartRefused(stream, id) =>
          recorder := Some(Recorder(id, stream));
          chunks := [];
          effects := effects + [MicrophoneAlert];
        case MicGranted(stream, id) =>
          recorder := Some(Recorder(id, stream));
          chunks := [];
          effects := effects + [RecorderStarted(id)];
          isRecording := true;
      }
    }

    /** `ondataavailable`: only non-empty chunks are kept. */
    method OnDataAvailable(chunk: Chunk)
      modifies this
      ensures chunks == if chunk.size > 0 then old(chunks) + [chunk] else old(chunks)
      ensures input == old(input) && isLoading == old(isLoading) && messages == old(messages)
      ensures isRecording == old(isRecording) && recorder == old(recorder) && effects == old(effects)
    {
      if chunk.size > 0 {
        chunks := chunks + [chunk];
      }
    }

    /** `stopRecording`: acts only while a recorder exists and a recording is in progress. */
    method StopRecording()
      requires Valid()
      modifies this
      ensures Valid() && !isRecording
      ensures old(recorder).Some? && old(isRecording) ==>
        effects == old(effects) + [RecorderStopped(old(recorder).value.id)]
      ensures !(old(recorder).Some? && old(isRecording)) ==> effects == old(effects)
      ensures input == old(input) && isLoading == old(isLoading) && messages == old(messages)
      ensures recorder == old(recorder) && chunks == old(chunks)
    {
      if recorder.Some? && isRecording {
        effects := effects + [RecorderStopped(recorder.value.id)];
        isRecording := false;
      }
    }

    /**
      The recorder's `onstop`: the chunks gathered so far become the audio to transcribe, and the
      stream's tracks are stopped at once; transcription finishes later, in `OnAudioRead`.
    */
    method OnStop() returns (audio: seq<Chunk>)
      requires recorder.Some?
      modifies this
      ensures audio == chunks
      ensures effects == old(effects) + [TracksStopped(old(recorder).value.stream)]
      ensures input == old(input) && isLoading == old(isLoading) && messages == old(messages)
      ensures isRecording == old(isRecording) && recorder == old(recorder) && chunks == old(chunks)
    {
      audio := chunks;
      effects := effects + [TracksStopped(recorder.value.stream)];
    }

    /**
      The reader's `onloadend`: loading is switched on around the transcription, whose text replaces
      the input. A transcription that throws leaves loading on and the input as it was.
    */
    method OnAudioRead(audio: seq<Chunk>, outcome: TranscriptionOutcome)
      modifies this
      ensures outcome.Transcribed? ==>
        effects == old(effects) + [LoadingSet(true), TranscriptionRequested(audio), InputSet(outcome.text), LoadingSet(false)]
        && input == outcome.text && !isLoading
      ensures outcome.TranscriptionThrew? ==>
        effects == old(effects) + [LoadingSet(true), TranscriptionRequested(audio)]
        && input == old(input) && isLoading
      ensures messages == old(messages)
      ensures isRecording == old(isRecording) && recorder == old(recorder) && chunks == old(chunks)
    {
      Emit(LoadingSet(true));
      Emit(TranscriptionRequested(audio));
      if outcome.Transcribed? {
        Emit(InputSet(outcome.text));
        Emit(LoadingSet(false));
      }
    }
  }

  /**
    A recorder that fails to start leaves the granted stream open: no recording is in progress, so
    `stopRecording` does nothing, the recorder's `onstop` never runs, and nothing ever stops the
    stream's tracks.
  */
  method FailedStartLeavesStreamOpen(stream: nat, id: nat) returns (effects: seq<Effect>)
    ensures effects == [MicrophoneAlert]
    ensures TracksStopped(stream) !in effects && RecorderStarted(id) !in effects
  {
    var chat := new Chat([]);
    chat.StartRecording(StartRefused(stream, id));
    chat.StopRecording();
    effects := chat.effects;
  }

  // ---------------------------------------------------------------------------------------------
  // Read-aloud playback

  datatype SpeechEvent =
    | ContextClosed(context: nat)
    | SpeechRequested(text: string)
    | PlaybackStarted(context: nat, messageId: string)

  datatype ToggleResult = Stopped | Playing | NoAudio | CloseRejected

  /**
    `handleTTS`'s single playback slot: `playing` is `isPlayingAudio`, `context` is
    `audioContextRef`. `created` and `closed` are the audio contexts the browser has made and closed,
    which decides whether closing one again fails.
  */
  class SpeechPlayer {
    var playing: Option<string>
    var context: Option<nat>
    var created: set<nat>
    var closed: set<nat>
    var events: seq<SpeechEvent>

    /** At most one audio context is open, and it is the one in the slot; a marked message is playing in it. */
    ghost predicate Valid()
      reads this
    {
      && closed <= created
      && (context.Some? ==> context.value in created)
      && (forall c :: c in created && c !in closed ==> context == Some(c))
      && (playing.Some? ==> context.Some? && context.value !in closed)
    }

    /** The slot never holds a context that is already closed. */
    predicate SlotOpen()
      reads this
    {
      context.Some? ==> context.value !in closed
    }

    constructor()
      ensures Valid() && SlotOpen()
      ensures playing == None && context == None && created == {} && closed == {} && events == []
    {
      playing, context, created, closed, events := None, None, {}, {}, [];
    }

    /**
      `handleTTS` as written. Toggling the marked message closes its context and empties the slot.
      Toggling another message first awaits `close()` on whatever context the slot holds, which
      rejects if that context is already closed, ending the handler; otherwise it marks the message
      and requests speech, playing it in a new context when audio comes back and clearing the mark
      when none does, without emptying the slot.
    */
    method ToggleAsWritten(text: string, messageId: string, hasAudio: bool, newContext: nat) returns (result: ToggleResult)
      requires Valid() && newContext !in created
      modifies this
      ensures Valid()
      ensures old(playing) == Some(messageId) ==>
        result == Stopped && playing == None && context == None
        && closed == old(closed) + {old(context).value} && created == old(created)
        && events == old(events) + [ContextClosed(old(context).value)]
      ensures old(playing) != Some(messageId) && !old(SlotOpen()) ==>
        result == CloseRejected && playing == old(playing) && context == old(context)
        && closed == old(closed) && created == old(created) && events == old(events)
      ensures old(playing) != Some(messageId) && old(SlotOpen()) ==>
        && closed == old(closed) + (if old(context).Some? then {old(context).value} else {})
        && events == old(events) + (if old(context).Some? then [ContextClosed(old(context).value)] else [])
                     + [SpeechRequested(text)] + (if hasAudio then [PlaybackStarted(newContext, messageId)] else [])
        && (hasAudio ==> result == Playing && playing == Some(messageId) && context == Some(newContext)
                         && created == old(created) + {newContext})
        && (!hasAudio ==> result == NoAudio && playing == None && context == old(context) && created == old(created))
    {
      if playing == Some(messageId) {
        events := events + [ContextClosed(context.value)];
        closed := closed + {context.value};
        context := None;
        playing := None;
        return Stopped;
      }
      if context.Some? {
        if context.value in closed {
          return CloseRejected;
        }
        events := events + [ContextClosed(context.value)];
        closed := closed + {context.value};
      }
      playing := Some(messageId);
      events := events + [SpeechRequested(text)];
      if hasAudio {
        created := created + {newContext};
        context := Some(newContext);
        events := events + [PlaybackStarted(newContext, messageId)];
        result := Playing;
      } else {
        playing := None;
        result := NoAudio;
      }
    }

    /**
      `handleTTS` with the slot emptied once its context has been closed. The slot then never holds
      a closed context, no toggle is rejected, and another message plays exactly when speech comes
      back.
    */
    method Toggle(text: string, messageId: string, hasAudio: bool, newContext: nat) returns (result: ToggleResult)
      requires Valid() && SlotOpen() && newContext !in created
      modifies this
      ensures Valid() && SlotOpen() && result != CloseRejected
      ensures old(playing) == Some(messageId) ==>
        result == Stopped && playing == None && context == None
        && closed == old(closed) + {old(context).value} && created == old(created)
        && events == old(events) + [ContextClosed(old(context).value)]
      ensures old(playing) != Some(messageId) ==>
        && closed == old(closed) + (if old(context).Some? then {old(context).value} else {})
        && events == old(events) + (if old(context).Some? then [ContextClosed(old(context).value)] else [])
                     + [SpeechRequested(text)] + (if hasAudio then [PlaybackStarted(newContext, messageId)] else [])
        && (hasAudio ==> result == Playing && playing == Some(messageId) && context == Some(newContext)
                         && created == old(created) + {newContext})
        && (!hasAudio ==> result == NoAudio && playing == None && context == None && created == old(created))
    {
      if playing == Some(messageId) {
        events := events + [ContextClosed(context.value)];
        closed := closed + {context.value};
        context := None;
        playing := None;
        return Stopped;
      }
      if context.Some? {
        events := events + [ContextClosed(context.value)];
        closed := closed + {context.value};
        context := None;
      }
      playing := Some(messageId);
      events := events + [SpeechRequested(text)];
      if hasAudio {
        created := created + {newContext};
        context := Some(newContext);
        events := events + [PlaybackStarted(newContext, messageId)];
        result := Playing;
      } else {
        playing := None;
        result := NoAudio;
      }
    }

    /** The source's `onended`, which fires only while its context is open: the mark and the slot are cleared. */
    method OnEnded(c: nat)
      requires Valid() && c in created && c !in closed
      modifies this
      ensures Valid() && SlotOpen()
      ensures playing == None && context == None && closed == old(closed) + {c} && created == old(created)
      ensures events == old(events) + [ContextClosed(c)]
    {
      playing := None;
      events := events + [ContextClosed(c)];
      closed := closed + {c};
      context := None;
    }
  }

  /**
    Message 1 plays; message 2 is toggled but synthesis returns nothing, after context 1 has been
    closed and left in the slot; toggling message 3 then awaits `close()` on context 1 a second time,
    which rejects, so message 3 is never played (nor any later one).
  */
  method StaleSlotAsWritten() returns (first: ToggleResult, second: ToggleResult, third: ToggleResult)
    ensures first == Playing && second == NoAudio && third == CloseRejected
  {
    var p := new SpeechPlayer();
    first := p.ToggleAsWritten("one", "m1", true, 1);
    second := p.ToggleAsWritten("two", "m2", false, 2);
    third := p.ToggleAsWritten("three", "m3", true, 3);
  }

  /** The same three toggles with the slot emptied after closing: message 3 plays. */
  method StaleSlotCorrected() returns (first: ToggleResult, second: ToggleResult, third: ToggleResult)
    ensures first == Playing && second == NoAudio && third == Playing
  {
    var p := new SpeechPlayer();
    first := p.Toggle("one", "m1", true, 1);
    second := p.Toggle("two", "m2", false, 2);
    third := p.Toggle("three", "m3", true, 3);
  }
}
