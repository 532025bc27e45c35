/** The voice agent's interaction shell (components/VoiceAgent.tsx) as a value-level state
    machine: the store fields the shell writes, the calls it makes on its collaborators
    (the speech engine and the response generator), and one step function per event the
    shell handles. Each event is handled to completion before the next one. */
module AgentModel {

  datatype Option<T> = None | Some(value: T)

  /** The five engine statuses the store holds. */
  datatype Status = Idle | Listening | Processing | Speaking | Error

  /** What a rejected promise carries: an `Error` object with its message, or any other value. */
  datatype Thrown = ErrorObject(message: string) | OtherValue

  /** The settlement of a promise the shell awaits. */
  datatype Outcome<T> = Resolved(value: T) | Rejected(thrown: Thrown)

  /** The text the catch block of the transcript callback records for a thrown value. */
  function FailureText(t: Thrown): string {
    match t
    case ErrorObject(message) => message
    case OtherValue => "Unknown error"
  }

  /** A call the shell makes on a collaborator; the trace records them in the order made. */
  datatype Call =
    | StartListening
    | StopListening
    | CancelSpeech
    | Speak(text: string)
    | EnableContinuousMode(on: bool)
    | ProcessCommand(transcript: string, deviceType: string)

  /** One entry of the conversation history. `id` and `timestamp` both come from the clock
      reading taken when the final transcript arrived. */
  datatype Command = Command(
    id: nat,
    transcript: string,
    timestamp: nat,
    confidence: real,
    response: Option<string>,
    error: Option<string>)

  /** What the mount effect sets up: the speech engine and the response generator, with the
      device type that the transcript callback captures. */
  datatype Session = Session(deviceType: string)

  datatype State = State(
    session: Option<Session>,  // the engine reference: None until the mount effect has run
    supported: bool,           // the store's isSupported
    status: Status,
    errorMessage: Option<string>,
    currentTranscript: string,
    commands: seq<Command>,    // newest first
    continuousMode: bool,
    calls: seq<Call>)          // every collaborator call made so far

  /** The store before the first render's effect has run. */
  function Initial(supported: bool): State {
    State(None, supported, Idle, None, "", [], false, [])
  }

  /** The mount effect: create the engines, capture the device type, record support. */
  function MountStep(s: State, deviceType: string, supported: bool): State {
    s.(session := Some(Session(deviceType)), supported := supported)
  }

  /** The microphone button (handleMicClick). */
  function MicClickStep(s: State): State {
    if s.session.None? then s
    else if s.status == Listening || s.status == Processing then
      s.(status := Idle, calls := s.calls + [StopListening])
    else if s.status == Speaking then
      s.(status := Idle, calls := s.calls + [CancelSpeech])
    else
      s.(errorMessage := None, calls := s.calls + [StartListening])
  }

  /** The continuous-mode button (handleContinuousModeToggle). */
  function ToggleStep(s: State): State {
    if s.session.None? then s
    else s.(continuousMode := !s.continuousMode,
            calls := s.calls + [EnableContinuousMode(!s.continuousMode)])
  }

  /** The engine's status-change callback. Before mount no callback is registered. */
  function StatusChangeStep(s: State, reported: Status): State {
    if s.session.None? then s
    else s.(status := reported, errorMessage := None)
  }

  /** The engine's error callback. */
  function ErrorStep(s: State, message: string): State {
    if s.session.None? then s
    else s.(errorMessage := Some(message), status := Idle)
  }

  /** The entries a final transcript adds to the history, newest first, starting from the
      command built from it. When the speech call rejects, the catch block sets the error on
      the command object that is already in the history and adds it again: that path adds
      two equal entries carrying both a response and an error. */
  function EntriesRecorded(pending: Command, reply: Outcome<string>, spoken: Outcome<()>): seq<Command> {
    match reply
    case Rejected(t) => [pending.(error := Some(FailureText(t)))]
    case Resolved(response) =>
      match spoken
      case Resolved(_) => [pending.(response := Some(response))]
      case Rejected(t) =>
        var both := pending.(response := Some(response), error := Some(FailureText(t)));
        [both, both]
  }

  /** The collaborator calls a final transcript makes: the response generator, then the
      speech engine when a response came back. */
  function CallsMade(transcript: string, deviceType: string, reply: Outcome<string>): seq<Call> {
    match reply
    case Rejected(_) => [ProcessCommand(transcript, deviceType)]
    case Resolved(response) => [ProcessCommand(transcript, deviceType), Speak(response)]
  }

  /** The error message after a final transcript: the failure text when the catch block ran,
      otherwise the message shown before. */
  function MessageAfter(shown: Option<string>, reply: Outcome<string>, spoken: Outcome<()>): Option<string> {
    match reply
    case Rejected(t) => Some(FailureText(t))
    case Resolved(_) =>
      match spoken
      case Resolved(_) => shown
      case Rejected(t) => Some(FailureText(t))
  }

  /** The engine's final-transcript callback. `now` is the clock reading, `reply` the
      settlement of the response generator and `spoken` that of the speech call (consulted
      only when the reply resolved). */
  function TranscriptStep(s: State, transcript: string, confidence: real, now: nat,
                          reply: Outcome<string>, spoken: Outcome<()>): State
  {
    if s.session.None? then s
    else
      var pending := Command(now, transcript, now, confidence, None, None);
      s.(currentTranscript := "", status := Processing,
         calls := s.calls + CallsMade(transcript, s.session.value.deviceType, reply),
         commands := EntriesRecorded(pending, reply, spoken) + s.commands,
         errorMessage := MessageAfter(s.errorMessage, reply, spoken))
  }

  /** The events the shell handles. */
  datatype Event =
    | Mounted(deviceType: string, supported: bool)
    | MicClicked
    | ContinuousModeToggled
    | StatusReported(reported: Status)
    | TranscriptFinal(transcript: string, confidence: real, now: nat,
                      reply: Outcome<string>, spoken: Outcome<()>)
    | ErrorReported(message: string)

  function Step(s: State, e: Event): State {
    match e
    case Mounted(deviceType, supported) => MountStep(s, deviceType, supported)
    case MicClicked => MicClickStep(s)
    case ContinuousModeToggled => ToggleStep(s)
    case StatusReported(reported) => StatusChangeStep(s, reported)
    case TranscriptFinal(transcript, confidence, now, reply, spoken) =>
      TranscriptStep(s, transcript, confidence, now, reply, spoken)
    case ErrorReported(message) => ErrorStep(s, message)
  }

  /** The state after handling `evs` in order, starting from `s`. */
  function Run(s: State, evs: seq<Event>): State
    decreases |evs|
  {
    if evs == [] then s else Run(Step(s, evs[0]), evs[1..])
  }

  /** How many times `c` occurs in the trace `calls`. */
  function Occurrences(calls: seq<Call>, c: Call): nat {
    if calls == [] then 0
    else (if calls[0] == c then 1 else 0) + Occurrences(calls[1..], c)
  }

  /** How many history entries an event adds once the shell is mounted. */
  function EntriesAdded(e: Event): nat {
    match e
    case TranscriptFinal(_, _, _, reply, spoken) =>
      if reply.Resolved? && spoken.Rejected? then 2 else 1
    case _ => 0
  }

  function EntriesAddedBy(evs: seq<Event>): nat {
    if evs == [] then 0 else EntriesAdded(evs[0]) + EntriesAddedBy(evs[1..])
  }

  function TogglesIn(evs: seq<Event>): nat {
    if evs == [] then 0
    else (if evs[0] == ContinuousModeToggled then 1 else 0) + TogglesIn(evs[1..])
  }

  function ClicksIn(evs: seq<Event>): nat {
    if evs == [] then 0
    else (if evs[0] == MicClicked then 1 else 0) + ClicksIn(evs[1..])
  }

  /** An entry that carries both a response and an error. */
  predicate RecordsBoth(c: Command) {
    c.response.Some? && c.error.Some?
  }

  /** The entry at `i` has an equal neighbour. */
  predicate BesideEqual(cs: seq<Command>, i: int)
    requires 0 <= i < |cs|
  {
    (i + 1 < |cs| && cs[i + 1] == cs[i]) || (0 < i && cs[i - 1] == cs[i])
  }

  /** Every history entry records an outcome, and an entry carries both a response and an
      error only as one of two equal neighbours (the speech-rejection path). */
  ghost predicate HistoryShape(cs: seq<Command>) {
    (forall i :: 0 <= i < |cs| ==> cs[i].response.Some? || cs[i].error.Some?) &&
    (forall i :: 0 <= i < |cs| && RecordsBoth(cs[i]) ==> BesideEqual(cs, i))
  }
}
