/** The shell as the component runs it: the store's fields updated in place, a command object
    whose outcome fields are assigned after it is built, and one method per event. Each
    method is proved to take the store exactly where the matching step of AgentModel does. */
module VoiceAgentShell {
  import opened AgentModel

  /** A conversation entry as the component builds it: identity, transcript, time and
      confidence fixed at creation, outcome fields assigned afterwards. */
  class VoiceCommand {
    const id: nat
    const transcript: string
    const timestamp: nat
    const confidence: real
    var response: Option<string>
    var error: Option<string>

    constructor (id: nat, transcript: string, timestamp: nat, confidence: real)
      ensures Value() == Command(id, transcript, timestamp, confidence, None, None)
    {
      this.id := id;
      this.transcript := transcript;
      this.timestamp := timestamp;
      this.confidence := confidence;
      response := None;
      error := None;
    }

    /** The entry as the history panel shows it now. */
    function Value(): Command
      reads this
    {
      Command(id, transcript, timestamp, confidence, response, error)
    }
  }

  /** The entries the history holds, as seen through the objects it refers to. */
  ghost function Snapshot(cs: seq<VoiceCommand>): (r: seq<Command>)
    reads cs
    ensures |r| == |cs|
  {
    if cs == [] then [] else [cs[0].Value()] + Snapshot(cs[1..])
  }

  /** Adding an object at the newest end adds what it holds now. */
  lemma SnapshotPrepend(c: VoiceCommand, cs: seq<VoiceCommand>)
    ensures Snapshot([c] + cs) == [c.Value()] + Snapshot(cs)
  {
    assert ([c] + cs)[1..] == cs;
  }

  /** Entries whose objects were not touched read the same as before. */
  twostate lemma {:induction false} SnapshotFrame(cs: seq<VoiceCommand>)
    requires forall c :: c in cs ==> unchanged(c)
    ensures Snapshot(cs) == old(Snapshot(cs))
    decreases |cs|
  {
    if cs != [] {
      assert cs[0] in cs;
      forall c | c in cs[1..] ensures unchanged(c) {
        assert c in cs;
      }
      SnapshotFrame(cs[1..]);
    }
  }

  class VoiceAgent {
    var session: Option<Session>  // the engine reference, set by the mount effect
    var isSupported: bool
    var status: Status
    var errorMessage: Option<string>
    var currentTranscript: string
    var commands: seq<VoiceCommand>  // newest first
    var continuousMode: bool
    ghost var calls: seq<Call>       // the collaborator calls made so far

    /** The store and trace as a value of the model. */
    ghost function View(): State
      reads this, commands
    {
      State(session, isSupported, status, errorMessage, currentTranscript,
            Snapshot(commands), continuousMode, calls)
    }

    /** The first render: the store's initial values, no engine yet. */
    constructor (supported: bool)
      ensures View() == Initial(supported)
    {
      session := None;
      isSupported := supported;
      status := Idle;
      errorMessage := None;
      currentTranscript := "";
      commands := [];
      continuousMode := false;
      calls := [];
    }

    /** The mount effect: create the engines, capture the device type and record support. */
    method Mount(deviceType: string, supported: bool)
      requires session.None?
      modifies this
      ensures View() == MountStep(old(View()), deviceType, supported)
      ensures commands == old(commands)
    {
      session := Some(Session(deviceType));
      isSupported := supported;
    }

    /** The microphone button; it is rendered only when speech is supported. */
    method HandleMicClick()
      requires isSupported
      modifies this
      ensures View() == MicClickStep(old(View()))
      ensures commands == old(commands)
    {
      if session.None? {
        return;
      }
      if status == Listening || status == Processing {
        calls := calls + [StopListening];
        status := Idle;
      } else if status == Speaking {
        calls := calls + [CancelSpeech];
        status := Idle;
      } else {
        errorMessage := None;
        calls := calls + [StartListening];
      }
    }

    /** The continuous-mode button; it is rendered only when speech is supported. */
    method HandleContinuousModeToggle()
      requires isSupported
      modifies this
      ensures View() == ToggleStep(old(View()))
      ensures commands == old(commands)
    {
      if session.None? {
        return;
      }
      var newMode := !continuousMode;
      continuousMode := newMode;
      calls := calls + [EnableContinuousMode(newMode)];
    }

    /** The engine's status-change callback. */
    method OnStatusChange(reported: Status)
      modifies this
      ensures View() == StatusChangeStep(old(View()), reported)
      ensures commands == old(commands)
    {
      if session.None? {
        return;
      }
      status := reported;
      errorMessage := None;
    }

    /** The engine's error callback. */
    method OnError(message: string)
      modifies this
      ensures View() == ErrorStep(old(View()), message)
      ensures commands == old(commands)
    {
      if session.None? {
        return;
      }
      errorMessage := Some(message);
      status := Idle;
    }

    /** The engine's final-transcript callback. One `try` covers both awaited calls, so a
        rejected speech call lands in the same `catch` as a rejected reply: the command
        object, already in the history with its response, then gets the error too and is
        added a second time. Both history slots refer to that one object. */
    method OnTranscript(transcript: string, confidence: real, now: nat,
                        reply: Outcome<string>, spoken: Outcome<()>)
      modifies this
      ensures View() == TranscriptStep(old(View()), transcript, confidence, now, reply, spoken)
      ensures |old(commands)| <= |commands| &&
              commands[|commands| - |old(commands)|..] == old(commands)
      ensures session.Some? && reply.Resolved? && spoken.Rejected? ==>
                |commands| > 0 && commands == [commands[0], commands[0]] + old(commands)
    {
      if session.None? {
        return;
      }
      currentTranscript := "";
      var command := new VoiceCommand(now, transcript, now, confidence);
      var caught: Option<Thrown> := None;
      status := Processing;
      calls := calls + [ProcessCommand(transcript, session.value.deviceType)];
      match reply {
        case Rejected(t) =>
          caught := Some(t);
        case Resolved(response) =>
          command.response := Some(response);
          commands := [command] + commands;
          calls := calls + [Speak(response)];
          if spoken.Rejected? {
            caught := Some(spoken.thrown);
          }
      }
      if caught.Some? {
        command.error := Some(FailureText(caught.value));
        commands := [command] + commands;
        errorMessage := command.error;
      }
      TranscriptView(this, transcript, confidence, now, reply, spoken);
    }
  }

  /** The history after the transcript callback: the new command object, once or twice, ahead
      of entries whose objects it did not touch. */
  twostate lemma HistoryAfterTranscript(new before: seq<VoiceCommand>, new after: seq<VoiceCommand>,
                                        new command: VoiceCommand, new twice: bool)
    requires old(allocated(before))
    requires forall c :: c in before ==> unchanged(c)
    requires after == (if twice then [command, command] else [command]) + before
    ensures Snapshot(after) ==
            (if twice then [command.Value(), command.Value()] else [command.Value()]) + old(Snapshot(before))
  {
    SnapshotFrame(before);
    SnapshotPrepend(command, before);
    if twice {
      SnapshotPrepend(command, [command] + before);
      assert after == [command] + ([command] + before);
    }
  }

  /** The store facts the final-transcript callback establishes, read as a step of the model. */
  twostate lemma TranscriptView(new agent: VoiceAgent, new transcript: string, new confidence: real,
                                new now: nat, new reply: Outcome<string>, new spoken: Outcome<()>)
    requires old(allocated(agent)) && old(agent.session).Some?
    requires forall c :: c in old(agent.commands) ==> unchanged(c)
    requires agent.session == old(agent.session) && agent.isSupported == old(agent.isSupported)
    requires agent.continuousMode == old(agent.continuousMode)
    requires agent.currentTranscript == "" && agent.status == Processing
    requires agent.calls == old(agent.calls) + CallsMade(transcript, old(agent.session).value.deviceType, reply)
    requires agent.errorMessage == MessageAfter(old(agent.errorMessage), reply, spoken)
    requires |agent.commands| > 0
    requires agent.commands ==
             (if reply.Resolved? && spoken.Rejected?
              then [agent.commands[0], agent.commands[0]] else [agent.commands[0]])
             + old(agent.commands)
    requires agent.commands[0].Value() ==
             EntriesRecorded(Command(now, transcript, now, confidence, None, None), reply, spoken)[0]
    ensures agent.View() == TranscriptStep(old(agent.View()), transcript, confidence, now, reply, spoken)
  {
    var command := agent.commands[0];
    var twice := reply.Resolved? && spoken.Rejected?;
    HistoryAfterTranscript(old(agent.commands), agent.commands, command, twice);
    var v := command.Value();
    var added := EntriesRecorded(Command(now, transcript, now, confidence, None, None), reply, spoken);
    if twice {
      assert added == [v, v];
    } else {
      assert added == [v];
    }
  }
}
