# Voice agent interaction shell

This project models the event-handling shell of the voice agent's main component
(`components/VoiceAgent.tsx`, lines 39-111) and proves what each handler does to the
shared store and which collaborator calls it makes.

The shell keeps these store fields:
- the engine status (idle, listening, processing, speaking, error);
- the error message;
- the live transcript;
- the conversation history, newest first;
- the continuous-mode flag.

It reacts to six events:
- the mount effect, which creates the engines, records support and registers three callbacks;
- the engine's status-change callback;
- the engine's final-transcript callback;
- the engine's error callback;
- the microphone button;
- the continuous-mode button.

The speech engine and the response generator are abstract collaborators. Every call the
event handlers make on them is recorded in a ghost trace: start listening, stop listening,
cancel speech, speak a text, switch continuous mode, process a transcript. How their
promises settle is supplied as a parameter of the event. The mount effect's support query
(line 49) and its three callback registrations (lines 51, 56, 80) are not in the trace: they
appear only as the recorded `supported` flag and the `session` that enables the callbacks.

Files:
- `agent_model.dfy` (module `AgentModel`) holds the store as a value (`State`).
  - It has one step function per event and `Run`, which handles a sequence of events in order.
  - The final-transcript step is spelled out as `EntriesRecorded`, `CallsMade` and `MessageAfter`.
- `voice_agent.dfy` (module `VoiceAgentShell`) is the component as it runs.
  - A class `VoiceAgent` has the store fields and one method per event.
  - A class `VoiceCommand` has its `response` and `error` assigned in place.
  - Each method is proved to move the store, read through `View()`, exactly as the matching
    step function does.
  - `OnTranscript` also proves the object identity behind the speech-rejection path: both new
    history slots refer to one command object.
- `agent_properties.dfy` (module `AgentProperties`) proves what the handlers guarantee,
  one event at a time and over any sequence of events.

Two behaviours of the code look unintended; the model follows the code in both:
- A failed command would be expected to show the error status. The code never sets the
  error status itself. After a failed `processCommand` the status stays at processing
  (lines 66-77). The error callback goes straight to idle (lines 80-83). Error arrives only
  when the engine reports it through the status callback (`RunErrorOnlyReported`).
- Each final transcript would be expected to add exactly one entry, with exactly one of
  response and error set. In the code, a resolved reply whose `speak` call rejects sets both
  fields on the same command object and adds it a second time (lines 68-76).
  `SpeechRejectedRecordsTwice` and `HistoryShape` state what the code does instead.

## Model

| member | source | states |
|---|---|---|
| VoiceAgentShell.VoiceAgent.constructor | components/VoiceAgent.tsx:18-33 | the store starts idle, with no error, an empty transcript and history, continuous mode off and no engine |
| VoiceAgentShell.VoiceAgent.Mount | components/VoiceAgent.tsx:39-50 | the mount effect records the engine (with the device type the transcript callback passes on) and whether speech is supported; nothing else changes |
| VoiceAgentShell.VoiceCommand.constructor | components/VoiceAgent.tsx:59-64 | a new command carries the transcript, confidence, id and time it was built from, with no response and no error |
| VoiceAgentShell.VoiceAgent.HandleMicClick | components/VoiceAgent.tsx:91-104 | the microphone handler moves the store exactly as `MicClickStep`: nothing before mount; stop or cancel and go idle while busy; otherwise clear the error and start listening |
| VoiceAgentShell.VoiceAgent.HandleContinuousModeToggle | components/VoiceAgent.tsx:106-111 | the toggle handler moves the store exactly as `ToggleStep` and leaves the history alone |
| VoiceAgentShell.VoiceAgent.OnStatusChange | components/VoiceAgent.tsx:51-54 | the status callback moves the store exactly as `StatusChangeStep` and leaves the history alone |
| VoiceAgentShell.VoiceAgent.OnError | components/VoiceAgent.tsx:80-83 | the error callback moves the store exactly as `ErrorStep` and leaves the history alone |
| VoiceAgentShell.VoiceAgent.OnTranscript | components/VoiceAgent.tsx:56-78 | the transcript callback moves the store exactly as `TranscriptStep`; the old history objects stay in place as the oldest entries; when the reply resolves and speech rejects, the two new history slots are one and the same command object, ahead of the old history |
| VoiceAgentShell.HistoryAfterTranscript | components/VoiceAgent.tsx:69-75 | after the callback the history reads as the new command's final contents, once or twice, ahead of the old entries, whose objects were not touched |
| VoiceAgentShell.TranscriptView | components/VoiceAgent.tsx:56-78 | the field updates the callback makes (cleared transcript, processing status, calls, message, entries) are exactly the model's transcript step |
| AgentProperties.MicClickWhileCapturing | components/VoiceAgent.tsx:94-96 | while listening or processing a click stops listening once, never cancels speech or starts listening, sets idle, and changes nothing else |
| AgentProperties.MicClickWhileSpeaking | components/VoiceAgent.tsx:97-99 | while speaking a click cancels speech once, never stops or starts listening, sets idle, and changes nothing else |
| AgentProperties.MicClickAtRest | components/VoiceAgent.tsx:100-103 | when idle or in error a click clears the error message and starts listening once, leaving the status for the engine to change |
| AgentProperties.ToggleInvolution | components/VoiceAgent.tsx:106-111 | a toggle negates the flag and passes the new value to the engine; two toggles restore the flag and change nothing but the trace |
| AgentProperties.StatusReportReplaces | components/VoiceAgent.tsx:51-54 | the status callback installs exactly the reported status, clears the error message, and changes nothing else |
| AgentProperties.ErrorReportForcesIdle | components/VoiceAgent.tsx:80-83 | the error callback shows the reported text and forces idle from any status, never the error status; history and trace are unchanged |
| AgentProperties.TranscriptStartsProcessing | components/VoiceAgent.tsx:57-68 | every final transcript clears the live transcript, sets processing, first asks the generator with the mounted device type, and records a newest entry with the given transcript, confidence and clock reading |
| AgentProperties.ReplySpokenRecordsOnce | components/VoiceAgent.tsx:68-72 | a resolved reply that is spoken adds one entry with the response and no error, speaks that response once, and keeps the error message |
| AgentProperties.ReplyRejectedRecordsFailure | components/VoiceAgent.tsx:73-77 | a rejected reply adds one entry with the failure text (the Error's message or "Unknown error") and no response, shows that text, speaks nothing, and stays processing |
| AgentProperties.SpeechRejectedRecordsTwice | components/VoiceAgent.tsx:68-76 | a reply whose speech rejects adds two equal entries carrying both the response and the failure text, and shows that text |
| AgentProperties.RunBeforeMount | components/VoiceAgent.tsx:92 | before the mount effect no event other than the mount changes anything (no callback is registered and both buttons return early) |
| AgentProperties.RunKeepsPast | components/VoiceAgent.tsx:70-75 | over any events the history only grows at its newest end and the trace only at its end: earlier entries and calls stay, in order |
| AgentProperties.RunErrorOnlyReported | components/VoiceAgent.tsx:51-83 | the status becomes error only when the engine reports error through the status callback |
| AgentProperties.RunHistoryShape | components/VoiceAgent.tsx:66-77 | every entry records an outcome, and an entry carries both a response and an error only beside an equal entry |
| AgentProperties.RunEntryCount | components/VoiceAgent.tsx:66-77 | once mounted, each final transcript adds one entry, or two when the reply resolved and speech rejected; no other event adds or removes entries |
| AgentProperties.RunContinuousParity | components/VoiceAgent.tsx:106-111 | once mounted, the continuous-mode flag is the original flipped once per toggle |
| AgentProperties.RunStartsOnlyOnClick | components/VoiceAgent.tsx:100-103 | the shell asks the engine to start listening at most once per microphone click |
| AgentProperties.ReachableStates | components/VoiceAgent.tsx:39-111 | from the initial store every reachable history has the shape above, and without an error report the status is never error |

## Left out

- Rendering (lines 113-285), the other components and the page. These only display store
  fields. Only one fact from them is kept, and only in the class: the buttons exist only when
  speech is supported (`requires isSupported` on the two button handlers).
- The value-level model (`Step`, `Run`) accepts button clicks even when speech is not
  supported. So the lemmas over event sequences also range over clicks the unsupported
  screen prevents. They are safety properties, so they still hold for the sequences that
  can really occur.
- VoiceAgentShell.VoiceAgent.HandleMicClick: requires `isSupported`, because the button is
  rendered only when speech is supported (lines 113-125). The handler itself does not check it.
- VoiceAgentShell.VoiceAgent.HandleContinuousModeToggle: requires `isSupported`, for the same
  reason.
- VoiceAgentShell.VoiceAgent.Mount: requires that no engine exists yet. The effect has an
  empty dependency list and runs once.
- The engines (`lib/voiceEngine`, `lib/aiEngine`) are not part of this model. Support,
  `processCommand` and `speak` are outcome parameters. Re-arming in continuous mode, keyword
  responses and the engine's own status changes while it speaks are not modelled: they happen
  inside the engine and reach the shell as separate callback events.
- The store (`lib/store`) is not part of this model. Its setters are taken as plain
  assignments and `addCommand` as adding at the newest end, which line 246 shows. Its initial
  values are assumed to be idle, no error, an empty transcript and history, and continuous mode
  off.
- Platform detection (`lib/platform`) is not part of this model. The mount effect keeps only
  the device type, and the store's platform field is not modelled.
- `Date.now()` and `new Date()` are one clock reading `now`, used for both id and timestamp.
  The `cmd-` prefix and any uniqueness of ids are not claimed.
- The cleanup function of the mount effect (lines 85-88), which runs on unmount, is not
  modelled. Its `stopListening` and `cancelSpeech` calls are therefore not in the trace.
- Each event is handled to completion. No other event is delivered while the transcript
  callback awaits the generator or the speech engine, and callbacks before mount do nothing.
- The handlers read `status` and `continuousMode` from the last render. The model reads the
  current store values, which is the same once the component re-renders between events.
- Rounding the confidence for display (floating point) is left out.
