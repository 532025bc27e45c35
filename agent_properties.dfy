/** What the shell's handlers guarantee, one event at a time and over any sequence of events. */
module AgentProperties {
  import opened AgentModel

  lemma {:induction false} OccurrencesAppend(a: seq<Call>, b: seq<Call>, c: Call)
    ensures Occurrences(a + b, c) == Occurrences(a, c) + Occurrences(b, c)
  {
    if a == [] {
      assert a + b == b;
    } else {
      assert (a + b)[1..] == a[1..] + b;
      OccurrencesAppend(a[1..], b, c);
    }
  }

  /** Extending a trace by one call adds one occurrence of that call and none of any other. */
  lemma OccurrencesAfterCall(a: seq<Call>, x: Call, c: Call)
    ensures Occurrences(a + [x], c) == Occurrences(a, c) + (if x == c then 1 else 0)
  {
    OccurrencesAppend(a, [x], c);
  }

  // ---------------------------------------------------------------------------------------
  // The microphone button

  /** While listening or processing, a click stops listening exactly once, never cancels
      speech, and returns to idle; nothing else changes. */
  lemma MicClickWhileCapturing(s: State)
    requires s.session.Some?
    requires s.status == Listening || s.status == Processing
    ensures var r := MicClickStep(s);
      r.status == Idle &&
      r.calls == s.calls + [StopListening] &&
      Occurrences(r.calls, StopListening) == Occurrences(s.calls, StopListening) + 1 &&
      Occurrences(r.calls, CancelSpeech) == Occurrences(s.calls, CancelSpeech) &&
      Occurrences(r.calls, StartListening) == Occurrences(s.calls, StartListening) &&
      r.(status := s.status, calls := s.calls) == s
  {
    var r := MicClickStep(s);
    OccurrencesAfterCall(s.calls, StopListening, StopListening);
    OccurrencesAfterCall(s.calls, StopListening, CancelSpeech);
    OccurrencesAfterCall(s.calls, StopListening, StartListening);
  }

  /** While speaking, a click cancels speech exactly once, never stops listening, and
      returns to idle; nothing else changes. */
  lemma MicClickWhileSpeaking(s: State)
    requires s.session.Some? && s.status == Speaking
    ensures var r := MicClickStep(s);
      r.status == Idle &&
      r.calls == s.calls + [CancelSpeech] &&
      Occurrences(r.calls, CancelSpeech) == Occurrences(s.calls, CancelSpeech) + 1 &&
      Occurrences(r.calls, StopListening) == Occurrences(s.calls, StopListening) &&
      Occurrences(r.calls, StartListening) == Occurrences(s.calls, StartListening) &&
      r.(status := s.status, calls := s.calls) == s
  {
    OccurrencesAfterCall(s.calls, CancelSpeech, CancelSpeech);
    OccurrencesAfterCall(s.calls, CancelSpeech, StopListening);
    OccurrencesAfterCall(s.calls, CancelSpeech, StartListening);
  }

  /** At rest (idle, or error as reported by the engine), a click clears the error message
      and asks the engine to start listening once; the status itself is left for the
      engine's status callback to change. */
  lemma MicClickAtRest(s: State)
    requires s.session.Some? && (s.status == Idle || s.status == Error)
    ensures var r := MicClickStep(s);
      r.status == s.status &&
      r.errorMessage == None &&
      r.calls == s.calls + [StartListening] &&
      Occurrences(r.calls, StartListening) == Occurrences(s.calls, StartListening) + 1 &&
      Occurrences(r.calls, StopListening) == Occurrences(s.calls, StopListening) &&
      Occurrences(r.calls, CancelSpeech) == Occurrences(s.calls, CancelSpeech) &&
      r.(errorMessage := s.errorMessage, calls := s.calls) == s
  {
    OccurrencesAfterCall(s.calls, StartListening, StartListening);
    OccurrencesAfterCall(s.calls, StartListening, StopListening);
    OccurrencesAfterCall(s.calls, StartListening, CancelSpeech);
  }

  // ---------------------------------------------------------------------------------------
  // The continuous-mode button

  /** A toggle negates the flag and passes the new value to the engine; toggling twice
      restores the flag, having told the engine the negated value and then the original. */
  lemma ToggleInvolution(s: State)
    requires s.session.Some?
    ensures var once := ToggleStep(s);
      once.continuousMode == !s.continuousMode &&
      once.calls == s.calls + [EnableContinuousMode(once.continuousMode)]
    ensures var twice := ToggleStep(ToggleStep(s));
      twice.continuousMode == s.continuousMode &&
      twice.calls == s.calls + [EnableContinuousMode(!s.continuousMode),
                                EnableContinuousMode(s.continuousMode)] &&
      twice.(calls := s.calls) == s
  {
  }

  // ---------------------------------------------------------------------------------------
  // The engine's status and error callbacks

  /** The status callback installs exactly the reported status and always clears the error
      message, without calling any collaborator. */
  lemma StatusReportReplaces(s: State, reported: Status)
    requires s.session.Some?
    ensures var r := StatusChangeStep(s, reported);
      r.status == reported && r.errorMessage == None &&
      r.(status := s.status, errorMessage := s.errorMessage) == s
  {
  }

  /** The error callback shows the reported text and forces idle whatever the prior status;
      it never sets the error status, leaves the history alone and calls nothing. */
  lemma ErrorReportForcesIdle(s: State, message: string)
    requires s.session.Some?
    ensures var r := ErrorStep(s, message);
      r.errorMessage == Some(message) && r.status == Idle && r.status != Error &&
      r.commands == s.commands && r.calls == s.calls &&
      r.(errorMessage := s.errorMessage, status := s.status) == s
  {
  }

  // ---------------------------------------------------------------------------------------
  // The final-transcript callback

  /** Whatever the outcome, a final transcript clears the live transcript, leaves the status
      at processing, asks the response generator first (with the transcript and the device
      type captured at mount) and records a newest entry carrying the transcript, the
      confidence and the clock reading unchanged. */
  lemma TranscriptStartsProcessing(s: State, transcript: string, confidence: real, now: nat,
                                   reply: Outcome<string>, spoken: Outcome<()>)
    requires s.session.Some?
    ensures var r := TranscriptStep(s, transcript, confidence, now, reply, spoken);
      r.currentTranscript == "" && r.status == Processing &&
      |s.calls| < |r.calls| && r.calls[..|s.calls|] == s.calls &&
      r.calls[|s.calls|] == ProcessCommand(transcript, s.session.value.deviceType) &&
      |s.commands| < |r.commands| &&
      r.commands[0].transcript == transcript && r.commands[0].confidence == confidence &&
      r.commands[0].id == now && r.commands[0].timestamp == now &&
      r.continuousMode == s.continuousMode && r.session == s.session
  {
  }

  /** A reply that is spoken without rejection adds exactly one entry, with the response and
      no error, speaks that same response once, and leaves the error message as it was. */
  lemma ReplySpokenRecordsOnce(s: State, transcript: string, confidence: real, now: nat,
                               response: string)
    requires s.session.Some?
    ensures var r := TranscriptStep(s, transcript, confidence, now, Resolved(response), Resolved(()));
      |r.commands| == |s.commands| + 1 && r.commands[1..] == s.commands &&
      r.commands[0].response == Some(response) && r.commands[0].error == None &&
      r.calls == s.calls + [ProcessCommand(transcript, s.session.value.deviceType), Speak(response)] &&
      Occurrences(r.calls, Speak(response)) == Occurrences(s.calls, Speak(response)) + 1 &&
      r.errorMessage == s.errorMessage
  {
    var r := TranscriptStep(s, transcript, confidence, now, Resolved(response), Resolved(()));
    var asked := ProcessCommand(transcript, s.session.value.deviceType);
    assert r.calls == (s.calls + [asked]) + [Speak(response)];
    OccurrencesAfterCall(s.calls, asked, Speak(response));
    OccurrencesAfterCall(s.calls + [asked], Speak(response), Speak(response));
  }

  /** A rejected reply adds exactly one entry, with the failure text as error and no
      response, shows the same text as the error message, speaks nothing, and leaves the
      status at processing. The failure text is the Error's message, or "Unknown error". */
  lemma ReplyRejectedRecordsFailure(s: State, transcript: string, confidence: real, now: nat,
                                    thrown: Thrown, spoken: Outcome<()>)
    requires s.session.Some?
    ensures var r := TranscriptStep(s, transcript, confidence, now, Rejected(thrown), spoken);
      |r.commands| == |s.commands| + 1 && r.commands[1..] == s.commands &&
      r.commands[0].response == None && r.commands[0].error.Some? &&
      r.errorMessage == r.commands[0].error &&
      (thrown.ErrorObject? ==> r.errorMessage == Some(thrown.message)) &&
      (thrown.OtherValue? ==> r.errorMessage == Some("Unknown error")) &&
      r.calls == s.calls + [ProcessCommand(transcript, s.session.value.deviceType)] &&
      r.status == Processing
  {
  }

  /** A reply whose speech call rejects adds the same entry twice, carrying both the
      response and the failure text, and shows that text as the error message. */
  lemma SpeechRejectedRecordsTwice(s: State, transcript: string, confidence: real, now: nat,
                                   response: string, thrown: Thrown)
    requires s.session.Some?
    ensures var r := TranscriptStep(s, transcript, confidence, now, Resolved(response), Rejected(thrown));
      |r.commands| == |s.commands| + 2 && r.commands[2..] == s.commands &&
      r.commands[0] == r.commands[1] &&
      r.commands[0].response == Some(response) &&
      r.commands[0].error == Some(FailureText(thrown)) &&
      r.errorMessage == Some(FailureText(thrown)) &&
      r.calls == s.calls + [ProcessCommand(transcript, s.session.value.deviceType), Speak(response)]
  {
  }

  // ---------------------------------------------------------------------------------------
  // Any sequence of events

  /** Before the mount effect has run, no event but the mount itself changes anything. */
  lemma {:induction false} RunBeforeMount(s: State, evs: seq<Event>)
    requires s.session.None?
    requires forall i :: 0 <= i < |evs| ==> !evs[i].Mounted?
    ensures Run(s, evs) == s
    decreases |evs|
  {
    if evs != [] {
      assert Step(s, evs[0]) == s;
      RunBeforeMount(s, evs[1..]);
    }
  }

  /** `r` still holds all of `s`'s history as its oldest entries and all of `s`'s trace as
      its first calls. */
  predicate KeepsPast(s: State, r: State) {
    |s.commands| <= |r.commands| && r.commands[|r.commands| - |s.commands|..] == s.commands &&
    |s.calls| <= |r.calls| && r.calls[..|s.calls|] == s.calls
  }

  lemma PrefixedBy(s: State, r: State, added: seq<Command>, made: seq<Call>)
    requires r.commands == added + s.commands && r.calls == s.calls + made
    ensures KeepsPast(s, r)
  {
    assert (added + s.commands)[|added|..] == s.commands;
    assert (s.calls + made)[..|s.calls|] == s.calls;
  }

  lemma StepKeepsPast(s: State, e: Event)
    ensures KeepsPast(s, Step(s, e))
  {
    if s.session.None? {
      PrefixedBy(s, Step(s, e), [], []);
    } else {
      match e
      case MicClicked =>
        var made := if s.status == Listening || s.status == Processing then StopListening
                    else if s.status == Speaking then CancelSpeech
                    else StartListening;
        PrefixedBy(s, Step(s, e), [], [made]);
      case ContinuousModeToggled =>
        PrefixedBy(s, Step(s, e), [], [EnableContinuousMode(!s.continuousMode)]);
      case TranscriptFinal(transcript, confidence, now, reply, spoken) =>
        PrefixedBy(s, Step(s, e),
                   EntriesRecorded(Command(now, transcript, now, confidence, None, None), reply, spoken),
                   CallsMade(transcript, s.session.value.deviceType, reply));
      case _ =>
        PrefixedBy(s, Step(s, e), [], []);
    }
  }

  /** The history only grows at its newest end and the trace only grows at its end: what was
      recorded earlier stays, unchanged and in order. */
  lemma {:induction false} RunKeepsPast(s: State, evs: seq<Event>)
    ensures KeepsPast(s, Run(s, evs))
    decreases |evs|
  {
    if evs != [] {
      var t := Step(s, evs[0]);
      StepKeepsPast(s, evs[0]);
      RunKeepsPast(t, evs[1..]);
      var r := Run(t, evs[1..]);
      assert r.commands[|r.commands| - |s.commands|..] == r.commands[|r.commands| - |t.commands|..][|t.commands| - |s.commands|..];
      assert r.calls[..|s.calls|] == r.calls[..|t.calls|][..|s.calls|];
    }
  }

  /** The shell never sets the error status itself: from a status other than error, the
      status can become error only through the engine reporting it. */
  lemma {:induction false} RunErrorOnlyReported(s: State, evs: seq<Event>)
    requires s.status != Error
    requires forall i :: 0 <= i < |evs| ==> evs[i] != StatusReported(Error)
    ensures Run(s, evs).status != Error
    decreases |evs|
  {
    if evs != [] {
      assert evs[0] != StatusReported(Error);
      RunErrorOnlyReported(Step(s, evs[0]), evs[1..]);
    }
  }

  /** Adding one entry that records exactly one outcome keeps the shape. */
  lemma PrependSingle(cs: seq<Command>, c: Command)
    requires HistoryShape(cs)
    requires c.response.Some? != c.error.Some?
    ensures HistoryShape([c] + cs)
  {
    var rs := [c] + cs;
    forall i | 0 <= i < |rs| && RecordsBoth(rs[i])
      ensures BesideEqual(rs, i)
    {
      if 0 < i {
        var j := i - 1;
        assert rs[i] == cs[j];
        assert BesideEqual(cs, j);
        if j + 1 < |cs| && cs[j + 1] == cs[j] {
          assert rs[i + 1] == cs[j + 1];
        } else {
          assert rs[i - 1] == cs[j - 1];
        }
      }
    }
  }

  /** Adding the same entry twice keeps the shape, whatever outcome it records. */
  lemma PrependPair(cs: seq<Command>, c: Command)
    requires HistoryShape(cs)
    requires c.response.Some? || c.error.Some?
    ensures HistoryShape([c, c] + cs)
  {
    var rs := [c, c] + cs;
    forall i | 0 <= i < |rs| && RecordsBoth(rs[i])
      ensures BesideEqual(rs, i)
    {
      if 2 <= i {
        var j := i - 2;
        assert rs[i] == cs[j];
        assert BesideEqual(cs, j);
        if j + 1 < |cs| && cs[j + 1] == cs[j] {
          assert rs[i + 1] == cs[j + 1];
        } else {
          assert rs[i - 1] == cs[j - 1];
        }
      }
    }
  }

  lemma StepHistoryShape(s: State, e: Event)
    requires HistoryShape(s.commands)
    ensures HistoryShape(Step(s, e).commands)
  {
    var r := Step(s, e);
    if e.TranscriptFinal? && s.session.Some? {
      if e.reply.Resolved? && e.spoken.Rejected? {
        PrependPair(s.commands, r.commands[0]);
      } else {
        PrependSingle(s.commands, r.commands[0]);
      }
    }
  }

  /** Every entry in the history records an outcome, and an entry carries both a response
      and an error only beside an equal entry: the pair the speech-rejection path adds. */
  lemma {:induction false} RunHistoryShape(s: State, evs: seq<Event>)
    requires HistoryShape(s.commands)
    ensures HistoryShape(Run(s, evs).commands)
    decreases |evs|
  {
    if evs != [] {
      StepHistoryShape(s, evs[0]);
      RunHistoryShape(Step(s, evs[0]), evs[1..]);
    }
  }

  /** Once mounted, each final transcript adds one entry, or two when its reply was
      produced and the speech call rejected; no other event adds or removes any. */
  lemma {:induction false} RunEntryCount(s: State, evs: seq<Event>)
    requires s.session.Some?
    ensures |Run(s, evs).commands| == |s.commands| + EntriesAddedBy(evs)
    decreases |evs|
  {
    if evs != [] {
      RunEntryCount(Step(s, evs[0]), evs[1..]);
    }
  }

  /** Once mounted, the continuous-mode flag is the original one flipped once per toggle. */
  lemma {:induction false} RunContinuousParity(s: State, evs: seq<Event>)
    requires s.session.Some?
    ensures Run(s, evs).continuousMode ==
            (if TogglesIn(evs) % 2 == 0 then s.continuousMode else !s.continuousMode)
    decreases |evs|
  {
    if evs != [] {
      RunContinuousParity(Step(s, evs[0]), evs[1..]);
    }
  }

  lemma StepStartsOnlyOnClick(s: State, e: Event)
    ensures Occurrences(Step(s, e).calls, StartListening) <=
            Occurrences(s.calls, StartListening) + (if e == MicClicked then 1 else 0)
  {
    if s.session.Some? {
      match e
      case MicClicked =>
        var made := if s.status == Listening || s.status == Processing then StopListening
                    else if s.status == Speaking then CancelSpeech
                    else StartListening;
        OccurrencesAfterCall(s.calls, made, StartListening);
      case ContinuousModeToggled =>
        OccurrencesAfterCall(s.calls, EnableContinuousMode(!s.continuousMode), StartListening);
      case TranscriptFinal(transcript, _, _, reply, _) =>
        var asked := ProcessCommand(transcript, s.session.value.deviceType);
        OccurrencesAfterCall(s.calls, asked, StartListening);
        if reply.Resolved? {
          OccurrencesAfterCall(s.calls + [asked], Speak(reply.value), StartListening);
          assert s.calls + CallsMade(transcript, s.session.value.deviceType, reply) ==
                 (s.calls + [asked]) + [Speak(reply.value)];
        }
      case _ =>
    }
  }

  /** The shell asks the engine to start listening only on a microphone click: re-arming in
      continuous mode is the engine's own business. */
  lemma {:induction false} RunStartsOnlyOnClick(s: State, evs: seq<Event>)
    ensures Occurrences(Run(s, evs).calls, StartListening) <=
            Occurrences(s.calls, StartListening) + ClicksIn(evs)
    decreases |evs|
  {
    if evs != [] {
      StepStartsOnlyOnClick(s, evs[0]);
      RunStartsOnlyOnClick(Step(s, evs[0]), evs[1..]);
    }
  }

  /** From the store's initial state, every reachable history has the shape above, and the
      error status is only ever the engine's report. */
  lemma ReachableStates(supported: bool, evs: seq<Event>)
    ensures HistoryShape(Run(Initial(supported), evs).commands)
    ensures (forall i :: 0 <= i < |evs| ==> evs[i] != StatusReported(Error)) ==>
            Run(Initial(supported), evs).status != Error
  {
    RunHistoryShape(Initial(supported), evs);
    if forall i :: 0 <= i < |evs| ==> evs[i] != StatusReported(Error) {
      RunErrorOnlyReported(Initial(supported), evs);
    }
  }
}
