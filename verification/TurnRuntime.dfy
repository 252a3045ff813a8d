/** The turn runtime in its own form: stages that update a turn context, and the loop over them. */
module TurnRuntime {

  import opened Wrappers
  import opened Reasoning
  import opened Silence
  import opened ToolLoop
  import opened TurnStages

  class TurnContext {
    const w: World
    var state: State
    var notice: Option<string>
    var output: Option<string>
    var endAfterCommit: bool
    var silenced: bool
    var trace: seq<Step>
    var sends: nat

    constructor (w: World)
      ensures this.w == w && Contents() == NEW_TURN
    {
      this.w := w;
      state, notice, output := Created, None, None;
      endAfterCommit, silenced := false, false;
      trace, sends := [], 0;
    }

    ghost function Contents(): Turn
      reads this
    {
      Turn(state, notice, output, endAfterCommit, silenced, trace, sends)
    }

    /** The journaling sink: every event is numbered and recorded, then passed on. */
    method Emit(e: Event) returns (ok: bool)
      modifies `trace, `sends
      ensures Contents() == Emitted(old(Contents()), e)
      ensures ok == (old(sends) !in w.refused)
    {
      ok := sends !in w.refused;
      sends := sends + 1;
      trace := trace + [Send(e)];
    }

    method EmitAll(events: seq<Event>) returns (ok: bool)
      modifies `trace, `sends
      ensures (Contents(), ok) == SendAll(w, old(Contents()), events)
    {
      var i := 0;
      assert events[0..] == events;
      while i < |events|
        invariant 0 <= i <= |events|
        invariant SendAll(w, Contents(), events[i..]) == SendAll(w, old(Contents()), events)
        invariant state == old(state) && notice == old(notice) && output == old(output)
        invariant endAfterCommit == old(endAfterCommit) && silenced == old(silenced)
      {
        assert events[i..][1..] == events[i + 1..];
        var sent := Emit(events[i]);
        if !sent {
          return false;
        }
        i := i + 1;
      }
      ok := true;
    }

    method EmitDeltas(deltas: seq<string>) returns (streamed: bool)
      modifies `trace, `sends
      ensures Contents() == SendDeltas(old(Contents()), deltas)
      ensures streamed == (deltas != [])
    {
      streamed := false;
      var i := 0;
      assert deltas[0..] == deltas;
      while i < |deltas|
        invariant 0 <= i <= |deltas|
        invariant streamed == (i > 0)
        invariant SendDeltas(Contents(), deltas[i..]) == SendDeltas(old(Contents()), deltas)
      {
        assert deltas[i..][1..] == deltas[i + 1..];
        streamed := true;
        var _ := Emit(StreamDelta(deltas[i]));
        i := i + 1;
      }
    }

    method CommitOutput(content: string) returns (ok: bool)
      modifies `trace
      ensures (Contents(), ok) == Committed(w, old(Contents()), content)
    {
      if w.commit != NotSaved {
        trace := trace + [Store(content)];
      }
      ok := w.commit == Saved;
    }

    /** Store the user's message; a notice is stored with it. */
    method PrepareInput()
      modifies `trace
      ensures Contents() == Noticed(w, old(Contents()))
    {
      if w.prepared.notice.Some? {
        trace := trace + [Store(w.prepared.notice.value)];
      }
    }

    method AskModel(deferred: bool, callback: bool) returns (answer: Answer)
      modifies `trace, `sends
      ensures (Contents(), answer) == Converse(w, old(Contents()), deferred, callback)
    {
      var out := new Outbox(w.ports);
      var conversation := new Conversation(LoopConfig(w, callback), out);
      var result := conversation.SendTurn(w.script);
      var streamed := EmitDeltas(conversation.shown);
      if result.Err? {
        return Answer(Err(if result.error == ApprovalPending then Pending else EngineFailed), streamed, None);
      }
      if deferred {
        return Answer(Ok(result.value), streamed, Some(result.value));
      }
      var ok := CommitOutput(result.value);
      answer := Answer(if ok then Ok(result.value) else Err(EngineFailed), streamed, None);
    }

    method AskEngine(persist: bool, deferred: bool, callback: bool, prepared: Option<string>) returns (answer: Answer)
      modifies `trace, `sends
      ensures (Contents(), answer) == EngineTurn(w, old(Contents()), persist, deferred, callback, prepared)
    {
      hide Converse;
      var notice := prepared;
      if persist {
        PrepareInput();
        if !w.prepared.ok {
          return Answer(Err(EngineFailed), false, None);
        }
        notice := w.prepared.notice;
      }
      if notice.Some? {
        return Answer(Ok(notice.value), false, None);
      }
      if !w.ready {
        return Answer(Err(EngineFailed), false, None);
      }
      answer := AskModel(deferred, callback);
    }

    method RunMemoryPrepare() returns (r: StageResult)
      modifies `trace, `notice
      ensures (Contents(), r) == MemoryPrepareStage(w, old(Contents()))
    {
      if w.kind != ProactivePrompt {
        PrepareInput();
        if !w.prepared.ok {
          return Failing(Failed);
        }
        notice := w.prepared.notice;
      }
      r := NextStage(MemoryPrepared, []);
    }

    /** Send what has been held back, the segments if the reply is split, and the rest at the end. */
    method RunSpeak(answer: Answer) returns (r: StageResult)
      modifies `trace, `sends, `endAfterCommit
      ensures (Contents(), r) == Speak(w, old(Contents()), answer)
    {
      hide SendAll, Segments;
      if HoldsBack(w) {
        var begun := EmitAll([StreamStart]);
        if !begun {
          return Failing(Failed);
        }
      }
      var reply := if answer.result.Ok? then answer.result.value else "";
      var streamed := answer.streamed;
      if answer.result.Ok? && w.replyDelivery && reply != "" && |w.segments| > 1 {
        var delivered := EmitAll(Segments(w));
        if !delivered {
          return Failing(Failed);
        }
        streamed := true;
      }
      var outbound := [];
      if answer.result.Ok? && !streamed && reply != "" {
        outbound := [StreamDelta(reply)];
      }
      if answer.result.Ok? && w.memoryStages {
        endAfterCommit := true;
        return NextStage(Done, outbound);
      }
      outbound := outbound + [StreamEnd];
      if answer.result.Err? {
        return StageResult(ApprovalWait, false, true, false, outbound);
      }
      r := NextStage(Done, outbound);
    }

    method RunMessage() returns (r: StageResult)
      modifies `trace, `sends, `output, `endAfterCommit, `silenced
      ensures (Contents(), r) == MessageStage(w, old(Contents()))
    {
      hide SendAll, EngineTurn, Speak, IsProactiveSilence;
      if notice.Some? && notice.value != "" {
        return NextStage(Done, [StreamDelta(notice.value), StreamEnd]);
      }
      if !HoldsBack(w) {
        var begun := EmitAll([StreamStart]);
        if !begun {
          return Failing(Failed);
        }
      }
      var answer := AskEngine(!w.memoryStages, w.memoryStages, Listens(w), notice);
      if w.memoryStages {
        output := answer.output;
      }
      if answer.result == Err(EngineFailed) {
        return Failing(Failed);
      }
      if answer.result.Ok? && HoldsBack(w) && IsProactiveSilence(answer.result.value) {
        silenced, output, endAfterCommit := true, None, false;
        return StageResult(Done, true, false, false, []);
      }
      r := RunSpeak(answer);
    }

    method RunMemoryCommit() returns (r: StageResult)
      modifies `trace, `endAfterCommit
      ensures (Contents(), r) == MemoryCommitStage(w, old(Contents()))
    {
      var outbound: seq<Event> := [];
      if output.Some? && output.value != "" {
        var ok := CommitOutput(output.value);
        if !ok {
          return Failing(CommitFailedAfterOutput);
        }
      }
      if endAfterCommit {
        outbound := [StreamEnd];
        endAfterCommit := false;
      }
      r := NextStage(state, outbound);
    }

    method RunApprovalApply() returns (r: StageResult)
      modifies `notice, `output, `endAfterCommit
      ensures (Contents(), r) == ApprovalApplyStage(w, old(Contents()))
    {
      if !w.applied {
        return Failing(Failed);
      }
      notice, output, endAfterCommit := None, None, false;
      r := NextStage(RunningEmotion, [ApprovalUpdated]);
    }

    method RunResume() returns (r: StageResult)
      modifies `trace, `sends
      ensures (Contents(), r) == ResumeStage(w, old(Contents()))
    {
      hide SendAll, EngineTurn;
      var begun := EmitAll([StreamStart]);
      if !begun {
        return Failing(Failed);
      }
      var answer := AskEngine(false, false, true, None);
      if answer.result == Err(EngineFailed) {
        return Failing(Failed);
      }
      var outbound := [];
      if answer.result.Ok? && !answer.streamed && answer.result.value != "" {
        outbound := [StreamDelta(answer.result.value)];
      }
      outbound := outbound + [StreamEnd];
      if answer.result.Err? {
        return StageResult(ApprovalWait, false, true, false, outbound);
      }
      r := NextStage(Done, outbound);
    }

    method RunOneStage(stage: Stage) returns (r: StageResult)
      modifies this
      ensures (Contents(), r) == RunStage(w, old(Contents()), stage)
    {
      match stage
      case Normalize => r := if w.valid then NextStage(Normalizing, []) else Failing(Failed);
      case MemoryPrepare => r := RunMemoryPrepare();
      case EmotionPrepare => r := if notice.Some? || w.retrieved then NextStage(EmotionPrepared, []) else Failing(Failed);
      case Message => r := RunMessage();
      case MemoryCommit => r := RunMemoryCommit();
      case EmitApprovals =>
        match w.approvals {
          case None => r := StageResult(state, true, state == ApprovalWait, true, []);
          case Some(pending) => r := StageResult(state, true, state == ApprovalWait, false, ApprovalEvents(pending));
        }
      case ApprovalApply => r := RunApprovalApply();
      case Resume => r := RunResume();
    }

    /** Run one stage, move to its state and send its outbound events. */
    method PassOne(stage: Stage) returns (over: bool, failed: bool)
      modifies this
      ensures Passed(Contents(), over, failed) == Pass(w, old(Contents()), stage)
    {
      hide RunStage, SendAll;
      var r := RunOneStage(stage);
      state := r.next;
      failed := r.failed;
      var waits := r.waiting || state == ApprovalWait;
      var sent := EmitAll(r.outbound);
      if !sent && !failed {
        failed := true;
        waits := false;
        state := Failed;
      }
      if failed && !(r.terminal && waits) {
        if state == ApprovalWait {
          state := Failed;
        }
        return true, true;
      }
      return failed || r.terminal, false;
    }

    method Execute() returns (failed: bool)
      requires Contents() == NEW_TURN
      modifies this
      ensures (Contents(), failed) == RunTurn(w)
    {
      hide Pass;
      var stages := Stages(w);
      var i := 0;
      assert stages[0..] == stages;
      while i < |stages|
        invariant 0 <= i <= |stages|
        invariant RunStages(w, Contents(), stages[i..]) == RunTurn(w)
      {
        assert stages[i..][1..] == stages[i + 1..];
        var over, bad := PassOne(stages[i]);
        if over {
          return bad;
        }
        i := i + 1;
      }
      failed := false;
    }
  }
}
