/** What makes a turn fail, whatever else happens around it. */
module TurnFailures {

  import opened Wrappers
  import opened Silence
  import opened ToolLoop
  import opened TurnStages
  import opened TurnTheorems
  import opened TurnOutput
  import opened TurnSilence
  import opened TurnReply

  /** The turn asks the model for a reply: it is no message that is answered by a notice. */
  predicate AsksModel(w: World)
  {
    w.kind == ApprovalAction || w.prepared.notice.None? || (w.kind == ProactivePrompt && w.memoryStages)
  }

  /** The reply is stored, by the engine or by the commit stage; a declined or empty one may not be. */
  predicate MustStore(w: World, content: string)
  {
    !Defers(w) || (content != "" && !(HoldsBack(w) && OnlyMarkers(content)))
  }

  /** The message is not valid, or cannot be stored; or the model is asked and memory, engine or
      loop fail it, or its reply cannot be stored. */
  predicate Trouble(w: World)
  {
    || !w.valid
    || (w.kind == ApprovalAction && !w.applied)
    || (w.kind != ApprovalAction && !w.prepared.ok && !(w.kind == ProactivePrompt && w.memoryStages))
    || (AsksModel(w)
        && (|| !w.ready
            || (Defers(w) && !w.retrieved)
            || (match LoopResult(w, Passes(w))
                case Err(e) => e != ApprovalPending
                case Ok(content) => MustStore(w, content) && w.commit != Saved)))
  }

  lemma FailsThere(w: World, t: Turn, stage: Stage, rest: seq<Stage>)
    requires Pass(w, t, stage).failed || (!Pass(w, t, stage).over && RunStages(w, Pass(w, t, stage).turn, rest).1)
    ensures RunStages(w, t, [stage] + rest).1
  {
    hide Pass;
    assert ([stage] + rest)[1..] == rest;
    FailedEnds(w, t, stage);
  }

  lemma FailedEnds(w: World, t: Turn, stage: Stage)
    ensures Pass(w, t, stage).failed ==> Pass(w, t, stage).over
  {
    hide RunStage, SendAll;
  }

  lemma FailingPass(w: World, t: Turn, stage: Stage)
    requires var r := RunStage(w, t, stage).1; r.failed && r.next != ApprovalWait && !r.waiting
    ensures Pass(w, t, stage).failed
  {
    hide RunStage, SendAll;
  }

  // ---- the engine ----

  /** The engine gives no answer that the stage could go on with. */
  predicate NoAnswer(w: World)
  {
    || (w.kind != ApprovalAction && !w.memoryStages && !w.prepared.ok)
    || (AsksModel(w)
        && (|| !w.ready
            || (match LoopResult(w, Passes(w))
                case Err(e) => e != ApprovalPending
                case Ok(_) => !Defers(w) && w.commit != Saved)))
  }

  lemma NoAnswerFails(w: World, t: Turn)
    requires NoAnswer(w) && t.notice.None?
    ensures var persist := !w.memoryStages && w.kind != ApprovalAction;
            EngineTurn(w, t, persist, Defers(w), Passes(w), None).1.result == Err(EngineFailed)
  {
    hide LoopShown, LoopResult, SendDeltas;
  }

  lemma MessageFails(w: World, t: Turn)
    requires w.kind != ApprovalAction && NoAnswer(w) && t.notice.None?
    ensures Pass(w, t, Message).failed
  {
    hide EngineTurn, Speak, SendAll, NoAnswer, Pass, IsProactiveSilence;
    SendAllAdds(w, t, [StreamStart]);
    NoAnswerFails(w, Begun(w, t).0);
    FailingPass(w, t, Message);
  }

  lemma ResumeFails(w: World, t: Turn)
    requires w.kind == ApprovalAction && NoAnswer(w) && t.notice.None?
    ensures Pass(w, t, Resume).failed
  {
    hide EngineTurn, SendAll, NoAnswer, Pass;
    SendAllAdds(w, t, [StreamStart]);
    NoAnswerFails(w, SendAll(w, t, [StreamStart]).0);
    FailingPass(w, t, Resume);
  }

  // ---- a reply that the commit stage cannot store ----

  /** The message stage fails, or leaves the reply to the commit stage. */
  lemma ReplyIsLeft(w: World, t: Turn, content: string)
    requires Defers(w) && t.notice.None? && AsksModel(w) && LoopResult(w, Passes(w)) == Ok(content)
    requires !(HoldsBack(w) && OnlyMarkers(content))
    ensures var p := Pass(w, t, Message); if p.over then p.failed else p.turn.output == Some(content)
  {
    hide EngineTurn, Speak, SendAll, IsProactiveSilence, OnlyMarkers, LoopResult;
    SilenceIff(content);
    SendAllAdds(w, t, [StreamStart]);
    var (t1, begun) := Begun(w, t);
    EngineDefers(w, t1, content);
    var (t2, answer) := Asked(w, t1);
    SpeakKeeps(w, t2, answer);
    var (t3, r) := MessageStage(w, t);
    SendAllAdds(w, t3.(state := r.next), r.outbound);
  }

  lemma EngineDefers(w: World, t: Turn, content: string)
    requires Defers(w) && LoopResult(w, Passes(w)) == Ok(content)
    ensures var answer := EngineTurn(w, t, false, true, Passes(w), None).1;
            answer.result == Err(EngineFailed) || (answer.result == Ok(content) && answer.output == Some(content))
  {
    hide LoopResult, LoopShown, SendDeltas;
  }

  lemma SpeakKeeps(w: World, t: Turn, answer: Answer)
    ensures var (t1, r) := Speak(w, t, answer);
            && t1.output == t.output
            && (if r.failed then r == Failing(Failed) else !r.terminal)
  {
    SendAllAdds(w, t, [StreamStart]);
    var (t1, _) := if HoldsBack(w) then SendAll(w, t, [StreamStart]) else (t, true);
    SendAllAdds(w, t1, Segments(w));
    hide SendAll, Segments;
  }

  lemma CommitFails(w: World, t: Turn)
    requires t.output.Some? && t.output.value != "" && w.commit != Saved
    ensures Pass(w, t, MemoryCommit).failed
  {
    hide Pass;
    FailingPass(w, t, MemoryCommit);
  }

  lemma ReplyIsNotStored(w: World, t: Turn, rest: seq<Stage>)
    requires Defers(w) && t.notice.None? && AsksModel(w) && LoopResult(w, Passes(w)).Ok?
    requires MustStore(w, LoopResult(w, Passes(w)).value) && w.commit != Saved
    ensures RunStages(w, t, [Message] + ([MemoryCommit] + rest)).1
  {
    hide Pass, RunStages, LoopResult, HoldsBack, OnlyMarkers;
    var p := Pass(w, t, Message);
    ReplyIsLeft(w, t, LoopResult(w, Passes(w)).value);
    FailedEnds(w, t, Message);
    if !p.over {
      CommitFails(w, p.turn);
      FailsThere(w, p.turn, MemoryCommit, rest);
    }
    FailsThere(w, t, Message, [MemoryCommit] + rest);
  }

  // ---- the stages before ----

  /** An early stage fails the turn, or hands it on with a notice only if there is one to show. */
  lemma EarlyGoesOn(w: World, t: Turn, stage: Stage)
    requires stage in {Normalize, MemoryPrepare, EmotionPrepare, ApprovalApply} && t.notice.None?
    ensures var p := Pass(w, t, stage);
            && p.over == p.failed
            && ((w.kind != ApprovalAction && AsksModel(w)) || stage != MemoryPrepare ==> p.turn.notice.None?)
  {
    hide SendAll;
    var (t1, r) := RunStage(w, t, stage);
    SendAllAdds(w, t1.(state := r.next), r.outbound);
    FailedEnds(w, t, stage);
  }

  lemma TroubleFromMessage(w: World, t: Turn, rest: seq<Stage>)
    requires w.kind != ApprovalAction && t.notice.None? && Trouble(w)
    requires w.valid && (w.memoryStages ==> AsksModel(w) && w.retrieved && (w.kind == UserMessage ==> w.prepared.ok))
    ensures RunStages(w, t, [Message] + (if w.memoryStages then [MemoryCommit] + rest else rest)).1
  {
    hide Pass, RunStages, LoopResult, HoldsBack, OnlyMarkers;
    var later := if w.memoryStages then [MemoryCommit] + rest else rest;
    if NoAnswer(w) {
      MessageFails(w, t);
      FailsThere(w, t, Message, later);
    } else {
      ReplyIsNotStored(w, t, rest);
      assert later == [MemoryCommit] + rest;
    }
  }

  lemma TroubleWithMemory(w: World, t: Turn, rest: seq<Stage>)
    requires w.kind != ApprovalAction && w.memoryStages && t.notice.None? && Trouble(w) && w.valid
    ensures RunStages(w, t, [MemoryPrepare] + ([EmotionPrepare] + ([Message] + ([MemoryCommit] + rest)))).1
  {
    hide Pass, RunStages, LoopResult, HoldsBack, OnlyMarkers;
    var late := [Message] + ([MemoryCommit] + rest);
    var p := Pass(w, t, MemoryPrepare);
    EarlyGoesOn(w, t, MemoryPrepare);
    if w.kind == UserMessage && !w.prepared.ok {
      FailingPass(w, t, MemoryPrepare) by { UnpreparedFails(w, t); }
    }
    if !p.failed {
      var p2 := Pass(w, p.turn, EmotionPrepare);
      EarlyGoesOn(w, p.turn, EmotionPrepare);
      if !w.retrieved {
        FailingPass(w, p.turn, EmotionPrepare) by { UnretrievedFails(w, p.turn); }
      }
      if !p2.failed {
        TroubleFromMessage(w, p2.turn, rest);
      }
      FailsThere(w, p.turn, EmotionPrepare, late);
    }
    FailsThere(w, t, MemoryPrepare, [EmotionPrepare] + late);
  }

  lemma UnpreparedFails(w: World, t: Turn)
    requires w.kind == UserMessage && !w.prepared.ok
    ensures RunStage(w, t, MemoryPrepare).1 == Failing(Failed)
  {}

  lemma UnretrievedFails(w: World, t: Turn)
    requires !w.retrieved && t.notice.None?
    ensures RunStage(w, t, EmotionPrepare).1 == Failing(Failed)
  {}

  lemma InvalidFails(w: World, t: Turn, rest: seq<Stage>)
    requires !w.valid
    ensures RunStages(w, t, [Normalize] + rest).1
  {
    hide Pass, RunStages;
    FailingPass(w, t, Normalize) by { assert RunStage(w, t, Normalize).1 == Failing(Failed); }
    FailsThere(w, t, Normalize, rest);
  }

  lemma TroubleOfApproval(w: World, t: Turn, rest: seq<Stage>)
    requires w.kind == ApprovalAction && w.valid && Trouble(w) && t.notice.None?
    ensures RunStages(w, t, [ApprovalApply] + ([Resume] + rest)).1
  {
    hide Pass, RunStages, LoopResult, HoldsBack, OnlyMarkers;
    EarlyGoesOn(w, t, ApprovalApply);
    var p := Pass(w, t, ApprovalApply);
    if !w.applied {
      FailingPass(w, t, ApprovalApply) by { assert RunStage(w, t, ApprovalApply).1 == Failing(Failed); }
    }
    if !p.failed {
      ResumeFails(w, p.turn);
      FailsThere(w, p.turn, Resume, rest);
    }
    FailsThere(w, t, ApprovalApply, [Resume] + rest);
  }

  /** Trouble makes a turn fail, whatever the connection accepts. */
  lemma TroubleFails(w: World)
    requires Trouble(w)
    ensures RunTurn(w).1
  {
    hide Pass, RunStages, Trouble;
    var rest := if w.kind == ProactivePrompt then [] else [EmitApprovals];
    var later := if w.kind == ApprovalAction then [ApprovalApply] + ([Resume] + rest)
                 else if w.memoryStages then [MemoryPrepare] + ([EmotionPrepare] + ([Message] + ([MemoryCommit] + rest)))
                 else [Message] + rest;
    assert Stages(w) == [Normalize] + later;
    if !w.valid {
      InvalidFails(w, NEW_TURN, later);
    } else {
      EarlyGoesOn(w, NEW_TURN, Normalize);
      var p := Pass(w, NEW_TURN, Normalize);
      if !p.failed {
        if w.kind == ApprovalAction {
          TroubleOfApproval(w, p.turn, rest);
        } else if w.memoryStages {
          TroubleWithMemory(w, p.turn, rest);
        } else {
          TroubleFromMessage(w, p.turn, rest);
        }
      }
      FailsThere(w, NEW_TURN, Normalize, later);
    }
  }
}
