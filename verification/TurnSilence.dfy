/** A proactive turn that declines to speak. */
module TurnSilence {

  import opened Wrappers
  import opened Silence
  import opened ToolLoop
  import opened TurnStages
  import opened TurnTheorems
  import opened TurnOutput

  /** What a proactive turn that holds its output back has to say, if it gets that far. */
  function Held(w: World): Option<string>
  {
    if !w.memoryStages && !w.prepared.ok then None
    else if !w.memoryStages && w.prepared.notice.Some? then w.prepared.notice
    else if !w.ready || LoopResult(w, false).Err? || (!w.memoryStages && w.commit != Saved) then None
    else Some(LoopResult(w, false).value)
  }

  lemma NothingShown(w: World)
    ensures LoopShown(w, false) == []
  {}

  lemma EngineHeldBack(w: World, t: Turn)
    requires t.trace == [] && t.notice.None?
    ensures var (t1, answer) := EngineTurn(w, t, !w.memoryStages, w.memoryStages, false, t.notice);
            && SameTurn(t, t1)
            && (answer.result.Ok? <==> Held(w).Some?)
            && (answer.result.Ok? ==> Held(w).value == answer.result.value
                                      && t1.trace == if w.memoryStages then [] else [Store(answer.result.value)])
  {
    hide Converse, LoopShown, LoopResult;
    NothingShown(w);
    var t1 := if !w.memoryStages then Noticed(w, t) else t;
    ConverseAdds(w, t1, w.memoryStages, false);
    ConverseAnswers(w, t1, w.memoryStages, false);
    assert DeltaSteps([]) == [];
  }

  lemma ConverseAnswers(w: World, t: Turn, defer: bool, callback: bool)
    ensures Converse(w, t, defer, callback).1.result.Ok? <==> LoopResult(w, callback).Ok? && (defer || w.commit == Saved)
  {}

  lemma HeldBackMessage(w: World, t: Turn)
    requires HoldsBack(w) && t.trace == [] && t.notice.None? && t.output.None? && !t.endAfterCommit && !t.silenced
    ensures var (t1, r) := MessageStage(w, t);
            && (t1.silenced <==> Held(w).Some? && IsProactiveSilence(Held(w).value))
            && (t1.silenced ==> r == StageResult(Done, true, false, false, [])
                                && t1.output.None? && !t1.endAfterCommit
                                && t1.trace == if w.memoryStages then [] else [Store(Held(w).value)])
  {
    hide EngineTurn, IsProactiveSilence, Speak, Held;
    EngineHeldBack(w, t);
    var (t2, answer) := Asked(w, t);
    SpeakNotSilent(w, t2, answer);
  }

  lemma SpeakNotSilent(w: World, t: Turn, answer: Answer)
    ensures Speak(w, t, answer).0.silenced == t.silenced
  {
    SendAllAdds(w, t, [StreamStart]);
    var (t1, _) := if HoldsBack(w) then SendAll(w, t, [StreamStart]) else (t, true);
    SendAllAdds(w, t1, Segments(w));
  }

  /** Only the message stage can silence a turn. */
  lemma OthersNotSilent(w: World, t: Turn, stage: Stage)
    requires stage != Message
    ensures Pass(w, t, stage).turn.silenced == t.silenced
  {
    hide SendAll, EngineTurn;
    SendAllAdds(w, t, [StreamStart]);
    var (t0, _) := SendAll(w, t, [StreamStart]);
    EngineSame(w, t0, false, false, true, None);
    var (t1, r) := RunStage(w, t, stage);
    SendAllAdds(w, t1.(state := r.next), r.outbound);
  }

  lemma EngineSame(w: World, t: Turn, persist: bool, defer: bool, callback: bool, prepared: Option<string>)
    ensures SameTurn(t, EngineTurn(w, t, persist, defer, callback, prepared).0)
  {
    var t1 := if persist then Noticed(w, t) else t;
    ConverseAdds(w, t1, defer, callback);
  }

  lemma SpokenNotSilent(w: World, t: Turn)
    requires !HoldsBack(w)
    ensures MessageStage(w, t).0.silenced == t.silenced
  {
    hide EngineTurn, Speak;
    SendAllAdds(w, t, [StreamStart]);
    var (t1, begun) := Begun(w, t);
    EngineSame(w, t1, !w.memoryStages, w.memoryStages, Listens(w), t1.notice);
    var (t2, answer) := Asked(w, t1);
    SpeakNotSilent(w, t2, answer);
  }

  lemma PassSilenced(w: World, t: Turn)
    ensures Pass(w, t, Message).turn.silenced == MessageStage(w, t).0.silenced
    ensures MessageStage(w, t).1 == StageResult(Done, true, false, false, [])
            ==> Pass(w, t, Message) == Passed(MessageStage(w, t).0.(state := Done), true, false)
  {
    hide MessageStage, SendAll;
    var (t1, r) := MessageStage(w, t);
    SendAllAdds(w, t1.(state := r.next), r.outbound);
    SendNothing(w, t1.(state := r.next));
  }

  lemma {:induction false} NeverSilenced(w: World, t: Turn, stages: seq<Stage>)
    requires !t.silenced && (HoldsBack(w) ==> Message !in stages)
    ensures !RunStages(w, t, stages).0.silenced
    decreases |stages|
  {
    if stages != [] {
      assert stages == [stages[0]] + stages[1..];
      if stages[0] == Message {
        PassSilenced(w, t);
        SpokenNotSilent(w, t);
      } else {
        OthersNotSilent(w, t, stages[0]);
      }
      if !Pass(w, t, stages[0]).over {
        NeverSilenced(w, Pass(w, t, stages[0]).turn, stages[1..]);
      }
    }
  }

  /** The turn as it reaches the message stage, if it does. */
  function Opened(w: World): Option<Turn>
  {
    if !w.valid || (w.memoryStages && !w.retrieved) then None
    else Some(NEW_TURN.(state := if w.memoryStages then EmotionPrepared else Normalizing))
  }

  lemma QuietPass(w: World, t: Turn, stage: Stage)
    requires w.kind == ProactivePrompt && t.notice.None?
    requires stage in {Normalize, MemoryPrepare, EmotionPrepare}
    ensures var p := Pass(w, t, stage);
            var fine := if stage == Normalize then w.valid else stage == EmotionPrepare ==> w.retrieved;
            if fine then
              p == Passed(t.(state := match stage case Normalize => Normalizing
                                                  case MemoryPrepare => MemoryPrepared
                                                  case _ => EmotionPrepared), false, false)
            else p.over && p.turn.silenced == t.silenced
  {}

  lemma RunOn(w: World, t: Turn, stage: Stage, rest: seq<Stage>)
    ensures RunStages(w, t, [stage] + rest)
            == if Pass(w, t, stage).over then (Pass(w, t, stage).turn, Pass(w, t, stage).failed)
               else RunStages(w, Pass(w, t, stage).turn, rest)
  {
    assert ([stage] + rest)[1..] == rest;
  }

  lemma ProactiveOpens(w: World)
    requires w.kind == ProactivePrompt
    ensures match Opened(w)
            case None => !RunTurn(w).0.silenced
            case Some(t) => RunTurn(w) == RunStages(w, t, if w.memoryStages then [Message, MemoryCommit] else [Message])
  {
    hide Pass, RunStages;
    var t1, t2 := NEW_TURN.(state := Normalizing), NEW_TURN.(state := MemoryPrepared);
    QuietPass(w, NEW_TURN, Normalize);
    if w.memoryStages {
      assert Stages(w) == [Normalize] + [MemoryPrepare, EmotionPrepare, Message, MemoryCommit];
      RunOn(w, NEW_TURN, Normalize, [MemoryPrepare, EmotionPrepare, Message, MemoryCommit]);
      QuietPass(w, t1, MemoryPrepare);
      assert [MemoryPrepare, EmotionPrepare, Message, MemoryCommit] == [MemoryPrepare] + [EmotionPrepare, Message, MemoryCommit];
      RunOn(w, t1, MemoryPrepare, [EmotionPrepare, Message, MemoryCommit]);
      QuietPass(w, t2, EmotionPrepare);
      assert [EmotionPrepare, Message, MemoryCommit] == [EmotionPrepare] + [Message, MemoryCommit];
      RunOn(w, t2, EmotionPrepare, [Message, MemoryCommit]);
    } else {
      assert Stages(w) == [Normalize] + [Message];
      RunOn(w, NEW_TURN, Normalize, [Message]);
    }
  }

  /** A turn ends in silence exactly when it is proactive, silence is allowed, it gets as far as a
      reply, and that reply is made of white space and markers. */
  lemma SilencedIff(w: World)
    ensures RunTurn(w).0.silenced
            <==> w.kind == ProactivePrompt && w.silentTermination
                 && Opened(w).Some? && Held(w).Some? && OnlyMarkers(Held(w).value)
  {
    hide MessageStage, Held, Pass, OnlyMarkers, IsProactiveSilence;
    if !HoldsBack(w) {
      NeverSilenced(w, NEW_TURN, Stages(w));
    } else {
      ProactiveOpens(w);
      if Opened(w).Some? {
        var t := Opened(w).value;
        HeldBackMessage(w, t);
        PassSilenced(w, t);
        if Held(w).Some? {
          SilenceIff(Held(w).value);
        }
        if !Pass(w, t, Message).turn.silenced && w.memoryStages {
          assert [Message, MemoryCommit][1..] == [MemoryCommit];
          if !Pass(w, t, Message).over {
            NeverSilenced(w, Pass(w, t, Message).turn, [MemoryCommit]);
          }
        }
      }
    }
  }

  /** The stages taken alone: a silenced turn has succeeded and sent nothing at all.  It has stored
      nothing when a later stage commits, but the silent reply itself when the engine commits its
      own turns.  A later commit would add nothing. */
  lemma SilenceIsSilent(w: World)
    requires RunTurn(w).0.silenced
    ensures var (t, failed) := RunTurn(w);
            && !failed && Held(w).Some?
            && t.trace == (if w.memoryStages then [] else [Store(Held(w).value)])
            && (t.trace == [] <==> w.memoryStages)
            && MemoryCommitStage(w, t) == (t, NextStage(t.state, []))
  {
    hide MessageStage, Held, Pass, OnlyMarkers, IsProactiveSilence;
    SilencedIff(w);
    ProactiveOpens(w);
    var t := Opened(w).value;
    HeldBackMessage(w, t);
    PassSilenced(w, t);
    SilenceIff(Held(w).value);
  }

  /** The service takes proactive turns only when the memory stages are on.  There a turn that does
      not fail is silenced exactly when it has left nothing behind: no event sent, no message stored. */
  lemma SilencedIffNothingLeft(w: World)
    requires w.memoryStages
    ensures var (t, failed) := RunTurn(w); !failed ==> (t.silenced <==> t.trace == [])
  {
    hide RunTurn, Held, MemoryCommitStage;
    if RunTurn(w).0.silenced {
      SilenceIsSilent(w);
    } else {
      OneStreamEnd(w);
    }
  }
}
