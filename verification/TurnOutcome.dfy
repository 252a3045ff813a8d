/** What a turn does from beginning to end when nothing around it fails: everything it sends and
    stores, in order, and the state it ends in. */
module TurnOutcome {

  import opened Sequences
  import opened Wrappers
  import opened Reasoning
  import opened Silence
  import opened ToolLoop
  import opened ToolTheorems
  import opened TurnStages
  import opened TurnTheorems
  import opened TurnOutput
  import opened TurnSilence
  import opened TurnReply

  /** No send returns an error, the message is valid, and the store, the memory and the engine do
      their part. */
  predicate Runs(w: World)
  {
    w.valid && w.prepared.ok && w.retrieved && w.ready && w.applied && w.refused == {} && w.commit == Saved
  }

  /** The approvals of the session can be read as well. */
  predicate Works(w: World)
  {
    Runs(w) && w.approvals.Some?
  }

  /** Who holds back, who passes deltas on, who leaves the storing to a later stage, and whose reply
      goes out in segments. */
  lemma ModesAre(w: World, content: string)
    ensures HoldsBack(w) <==> w.kind == ProactivePrompt && w.silentTermination
    ensures Passes(w) <==> w.kind == ApprovalAction || !(w.replyDelivery || (w.kind == ProactivePrompt && w.silentTermination))
    ensures Defers(w) <==> w.kind in {UserMessage, ProactivePrompt} && w.memoryStages
    ensures Splits(w, content)
            <==> w.kind in {UserMessage, ProactivePrompt} && w.replyDelivery && |w.segments| >= 2 && content != ""
  {}

  // ---- the same turn, whatever its sends are counted ----

  /** The turns agree in all but the number of the next send. */
  predicate Same(t: Turn, u: Turn)
  {
    t == u.(sends := t.sends)
  }

  function Sending(t: Turn, events: seq<Event>): Turn
  {
    t.(trace := t.trace + Sends(events))
  }

  lemma {:induction false} AllAreSent(w: World, t: Turn, events: seq<Event>)
    requires w.refused == {}
    ensures SendAll(w, t, events).1 && Same(SendAll(w, t, events).0, Sending(t, events))
    decreases |events|
  {
    SendAllAdds(w, t, events);
    if events != [] {
      AllAreSent(w, Emitted(t, events[0]), events[1..]);
    }
  }

  lemma PassGoes(w: World, t: Turn, stage: Stage)
    requires w.refused == {} && !RunStage(w, t, stage).1.failed
    ensures var (t1, r) := RunStage(w, t, stage);
            var p := Pass(w, t, stage);
            !p.failed && p.over == r.terminal && Same(p.turn, Sending(t1.(state := r.next), r.outbound))
  {
    hide RunStage, SendAll, Sends;
    var (t1, r) := RunStage(w, t, stage);
    AllAreSent(w, t1.(state := r.next), r.outbound);
  }

  // ---- what the engine answers ----

  /** The loop's deltas, and the content, or the wait for an approval. */
  lemma ConverseGoes(w: World, t: Turn, defer: bool)
    requires w.commit == Saved
    ensures var (t1, answer) := Converse(w, t, defer, Passes(w));
            var shown := LoopShown(w, Passes(w));
            && (LoopResult(w, Passes(w)) == Err(ApprovalPending) ==>
                  answer == Answer(Err(Pending), shown != [], None) && Same(t1, Sending(t, TurnReply.Deltas(shown))))
            && (LoopResult(w, Passes(w)).Ok? ==>
                  var content := LoopResult(w, Passes(w)).value;
                  && answer == Answer(Ok(content), shown != [], if defer then Some(content) else None)
                  && Same(t1, if defer then Sending(t, TurnReply.Deltas(shown))
                              else Stored(Sending(t, TurnReply.Deltas(shown)), content)))
  {
    var shown := LoopShown(w, Passes(w));
    SendDeltasAdds(t, shown);
    assert DeltaSteps(shown) == Sends(TurnReply.Deltas(shown));
    hide LoopShown, LoopResult, SendDeltas;
  }

  // ---- the ending of a turn ----

  /** One event for each approval of the session: required while it is pending, updated otherwise. */
  function Notices(approvals: seq<bool>): seq<Event>
  {
    if approvals == [] then []
    else Notices(approvals[..|approvals| - 1]) + [if approvals[|approvals| - 1] then ApprovalRequired else ApprovalUpdated]
  }

  lemma {:induction false} NoticesAreEvents(approvals: seq<bool>)
    ensures Notices(approvals) == ApprovalEvents(approvals)
  {
    if approvals != [] {
      NoticesAreEvents(approvals[..|approvals| - 1]);
    }
  }

  lemma SendsAppend(a: seq<Event>, b: seq<Event>)
    ensures Sends(a + b) == Sends(a) + Sends(b)
  {}

  /** A user's message and an approval end with the approvals; a proactive turn does not. */
  function Farewell(w: World): seq<Event>
    requires w.approvals.Some?
  {
    if w.kind == ProactivePrompt then [] else Notices(w.approvals.value)
  }

  /** The rest of the stages of a turn whose output is out and stored. */
  function LastStages(w: World): seq<Stage>
  {
    if w.kind == ProactivePrompt then [] else [EmitApprovals]
  }

  lemma Farewells(w: World, t: Turn)
    requires w.refused == {} && w.approvals.Some?
    ensures !RunStages(w, t, LastStages(w)).1
    ensures Same(RunStages(w, t, LastStages(w)).0, Sending(t, Farewell(w)))
  {
    if w.kind != ProactivePrompt {
      NoticesAreEvents(w.approvals.value);
      PassGoes(w, t, EmitApprovals);
    } else {
      assert Sends([]) == [];
      assert t.trace + [] == t.trace;
    }
  }

  // ---- the stage that resumes after an approval ----

  lemma ResumeGoes(w: World, t: Turn)
    requires Runs(w) && w.kind == ApprovalAction
    ensures var (t1, r) := ResumeStage(w, t);
            var shown := LoopShown(w, Passes(w));
            && (LoopResult(w, Passes(w)) == Err(ApprovalPending) ==>
                  && r == StageResult(ApprovalWait, false, true, false, [StreamEnd])
                  && Same(t1, Sending(Sending(t, [StreamStart]), TurnReply.Deltas(shown))))
            && (LoopResult(w, Passes(w)).Ok? ==>
                  var content := LoopResult(w, Passes(w)).value;
                  && r == NextStage(Done, Rest(w, content) + [StreamEnd])
                  && Same(t1, Stored(Sending(Sending(t, [StreamStart]), TurnReply.Deltas(shown)), content)))
  {
    AllAreSent(w, t, [StreamStart]);
    var (t1, _) := SendAll(w, t, [StreamStart]);
    ConverseGoes(w, t1, false);
    hide SendAll, Sends, LoopShown, LoopResult, Converse, TurnReply.Deltas;
  }

  // ---- the message stage ----

  /** The segments that the delivery plan sends before the request is cancelled. */
  function Pieces(w: World, content: string): seq<Event>
  {
    if w.kind != ApprovalAction && w.replyDelivery && content != "" && |w.segments| >= 2
    then seq(if w.cancelledAfter < |w.segments| then w.cancelledAfter else |w.segments|,
             i requires 0 <= i < (if w.cancelledAfter < |w.segments| then w.cancelledAfter else |w.segments|)
               => AssistantSegment(w.segments[i]))
    else []
  }

  /** The whole reply in one delta, when it has not been sent in any other way. */
  function Remainder(w: World, content: string): seq<Event>
  {
    if content != "" && LoopShown(w, Passes(w)) == []
       && !(w.kind != ApprovalAction && w.replyDelivery && |w.segments| >= 2)
    then [StreamDelta(content)] else []
  }

  lemma RemainderIsRest(w: World, content: string)
    ensures Remainder(w, content) == Rest(w, content)
    ensures Splits(w, content) ==> Pieces(w, content) == Segments(w)
    ensures !Splits(w, content) ==> Pieces(w, content) == []
  {
    hide LoopShown;
  }

  lemma SpeakGoes(w: World, t: Turn, content: string, streamed: bool)
    requires Runs(w) && w.kind != ApprovalAction && streamed == (LoopShown(w, Passes(w)) != [])
    ensures var (t1, r) := Speak(w, t, Answer(Ok(content), streamed, if w.memoryStages then Some(content) else None));
            && r == NextStage(Done, Remainder(w, content) + if w.memoryStages then [] else [StreamEnd])
            && Same(t1, Sending(if HoldsBack(w) then Sending(t, [StreamStart]) else t, Pieces(w, content))
                          .(endAfterCommit := t.endAfterCommit || w.memoryStages))
  {
    RemainderIsRest(w, content);
    AllAreSent(w, t, [StreamStart]);
    var (t1, _) := if HoldsBack(w) then SendAll(w, t, [StreamStart]) else (t, true);
    AllAreSent(w, t1, Segments(w));
    assert Sends([]) == [] && t1.trace + [] == t1.trace;
    hide SendAll, Sends, LoopShown, Segments, Pieces, Remainder;
  }

  lemma PendingSpeakGoes(w: World, t: Turn, streamed: bool)
    requires Runs(w)
    ensures var (t1, r) := Speak(w, t, Answer(Err(Pending), streamed, None));
            && r == StageResult(ApprovalWait, false, true, false, [StreamEnd])
            && Same(t1, if HoldsBack(w) then Sending(t, [StreamStart]) else t)
  {
    AllAreSent(w, t, [StreamStart]);
    hide SendAll, Sends, Segments;
    assert [] + [StreamEnd] == [StreamEnd];
  }

  lemma AskedGoes(w: World, t: Turn)
    requires Runs(w) && w.kind != ApprovalAction && t.notice.None? && w.prepared.notice.None?
    ensures var (t1, answer) := Asked(w, t);
            var shown := LoopShown(w, Passes(w));
            var spoken := Sending(t, TurnReply.Deltas(shown));
            && (LoopResult(w, Passes(w)) == Err(ApprovalPending) ==>
                  && answer == Answer(Err(Pending), shown != [], None)
                  && Same(t1, if w.memoryStages then spoken.(output := None) else spoken))
            && (LoopResult(w, Passes(w)).Ok? ==>
                  var content := LoopResult(w, Passes(w)).value;
                  && answer == Answer(Ok(content), shown != [], if w.memoryStages then Some(content) else None)
                  && Same(t1, if w.memoryStages then spoken.(output := Some(content)) else Stored(spoken, content)))
  {
    ConverseGoes(w, t, w.memoryStages);
    hide Sends, LoopShown, LoopResult, Converse, TurnReply.Deltas;
  }

  lemma BegunGoes(w: World, t: Turn)
    requires w.refused == {}
    ensures Begun(w, t).1 && Same(Begun(w, t).0, if HoldsBack(w) then t else Sending(t, [StreamStart]))
  {
    AllAreSent(w, t, [StreamStart]);
    hide SendAll, Sends;
  }

  /** What the message stage does before its last events: it starts the stream, passes on deltas,
      stores the reply if no later stage does, and sends the segments. */
  function Speech(w: World, content: string): seq<Step>
  {
    var stored := if w.memoryStages then [] else [Store(content)];
    if HoldsBack(w) then stored + Sends([StreamStart]) + Sends(Pieces(w, content))
    else Sends([StreamStart]) + Sends(TurnReply.Deltas(LoopShown(w, Passes(w)))) + stored + Sends(Pieces(w, content))
  }

  lemma MessageGoes(w: World, t: Turn, content: string)
    requires Runs(w) && w.kind != ApprovalAction && Replies(w, content)
    requires t.notice.None? && t.output.None? && !t.endAfterCommit && !t.silenced
    requires !(HoldsBack(w) && OnlyMarkers(content))
    ensures var (t1, r) := MessageStage(w, t);
            && r == NextStage(Done, Remainder(w, content) + if w.memoryStages then [] else [StreamEnd])
            && Same(t1, t.(trace := t.trace + Speech(w, content), endAfterCommit := w.memoryStages,
                           output := if w.memoryStages then Some(content) else None))
  {
    hide LoopResult, LoopShown, EngineTurn, Speak, Sends, SendAll, IsProactiveSilence, OnlyMarkers, Pieces, Remainder, Begun;
    SilenceIff(content);
    BegunGoes(w, t);
    var (t1, begun) := Begun(w, t);
    AskedGoes(w, t1);
    var (t2, answer) := Asked(w, t1);
    SpeakGoes(w, t2, content, answer.streamed);
    SpeechAdds(w, t, content);
  }

  lemma SpeechAdds(w: World, t: Turn, content: string)
    ensures var shown := TurnReply.Deltas(LoopShown(w, Passes(w)));
            var begun := if HoldsBack(w) then t else Sending(t, [StreamStart]);
            var spoken := Sending(begun, shown);
            var stored := if w.memoryStages then spoken else Stored(spoken, content);
            Sending(if HoldsBack(w) then Sending(stored, [StreamStart]) else stored, Pieces(w, content)).trace
            == t.trace + Speech(w, content)
  {
    var stored := if w.memoryStages then [] else [Store(content)];
    var start, pieces := Sends([StreamStart]), Sends(Pieces(w, content));
    var shown := TurnReply.Deltas(LoopShown(w, Passes(w)));
    if HoldsBack(w) {
      NothingShown(w);
      assert Sends(shown) == [] && t.trace + [] == t.trace;
      Regroup(t.trace, [], stored, start, pieces);
    } else {
      Regroup(t.trace, start, Sends(shown), stored, pieces);
    }
    hide LoopShown, Sends, Pieces, TurnReply.Deltas;
    assert (t.trace + start + Sends(shown)) + [] == t.trace + start + Sends(shown) && t.trace + [] == t.trace;
  }

  lemma Regroup(t: seq<Step>, a: seq<Step>, b: seq<Step>, c: seq<Step>, d: seq<Step>)
    ensures t + a + b + c + d == t + (a + b + c + d) && [] + b == b
  {
    Associates(t, a, b);
    Associates(t, a + b, c);
    Associates(t, a + b + c, d);
  }

  lemma MessageWaits(w: World, t: Turn)
    requires Runs(w) && w.kind != ApprovalAction && w.prepared.notice.None? && LoopResult(w, Passes(w)) == Err(ApprovalPending)
    requires t.notice.None? && t.output.None? && !t.endAfterCommit && !t.silenced
    ensures var (t1, r) := MessageStage(w, t);
            && r == StageResult(ApprovalWait, false, true, false, [StreamEnd])
            && Same(t1, t.(trace := t.trace + Sends([StreamStart]) + Sends(TurnReply.Deltas(LoopShown(w, Passes(w))))))
  {
    hide LoopResult, LoopShown, EngineTurn, Asked, Speak, Sends, SendAll, IsProactiveSilence, Begun, TurnReply.Deltas;
    BegunGoes(w, t);
    var (t1, begun) := Begun(w, t);
    AskedGoes(w, t1);
    var (t2, answer) := Asked(w, t1);
    PendingSpeakGoes(w, t2, answer.streamed);
    if HoldsBack(w) {
      NothingHeldBack(w);
      assert t.trace + [] == t.trace;
      assert (t.trace + Sends([StreamStart])) + [] == t.trace + Sends([StreamStart]);
    }
  }

  lemma NothingHeldBack(w: World)
    requires HoldsBack(w)
    ensures Sends(TurnReply.Deltas(LoopShown(w, Passes(w)))) == []
  {
    NothingShown(w);
    hide LoopShown;
  }

  // ---- the commit ----

  /** The waiting reply is stored, unless it is empty, and then the stream ends. */
  lemma CommitGoes(w: World, t: Turn, content: string)
    requires Runs(w) && t.output == Some(content) && t.endAfterCommit
    ensures var p := Pass(w, t, MemoryCommit);
            && !p.failed && !p.over
            && Same(p.turn, t.(trace := t.trace + (if content == "" then [] else [Store(content)]) + Sends([StreamEnd]),
                               endAfterCommit := false))
  {
    PassGoes(w, t, MemoryCommit);
    hide Sends, Pass;
  }

  lemma NothingToCommit(w: World, t: Turn)
    requires Runs(w) && t.output.None?
    ensures var p := Pass(w, t, MemoryCommit);
            && !p.failed && !p.over
            && Same(p.turn, t.(trace := t.trace + (if t.endAfterCommit then Sends([StreamEnd]) else []), endAfterCommit := false))
  {
    PassGoes(w, t, MemoryCommit);
    assert Sends([]) == [];
    hide Sends, Pass;
  }

  // ---- whole turns ----

  lemma QuietGoes(w: World, t: Turn, stage: Stage)
    requires Runs(w) && w.kind != ApprovalAction && w.prepared.notice.None? && t.notice.None?
    requires stage in {Normalize, MemoryPrepare, EmotionPrepare}
    ensures var p := Pass(w, t, stage);
            && !p.failed && !p.over
            && Same(p.turn, t.(state := match stage case Normalize => Normalizing
                                                    case MemoryPrepare => MemoryPrepared
                                                    case _ => EmotionPrepared))
  {
    PassGoes(w, t, stage);
    assert Sends([]) == [] && t.trace + [] == t.trace;
    hide Pass, Sends;
  }

  /** The stages from the message on. */
  function SpeakingStages(w: World): seq<Stage>
  {
    [Message] + (if w.memoryStages then [MemoryCommit] + LastStages(w) else LastStages(w))
  }

  lemma Opens(w: World) returns (t: Turn)
    requires Runs(w) && w.kind != ApprovalAction && w.prepared.notice.None?
    ensures RunTurn(w) == RunStages(w, t, SpeakingStages(w))
    ensures Same(t, NEW_TURN.(state := if w.memoryStages then EmotionPrepared else Normalizing))
  {
    hide Pass, RunStages;
    var rest := SpeakingStages(w);
    QuietGoes(w, NEW_TURN, Normalize);
    t := Pass(w, NEW_TURN, Normalize).turn;
    if w.memoryStages {
      var t1 := t;
      assert Stages(w) == [Normalize] + ([MemoryPrepare] + ([EmotionPrepare] + rest));
      RunOn(w, NEW_TURN, Normalize, [MemoryPrepare] + ([EmotionPrepare] + rest));
      QuietGoes(w, t1, MemoryPrepare);
      RunOn(w, t1, MemoryPrepare, [EmotionPrepare] + rest);
      var t2 := Pass(w, t1, MemoryPrepare).turn;
      QuietGoes(w, t2, EmotionPrepare);
      RunOn(w, t2, EmotionPrepare, rest);
      t := Pass(w, t2, EmotionPrepare).turn;
    } else {
      assert Stages(w) == [Normalize] + rest;
      RunOn(w, NEW_TURN, Normalize, rest);
    }
  }

  /** Everything a message turn does for a reply: the speech, the rest of the reply, its storing if
      that was left for a later stage, and the end of the stream. */
  function ReplySteps(w: World, content: string): seq<Step>
  {
    var stored := if w.memoryStages && content != "" then [Store(content)] else [];
    Speech(w, content) + Sends(Remainder(w, content)) + stored + Sends([StreamEnd])
  }

  lemma ReplyRuns(w: World, content: string) returns (t: Turn)
    requires Runs(w) && w.kind != ApprovalAction && Replies(w, content) && !(HoldsBack(w) && OnlyMarkers(content))
    ensures RunTurn(w) == RunStages(w, t, LastStages(w))
    ensures !t.silenced && t.state == Done && t.trace == ReplySteps(w, content)
  {
    hide RunTurn, Pass, RunStages, MessageStage, OnlyMarkers, Sends, LoopResult, Speech, Remainder, HoldsBack;
    var t0 := Opens(w);
    assert t0.trace == [] && [] + Speech(w, content) == Speech(w, content);
    MessageGoes(w, t0, content);
    PassGoes(w, t0, Message);
    t := Pass(w, t0, Message).turn;
    if w.memoryStages {
      var t1 := t;
      assert Remainder(w, content) + [] == Remainder(w, content);
      RunOn(w, t0, Message, [MemoryCommit] + LastStages(w));
      CommitGoes(w, t1, content);
      RunOn(w, t1, MemoryCommit, LastStages(w));
      t := Pass(w, t1, MemoryCommit).turn;
    } else {
      SendsAppend(Remainder(w, content), [StreamEnd]);
      RunOn(w, t0, Message, LastStages(w));
      Associates(Speech(w, content), Sends(Remainder(w, content)), Sends([StreamEnd]));
      assert Speech(w, content) + Sends(Remainder(w, content)) + [] == Speech(w, content) + Sends(Remainder(w, content));
    }
  }

  /** A message turn around which everything works and that gets a reply, and does not decline to give
      it, ends done; this is all it sends and stores, and then come the approvals. */
  lemma ReplyTurn(w: World, content: string)
    requires Works(w) && w.kind != ApprovalAction && Replies(w, content) && !(HoldsBack(w) && OnlyMarkers(content))
    ensures var (t, failed) := RunTurn(w);
            !failed && !t.silenced && t.state == Done && t.trace == ReplySteps(w, content) + Sends(Farewell(w))
  {
    hide RunTurn, RunStages, OnlyMarkers, Sends, Replies, ReplySteps, Farewell, HoldsBack;
    var t := ReplyRuns(w, content);
    Farewells(w, t);
  }

  /** When the approvals cannot be read after all that, the turn of a user's message fails. */
  lemma UnreadApprovalsFail(w: World, content: string)
    requires Runs(w) && w.approvals.None? && w.kind == UserMessage && Replies(w, content)
    ensures var (t, failed) := RunTurn(w); failed && t.trace == ReplySteps(w, content)
  {
    hide RunTurn, OnlyMarkers, Sends, Replies, ReplySteps;
    var t := ReplyRuns(w, content);
    SendNothing(w, t);
  }

  /** Some call of the model that is reached asks for a tool that must wait for an approval. */
  ghost predicate MustWait(w: World)
  {
    exists n: nat :: WaitsAt(LoopConfig(w, Passes(w)), w.ports, w.script, n)
  }

  lemma WaitingLoop(w: World)
    requires MustWait(w)
    ensures LoopResult(w, Passes(w)) == Err(ApprovalPending)
  {
    hide WaitsAt, Calls, Ending;
    var cfg := LoopConfig(w, Passes(w));
    WaitsIff(cfg, w.ports, w.script);
    var n: nat :| WaitsAt(cfg, w.ports, w.script, n);
  }

  /** A message turn whose model asks for a tool that must wait, and around which everything works,
      waits: it has sent what was passed on and one end, and then the approvals, and stored nothing. */
  lemma WaitingTurn(w: World)
    requires Works(w) && w.kind != ApprovalAction && w.prepared.notice.None? && MustWait(w)
    ensures var (t, failed) := RunTurn(w);
            && !failed && !t.silenced && t.state == ApprovalWait
            && t.trace == Sends([StreamStart]) + Sends(TurnReply.Deltas(LoopShown(w, Passes(w))))
                          + Sends([StreamEnd]) + Sends(Farewell(w))
  {
    hide RunTurn, Pass, RunStages, MessageStage, Sends, LoopResult, LoopShown, MustWait, Farewell, HoldsBack, TurnReply.Deltas;
    WaitingLoop(w);
    var t := Opens(w);
    assert [] + Sends([StreamStart]) == Sends([StreamStart]);
    MessageWaits(w, t);
    PassGoes(w, t, Message);
    var t1 := Pass(w, t, Message).turn;
    if w.memoryStages {
      RunOn(w, t, Message, [MemoryCommit] + LastStages(w));
      NothingToCommit(w, t1);
      RunOn(w, t1, MemoryCommit, LastStages(w));
      var t2 := Pass(w, t1, MemoryCommit).turn;
      assert t1.trace + [] == t1.trace;
      Farewells(w, t2);
    } else {
      RunOn(w, t, Message, LastStages(w));
      Farewells(w, t1);
    }
  }

  lemma ResumeOpens(w: World) returns (t: Turn)
    requires Runs(w) && w.kind == ApprovalAction
    ensures RunTurn(w) == RunStages(w, t, [Resume] + LastStages(w))
    ensures Same(t, NEW_TURN.(state := RunningEmotion, trace := Sends([ApprovalUpdated])))
  {
    hide Pass, RunStages, Sends;
    PassGoes(w, NEW_TURN, Normalize);
    assert Sends([]) == [] && NEW_TURN.trace + [] == NEW_TURN.trace by { NoSends(); }
    var t1 := Pass(w, NEW_TURN, Normalize).turn;
    PassGoes(w, t1, ApprovalApply);
    t := Pass(w, t1, ApprovalApply).turn;
    assert [] + Sends([ApprovalUpdated]) == Sends([ApprovalUpdated]);
    assert Stages(w) == [Normalize] + ([ApprovalApply] + ([Resume] + LastStages(w)));
    RunOn(w, NEW_TURN, Normalize, [ApprovalApply] + ([Resume] + LastStages(w)));
    RunOn(w, t1, ApprovalApply, [Resume] + LastStages(w));
  }

  lemma NoSends()
    ensures Sends([]) == []
  {}

  /** A turn that resumes after an approval updates it, starts the stream, passes on the deltas, and
      then either stores the reply, sends what is left of it and ends, or ends and waits again. */
  lemma ResumedTurn(w: World)
    requires Works(w) && w.kind == ApprovalAction
    ensures var (t, failed) := RunTurn(w);
            var shown := Sends([ApprovalUpdated]) + Sends([StreamStart]) + Sends(TurnReply.Deltas(LoopShown(w, Passes(w))));
            && (MustWait(w) ==>
                  && !failed && !t.silenced && t.state == ApprovalWait
                  && t.trace == shown + Sends([StreamEnd]) + Sends(Farewell(w)))
            && (forall content :: Replies(w, content) ==>
                  && !failed && !t.silenced && t.state == Done
                  && t.trace == shown + [Store(content)] + Sends(Remainder(w, content)) + Sends([StreamEnd]) + Sends(Farewell(w)))
  {
    hide RunTurn, Pass, RunStages, ResumeStage, Sends, LoopResult, LoopShown, MustWait, Farewell, TurnReply.Deltas, Remainder, Rest;
    var t := ResumeOpens(w);
    ResumeGoes(w, t);
    if MustWait(w) {
      WaitingLoop(w);
    }
    if LoopResult(w, Passes(w)).Ok? || LoopResult(w, Passes(w)) == Err(ApprovalPending) {
      PassGoes(w, t, Resume);
      RunOn(w, t, Resume, LastStages(w));
      Farewells(w, Pass(w, t, Resume).turn);
    }
    if LoopResult(w, Passes(w)).Ok? {
      var content := LoopResult(w, Passes(w)).value;
      RemainderIsRest(w, content);
      SendsAppend(Remainder(w, content), [StreamEnd]);
      var shown := Sends([ApprovalUpdated]) + Sends([StreamStart]) + Sends(TurnReply.Deltas(LoopShown(w, Passes(w))));
      Associates(shown + [Store(content)], Sends(Remainder(w, content)), Sends([StreamEnd]));
    }
  }

  // ---- a notice instead of a reply ----

  /** With a notice the message is answered by it, and by nothing else: it is stored once and sent
      once, in segments when the engine is asked for it and replies are delivered so. */
  function NoticeSteps(w: World, notice: string): seq<Step>
    requires w.approvals.Some?
  {
    var whole := if notice != "" then [StreamDelta(notice)] else [];
    (if w.memoryStages then [Store(notice)] + Sends(if notice == "" then [StreamStart] else whole)
     else Sends([StreamStart]) + [Store(notice)] + Sends(Pieces(w, notice))
          + Sends(if w.replyDelivery && |w.segments| >= 2 then [] else whole))
    + Sends([StreamEnd]) + Sends(Farewell(w))
  }

  lemma SpokenNotice(w: World, t: Turn, notice: string)
    requires Runs(w) && w.kind == UserMessage
    ensures var (t1, r) := Speak(w, t, Answer(Ok(notice), false, None));
            var whole := if notice != "" then [StreamDelta(notice)] else [];
            && r == NextStage(Done, (if w.replyDelivery && |w.segments| >= 2 then [] else whole)
                                    + if w.memoryStages then [] else [StreamEnd])
            && Same(t1, Sending(t, Pieces(w, notice)).(endAfterCommit := t.endAfterCommit || w.memoryStages))
  {
    RemainderIsRest(w, notice);
    AllAreSent(w, t, Segments(w));
    assert Sends([]) == [] && t.trace + [] == t.trace;
    hide SendAll, Sends, Segments, Pieces;
  }

  /** Without the memory stages the engine stores the message and hands the notice on. */
  lemma EngineNotice(w: World, t: Turn, notice: string)
    requires Runs(w) && w.kind == UserMessage && w.prepared.notice == Some(notice)
    requires t.notice == if w.memoryStages then Some(notice) else None
    ensures Asked(w, t) == (if w.memoryStages then t.(output := None) else Stored(t, notice), Answer(Ok(notice), false, None))
  {
    hide Converse;
  }

  lemma NoticeMessage(w: World, t: Turn, notice: string)
    requires Runs(w) && w.kind == UserMessage && w.prepared.notice == Some(notice)
    requires t.notice == (if w.memoryStages then Some(notice) else None) && t.output.None? && !t.endAfterCommit && !t.silenced
    ensures var (t1, r) := MessageStage(w, t);
            && r.next == Done && !r.failed && !r.terminal
            && (w.memoryStages && notice != "" ==> t1 == t && r.outbound == [StreamDelta(notice), StreamEnd])
            && (w.memoryStages && notice == "" ==>
                  Same(t1, Sending(t, [StreamStart]).(endAfterCommit := true)) && r.outbound == [])
            && (!w.memoryStages ==>
                  && Same(t1, Sending(Stored(Sending(t, [StreamStart]), notice), Pieces(w, notice)))
                  && r.outbound == (if notice == "" || (w.replyDelivery && |w.segments| >= 2) then [] else [StreamDelta(notice)])
                                   + [StreamEnd])
  {
    hide EngineTurn, Asked, Speak, Sends, SendAll, IsProactiveSilence, Begun, Pieces;
    BegunGoes(w, t);
    var (t1, begun) := Begun(w, t);
    EngineNotice(w, t1, notice);
    var (t2, answer) := Asked(w, t1);
    SpokenNotice(w, t2, notice);
    if notice == "" {
      NoPieces(w);
      assert t2.trace + [] == t2.trace;
    }
  }

  lemma NoPieces(w: World)
    ensures Pieces(w, "") == [] && Sends([]) == []
  {}

  lemma NoticeOpens(w: World, notice: string) returns (t: Turn)
    requires Runs(w) && w.kind == UserMessage && w.prepared.notice == Some(notice)
    ensures RunTurn(w) == RunStages(w, t, SpeakingStages(w))
    ensures Same(t, if w.memoryStages then NEW_TURN.(state := EmotionPrepared, notice := Some(notice), trace := [Store(notice)])
                    else NEW_TURN.(state := Normalizing))
  {
    hide Pass, RunStages, Sends;
    var rest := SpeakingStages(w);
    NoSends();
    PassGoes(w, NEW_TURN, Normalize);
    t := Pass(w, NEW_TURN, Normalize).turn;
    assert NEW_TURN.trace + [] == NEW_TURN.trace;
    if w.memoryStages {
      var t1 := t;
      assert Stages(w) == [Normalize] + ([MemoryPrepare] + ([EmotionPrepare] + rest));
      RunOn(w, NEW_TURN, Normalize, [MemoryPrepare] + ([EmotionPrepare] + rest));
      PassGoes(w, t1, MemoryPrepare);
      assert ([] + [Store(notice)]) + [] == [Store(notice)];
      RunOn(w, t1, MemoryPrepare, [EmotionPrepare] + rest);
      var t2 := Pass(w, t1, MemoryPrepare).turn;
      PassGoes(w, t2, EmotionPrepare);
      assert t2.trace + [] == t2.trace;
      RunOn(w, t2, EmotionPrepare, rest);
      t := Pass(w, t2, EmotionPrepare).turn;
    } else {
      assert Stages(w) == [Normalize] + rest;
      RunOn(w, NEW_TURN, Normalize, rest);
    }
  }

  lemma NoticeTurn(w: World, notice: string)
    requires Works(w) && w.kind == UserMessage && w.prepared.notice == Some(notice)
    ensures var (t, failed) := RunTurn(w);
            !failed && !t.silenced && t.state == Done && t.trace == NoticeSteps(w, notice)
  {
    hide RunTurn, Pass, RunStages, MessageStage, Sends, Pieces, Farewell;
    NoSends();
    var t := NoticeOpens(w, notice);
    NoticeMessage(w, t, notice);
    PassGoes(w, t, Message);
    var t1 := Pass(w, t, Message).turn;
    var whole := if notice != "" then [StreamDelta(notice)] else [];
    if w.memoryStages {
      RunOn(w, t, Message, [MemoryCommit] + LastStages(w));
      NothingToCommit(w, t1);
      RunOn(w, t1, MemoryCommit, LastStages(w));
      var t2 := Pass(w, t1, MemoryCommit).turn;
      Farewells(w, t2);
      SendsAppend([StreamDelta(notice)], [StreamEnd]);
      assert [StreamDelta(notice)] + [StreamEnd] == [StreamDelta(notice), StreamEnd];
      Associates([Store(notice)], Sends([StreamDelta(notice)]), Sends([StreamEnd]));
      assert t1.trace + [] == t1.trace;
      if notice == "" {
        assert ([Store(notice)] + Sends([StreamStart])) + [] == [Store(notice)] + Sends([StreamStart]);
      }
    } else {
      var rest := if notice == "" || (w.replyDelivery && |w.segments| >= 2) then [] else [StreamDelta(notice)];
      RunOn(w, t, Message, LastStages(w));
      Farewells(w, t1);
      SendsAppend(rest, [StreamEnd]);
      assert [] + Sends([StreamStart]) == Sends([StreamStart]);
      Associates(Sends([StreamStart]) + [Store(notice)] + Sends(Pieces(w, notice)), Sends(rest), Sends([StreamEnd]));
    }
  }
}
