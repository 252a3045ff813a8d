/** What the user is shown of a reply, against what is stored of it, over a whole turn. */
module TurnReply {

  import opened Sequences
  import opened Wrappers
  import opened Reasoning
  import opened Silence
  import opened ToolLoop
  import opened ToolTheorems
  import opened TurnStages
  import opened TurnTheorems
  import opened TurnOutput
  import opened TurnSilence

  /** The events that carry the reply's text. */
  predicate IsText(e: Event)
  {
    e.StreamDelta? || e.AssistantSegment?
  }

  function TextEvents(events: seq<Event>): seq<Event>
  {
    Flat((e: Event) => if IsText(e) then [e] else [], events)
  }

  function SaidIn(s: Step): seq<Event>
  {
    if s.Send? && IsText(s.event) then [s.event] else []
  }

  function StoredIn(s: Step): seq<string>
  {
    if s.Store? then [s.content] else []
  }

  /** The text events sent, and the messages stored, in order. */
  function Said(trace: seq<Step>): seq<Event>
  {
    Flat(SaidIn, trace)
  }

  function Messages(trace: seq<Step>): seq<string>
  {
    Flat(StoredIn, trace)
  }

  predicate Told(t: Turn, said: seq<Event>, messages: seq<string>)
  {
    Said(t.trace) == said && Messages(t.trace) == messages
  }

  lemma TraceAppend(a: seq<Step>, b: seq<Step>)
    ensures Said(a + b) == Said(a) + Said(b) && Messages(a + b) == Messages(a) + Messages(b)
  {
    FlatAppend(SaidIn, a, b);
    FlatAppend(StoredIn, a, b);
  }

  lemma OneStep(s: Step)
    ensures Said([s]) == SaidIn(s) && Messages([s]) == StoredIn(s)
  {
    FlatOne(SaidIn, [], s);
    FlatOne(StoredIn, [], s);
    assert [] + [s] == [s];
  }

  lemma {:induction false} SendsTold(events: seq<Event>)
    ensures Said(Sends(events)) == TextEvents(events) && Messages(Sends(events)) == []
  {
    if events != [] {
      var last := |events| - 1;
      SendsTold(events[..last]);
      assert Sends(events) == Sends(events[..last]) + [Send(events[last])];
      TraceAppend(Sends(events[..last]), [Send(events[last])]);
      OneStep(Send(events[last]));
    }
  }

  /** The deltas as events. */
  function Deltas(texts: seq<string>): seq<Event>
  {
    seq(|texts|, i requires 0 <= i < |texts| => StreamDelta(texts[i]))
  }

  lemma {:induction false} AllText(events: seq<Event>)
    requires forall e :: e in events ==> IsText(e)
    ensures TextEvents(events) == events
  {
    if events != [] {
      assert events[|events| - 1] in events;
      AllText(events[..|events| - 1]);
    }
  }

  lemma {:induction false} NoText(events: seq<Event>)
    requires forall e :: e in events ==> !IsText(e)
    ensures TextEvents(events) == []
  {
    if events != [] {
      assert events[|events| - 1] in events;
      NoText(events[..|events| - 1]);
    }
  }

  lemma DeltaStepsTold(deltas: seq<string>)
    ensures Said(DeltaSteps(deltas)) == Deltas(deltas) && Messages(DeltaSteps(deltas)) == []
  {
    assert DeltaSteps(deltas) == Sends(Deltas(deltas));
    SendsTold(Deltas(deltas));
    AllText(Deltas(deltas));
  }

  lemma SendAllTold(w: World, t: Turn, events: seq<Event>)
    ensures var (t1, ok) := SendAll(w, t, events);
            SameTurn(t, t1)
            && (ok ==> Told(t1, Said(t.trace) + TextEvents(events), Messages(t.trace)))
  {
    SendAllAdds(w, t, events);
    SendsTold(events);
    TraceAppend(t.trace, Sends(events));
    assert Messages(t.trace) + [] == Messages(t.trace);
  }

  /** Events that carry no text change nothing that is told. */
  lemma SilentSends(w: World, t: Turn, said: seq<Event>, messages: seq<string>, events: seq<Event>)
    requires Told(t, said, messages) && forall e :: e in events ==> !IsText(e)
    ensures var (t1, ok) := SendAll(w, t, events); SameTurn(t, t1) && (ok ==> Told(t1, said, messages))
  {
    SendAllTold(w, t, events);
    NoText(events);
    assert said + [] == said;
  }

  lemma StoreTold(t: Turn, content: string)
    ensures Told(Stored(t, content), Said(t.trace), Messages(t.trace) + [content])
  {
    TraceAppend(t.trace, [Store(content)]);
    OneStep(Store(content));
    assert Said(t.trace) + [] == Said(t.trace);
  }

  lemma SameTold(t: Turn, t1: Turn, said: seq<Event>, messages: seq<string>)
    requires Told(t, said, messages) && t.trace == t1.trace
    ensures Told(t1, said, messages)
  {}

  // ---- what a turn is to tell ----

  /** Whether the reply's deltas are passed on, and whether its commit is left to a later stage. */
  predicate Passes(w: World)
  {
    w.kind == ApprovalAction || Listens(w)
  }

  predicate Defers(w: World)
  {
    w.memoryStages && w.kind != ApprovalAction
  }

  /** Reply delivery sends the reply in segments. */
  predicate Splits(w: World, content: string)
  {
    w.kind != ApprovalAction && w.replyDelivery && content != "" && |w.segments| > 1
  }

  /** A turn whose engine is asked for a reply and gives it. */
  predicate Replies(w: World, content: string)
  {
    && (w.kind != ApprovalAction ==> w.prepared.notice.None?)
    && LoopResult(w, Passes(w)) == Ok(content)
  }

  /** What goes out before the stage's outbound events, and the text among those. */
  function First(w: World, content: string): seq<Event>
  {
    if Splits(w, content) then Segments(w) else Deltas(LoopShown(w, Passes(w)))
  }

  function Rest(w: World, content: string): seq<Event>
  {
    if !Splits(w, content) && LoopShown(w, Passes(w)) == [] && content != "" then [StreamDelta(content)] else []
  }

  /** The text events of the reply: its segments, or the deltas passed on, or else all of it at once. */
  function Texts(w: World, content: string): seq<Event>
  {
    First(w, content) + Rest(w, content)
  }

  function Waits(w: World, content: string): seq<string>
  {
    if Defers(w) then [] else [content]
  }

  lemma ConverseTold(w: World, t: Turn, content: string)
    requires Replies(w, content) && Told(t, [], []) && (!Defers(w) ==> w.commit == Saved)
    ensures var (t1, answer) := Converse(w, t, Defers(w), Passes(w));
            && SameTurn(t, t1) && answer == Answer(Ok(content), LoopShown(w, Passes(w)) != [],
                                                    if Defers(w) then Some(content) else None)
            && Told(t1, Deltas(LoopShown(w, Passes(w))), Waits(w, content))
  {
    var shown := LoopShown(w, Passes(w));
    SendDeltasAdds(t, shown);
    DeltaStepsTold(shown);
    TraceAppend(t.trace, DeltaSteps(shown));
    StoreTold(SendDeltas(t, shown), content);
  }

  lemma UnsavedFails(w: World, t: Turn, content: string)
    requires LoopResult(w, Passes(w)) == Ok(content) && !Defers(w) && w.commit != Saved
    ensures var (t1, answer) := Converse(w, t, Defers(w), Passes(w));
            SameTurn(t, t1) && answer.result == Err(EngineFailed)
  {
    ConverseAdds(w, t, Defers(w), Passes(w));
  }

  lemma EngineTold(w: World, t: Turn, content: string)
    requires Replies(w, content) && Told(t, [], []) && t.notice.None?
    ensures var (t1, answer) := EngineTurn(w, t, !w.memoryStages && w.kind != ApprovalAction, Defers(w), Passes(w), None);
            && SameTurn(t, t1)
            && (answer.result == Err(EngineFailed)
                || (answer == Answer(Ok(content), LoopShown(w, Passes(w)) != [], if Defers(w) then Some(content) else None)
                    && Told(t1, Deltas(LoopShown(w, Passes(w))), Waits(w, content))))
  {
    hide Converse, LoopShown, LoopResult, Told;
    if Defers(w) || w.commit == Saved {
      ConverseTold(w, t, content);
    } else {
      UnsavedFails(w, t, content);
    }
  }

  /** After the stage that spoke: all the text is out, and the content is stored or waits to be. */
  ghost predicate Spoke(w: World, t: Turn, content: string)
  {
    Told(t, Texts(w, content), Waits(w, content)) && (Defers(w) ==> t.output == Some(content))
  }

  lemma RestTexts(w: World, content: string, end: bool)
    ensures TextEvents(Rest(w, content) + if end then [StreamEnd] else []) == Rest(w, content)
  {
    FlatAppend((e: Event) => if IsText(e) then [e] else [], Rest(w, content), if end then [StreamEnd] else []);
    AllText(Rest(w, content));
    NoText(if end then [StreamEnd] else []);
    assert Rest(w, content) + [] == Rest(w, content);
  }

  lemma LastWords(w: World, t: Turn, content: string, end: bool)
    requires Told(t, First(w, content), Waits(w, content))
    ensures var (t1, ok) := SendAll(w, t, Rest(w, content) + if end then [StreamEnd] else []);
            SameTurn(t, t1) && (ok ==> Told(t1, Texts(w, content), Waits(w, content)))
  {
    SendAllTold(w, t, Rest(w, content) + if end then [StreamEnd] else []);
    RestTexts(w, content, end);
  }

  // ---- through the stages ----

  lemma NothingPassed(w: World)
    requires w.replyDelivery && w.kind != ApprovalAction
    ensures LoopShown(w, Passes(w)) == []
  {
    NothingShown(w);
  }

  lemma SegmentsTold(w: World, t: Turn, messages: seq<string>)
    requires Told(t, [], messages)
    ensures var (t1, ok) := SendAll(w, t, Segments(w)); SameTurn(t, t1) && (ok ==> Told(t1, Segments(w), messages))
  {
    SendAllTold(w, t, Segments(w));
    AllText(Segments(w));
    assert [] + Segments(w) == Segments(w);
  }

  lemma StartTold(w: World, t: Turn, said: seq<Event>, messages: seq<string>)
    requires Told(t, said, messages)
    ensures var (t1, ok) := SendAll(w, t, [StreamStart]); SameTurn(t, t1) && (ok ==> Told(t1, said, messages))
  {
    SilentSends(w, t, said, messages, [StreamStart]);
  }

  lemma SpeakTold(w: World, t: Turn, answer: Answer, content: string)
    requires w.kind != ApprovalAction && !t.endAfterCommit
    requires answer.result == Ok(content) && answer.streamed == (LoopShown(w, Listens(w)) != [])
    requires Told(t, Deltas(LoopShown(w, Passes(w))), Waits(w, content))
    ensures var (t1, r) := Speak(w, t, answer);
            r.failed || (!r.terminal && t1.output == t.output
                         && Told(t1, First(w, content), Waits(w, content))
                         && r.outbound == Rest(w, content) + if Defers(w) then [] else [StreamEnd])
  {
    hide SendAll, LoopShown, Said, Messages, Segments;
    var said := Deltas(LoopShown(w, Passes(w)));
    StartTold(w, t, said, Waits(w, content));
    var (t1, begun) := if HoldsBack(w) then SendAll(w, t, [StreamStart]) else (t, true);
    if begun && Splits(w, content) {
      NothingPassed(w);
      assert said == [];
      SegmentsTold(w, t1, Waits(w, content));
    }
  }

  lemma AnsweredTold(w: World, t: Turn, content: string)
    requires w.kind != ApprovalAction
    requires Replies(w, content) && Told(t, [], []) && t.notice.None? && !t.endAfterCommit
    ensures var (t1, answer) := Asked(w, t);
            var (t2, r) := Answered(w, t1, answer);
            r.terminal || (Told(t2, First(w, content), Waits(w, content))
                           && (Defers(w) ==> t2.output == Some(content))
                           && r.outbound == Rest(w, content) + if Defers(w) then [] else [StreamEnd])
  {
    hide Speak, LoopShown, LoopResult, Told, EngineTurn, IsProactiveSilence, First, Rest;
    EngineTold(w, t, content);
    var (t0, answer) := EngineTurn(w, t, !w.memoryStages, w.memoryStages, Listens(w), t.notice);
    var t1 := if w.memoryStages then t0.(output := answer.output) else t0;
    if answer.result != Err(EngineFailed) {
      SameTold(t0, t1, Deltas(LoopShown(w, Passes(w))), Waits(w, content));
      SpeakTold(w, t1, answer, content);
      FailsAtEnd(w, t1, answer);
    }
  }

  lemma FailsAtEnd(w: World, t: Turn, answer: Answer)
    ensures Speak(w, t, answer).1.failed ==> Speak(w, t, answer).1.terminal
  {
    hide SendAll, Segments;
  }

  lemma PassMessageTold(w: World, t: Turn, content: string)
    requires w.kind != ApprovalAction
    requires Replies(w, content) && Told(t, [], []) && t.notice.None? && !t.endAfterCommit
    ensures var p := Pass(w, t, Message); p.over || Spoke(w, p.turn, content)
  {
    hide SendAll, Asked, Answered, LoopShown, Told, Replies, First, Rest, Texts;
    StartTold(w, t, [], []);
    var (t1, begun) := Begun(w, t);
    if begun {
      AnsweredTold(w, t1, content);
      var (t2, answer) := Asked(w, t1);
      var (t3, r) := Answered(w, t2, answer);
      var t4 := t3.(state := r.next);
      if !r.terminal {
        SameTold(t3, t4, First(w, content), Waits(w, content));
        LastWords(w, t4, content, !Defers(w));
      }
    }
  }

  lemma PassResumeTold(w: World, t: Turn, content: string)
    requires w.kind == ApprovalAction && Replies(w, content) && Told(t, [], [])
    ensures var p := Pass(w, t, Resume); p.over || Spoke(w, p.turn, content)
  {
    hide SendAll, EngineTurn, LoopShown, Told, Replies, Texts;
    StartTold(w, t, [], []);
    var (t1, begun) := SendAll(w, t, [StreamStart]);
    if begun {
      ResumeEngineTold(w, t1, content);
      var (t2, r) := ResumeStage(w, t);
      var t3 := t2.(state := r.next);
      if !r.failed {
        SameTold(t2, t3, First(w, content), [content]);
        LastWords(w, t3, content, true);
      }
    }
  }

  lemma ResumeEngineTold(w: World, t: Turn, content: string)
    requires w.kind == ApprovalAction && Replies(w, content) && Told(t, [], [])
    ensures var (t1, answer) := EngineTurn(w, t, false, false, true, None);
            SameTurn(t, t1)
            && (answer.result == Err(EngineFailed)
                || (answer == Answer(Ok(content), LoopShown(w, Passes(w)) != [], None)
                    && Told(t1, Deltas(LoopShown(w, Passes(w))), [content])))
  {
    hide Converse, LoopShown, LoopResult, Told;
    if Defers(w) || w.commit == Saved {
      ConverseTold(w, t, content);
    } else {
      UnsavedFails(w, t, content);
    }
  }

  /** What has been said, once nothing waits to be stored; an empty reply left to the commit
      stage is not stored. */
  function Kept(w: World, content: string): seq<string>
  {
    if Defers(w) && content == "" then [] else [content]
  }

  predicate Done(w: World, t: Turn, content: string)
  {
    Told(t, Texts(w, content), Kept(w, content))
  }

  lemma CommitTold(w: World, t: Turn, content: string)
    requires Defers(w) && Spoke(w, t, content)
    ensures var (t1, r) := MemoryCommitStage(w, t); r.failed || Done(w, t1, content)
  {
    hide Said, Texts;
    StoreTold(t, content);
    assert [] + [content] == [content];
  }

  lemma PassCommitTold(w: World, t: Turn, content: string)
    requires Defers(w) && Spoke(w, t, content)
    ensures var p := Pass(w, t, MemoryCommit); p.over || Done(w, p.turn, content)
  {
    hide SendAll, Texts, Told, Spoke;
    CommitTold(w, t, content);
    var (t1, r) := MemoryCommitStage(w, t);
    var t2 := t1.(state := r.next);
    SendNothing(w, t2);
    if !r.failed {
      SameTold(t1, t2, Texts(w, content), Kept(w, content));
      SilentSends(w, t2, Texts(w, content), Kept(w, content), [StreamEnd]);
    }
  }

  /** A turn that has said nothing yet, and has no notice to show instead of a reply. */
  predicate Fresh(w: World, t: Turn)
  {
    Told(t, [], [])
    && (w.kind != ApprovalAction ==> t.notice.None? && !t.endAfterCommit && w.prepared.notice.None?)
  }

  lemma PassEarlyTold(w: World, t: Turn, stage: Stage)
    requires Fresh(w, t)
    requires if w.kind == ApprovalAction then stage in {Normalize, ApprovalApply}
             else stage in {Normalize, MemoryPrepare, EmotionPrepare}
    ensures var p := Pass(w, t, stage); p.over || Fresh(w, p.turn)
  {
    hide SendAll, Told;
    var (t1, r) := RunStage(w, t, stage);
    var t2 := t1.(state := r.next);
    SameTold(t, t2, [], []);
    SilentSends(w, t2, [], [], r.outbound);
  }

  lemma PassApprovalsTold(w: World, t: Turn, content: string)
    requires Done(w, t, content)
    ensures var p := Pass(w, t, EmitApprovals); p.over && (p.failed || Done(w, p.turn, content))
  {
    hide SendAll, Texts, Told;
    var (t1, r) := EmitApprovalsStage(w, t);
    var t2 := t1.(state := r.next);
    SameTold(t, t2, Texts(w, content), Kept(w, content));
    SendNothing(w, t2);
    SilentSends(w, t2, Texts(w, content), Kept(w, content), r.outbound);
  }

  ghost predicate Phase(w: World, t: Turn, k: nat, content: string)
    requires k <= |Stages(w)|
  {
    if k == |Stages(w)| || Stages(w)[k] == EmitApprovals then Done(w, t, content)
    else if Stages(w)[k] == MemoryCommit then Spoke(w, t, content)
    else Fresh(w, t)
  }

  lemma SpokeIsDone(w: World, t: Turn, content: string)
    requires Spoke(w, t, content) && !Defers(w)
    ensures Done(w, t, content)
  {}

  lemma PassPhase(w: World, t: Turn, k: nat, content: string)
    requires k < |Stages(w)| && Phase(w, t, k, content)
    requires Replies(w, content)
    ensures var p := Pass(w, t, Stages(w)[k]);
            if p.over then p.failed || p.turn.silenced || Done(w, p.turn, content) else Phase(w, p.turn, k + 1, content)
  {
    hide Pass, Told, Texts, Replies, Spoke, Done;
    var p := Pass(w, t, Stages(w)[k]);
    match Stages(w)[k]
    case Message =>
      PassMessageTold(w, t, content);
      MessageSettles(w, t);
      if !p.over && !w.memoryStages {
        SpokeIsDone(w, p.turn, content);
      }
    case MemoryCommit =>
      PassCommitTold(w, t, content);
      CommitSettles(w, t);
    case EmitApprovals => PassApprovalsTold(w, t, content);
    case Resume =>
      PassResumeTold(w, t, content);
      ResumeSettles(w, t);
      if !p.over {
        SpokeIsDone(w, p.turn, content);
      }
    case _ =>
      PassEarlyTold(w, t, Stages(w)[k]);
      EarlySettles(w, t, Stages(w)[k]);
  }

  lemma MessageSettles(w: World, t: Turn)
    ensures var p := Pass(w, t, Message); p.over ==> p.failed || p.turn.silenced
  {
    hide SendAll, Asked, Speak, IsProactiveSilence;
    if t.notice.None? || t.notice.value == "" {
      var (t1, begun) := Begun(w, t);
      if begun {
        var (t2, answer) := Asked(w, t1);
        FailsAtEnd(w, t2, answer);
        SpeakGoesOn(w, t2, answer);
        var (t3, r) := Answered(w, t2, answer);
        SendNothing(w, t3.(state := r.next));
      }
    }
  }

  lemma SpeakGoesOn(w: World, t: Turn, answer: Answer)
    ensures !Speak(w, t, answer).1.failed ==> !Speak(w, t, answer).1.terminal
    ensures Speak(w, t, answer).1.failed ==> Speak(w, t, answer).1 == Failing(Failed)
  {
    hide SendAll, Segments;
  }

  lemma CommitSettles(w: World, t: Turn)
    ensures Pass(w, t, MemoryCommit).over ==> Pass(w, t, MemoryCommit).failed
  {
    hide SendAll;
  }

  lemma ResumeSettles(w: World, t: Turn)
    ensures Pass(w, t, Resume).over ==> Pass(w, t, Resume).failed
  {
    hide SendAll, EngineTurn;
  }

  lemma EarlySettles(w: World, t: Turn, stage: Stage)
    requires stage in {Normalize, MemoryPrepare, EmotionPrepare, ApprovalApply}
    ensures Pass(w, t, stage).over ==> Pass(w, t, stage).failed
  {
    hide SendAll;
  }

  lemma {:induction false} RunTells(w: World, t: Turn, k: nat, content: string)
    requires k <= |Stages(w)| && Phase(w, t, k, content)
    requires Replies(w, content)
    ensures var (t1, failed) := RunStages(w, t, Stages(w)[k..]); failed || t1.silenced || Done(w, t1, content)
    decreases |Stages(w)| - k
  {
    hide Pass, Replies, Done;
    if k < |Stages(w)| {
      PassPhase(w, t, k, content);
      var p := Pass(w, t, Stages(w)[k]);
      assert Stages(w)[k..][1..] == Stages(w)[k + 1..];
      if !p.over {
        RunTells(w, p.turn, k + 1, content);
      }
    }
  }

  /** A turn that gets a reply and does not fail or fall silent sends the reply's segments, or the
      deltas as they were passed on, or else the whole reply, and stores the content once. */
  lemma ReplyIsTold(w: World, content: string)
    requires Replies(w, content)
    ensures var (t, failed) := RunTurn(w); failed || t.silenced || Told(t, Texts(w, content), Kept(w, content))
  {
    assert Stages(w)[0..] == Stages(w);
    assert Told(NEW_TURN, [], []);
    if w.kind != ApprovalAction {
      assert Fresh(w, NEW_TURN);
    }
    RunTells(w, NEW_TURN, 0, content);
  }

  // ---- the text sent against the content stored ----

  function WordIn(e: Event): seq<string>
  {
    if IsText(e) then [e.text] else []
  }

  function Words(events: seq<Event>): seq<string>
  {
    Flat(WordIn, events)
  }

  lemma {:induction false} DeltaWords(texts: seq<string>)
    ensures Words(Deltas(texts)) == texts
  {
    if texts != [] {
      var last := |texts| - 1;
      DeltaWords(texts[..last]);
      assert Deltas(texts) == Deltas(texts[..last]) + [StreamDelta(texts[last])];
      FlatOne(WordIn, Deltas(texts[..last]), StreamDelta(texts[last]));
    }
  }

  /** The last model call of the turn. */
  function LastCall(w: World): ModelCall
  {
    w.script(Calls(LoopConfig(w, Passes(w)), w.ports, w.script) - 1)
  }

  lemma UnsplitWords(w: World, content: string)
    requires !Splits(w, content)
    ensures Words(Texts(w, content))
            == if LoopShown(w, Passes(w)) != [] then LoopShown(w, Passes(w)) else if content != "" then [content] else []
  {
    var shown := LoopShown(w, Passes(w));
    hide LoopShown;
    DeltaWords(shown);
    DeltaWords([content]);
    assert Deltas([content]) == [StreamDelta(content)];
    if Rest(w, content) == [] {
      assert Texts(w, content) == Deltas(shown);
    } else {
      assert Deltas(shown) == [] && Texts(w, content) == [StreamDelta(content)];
    }
  }

  lemma TextsSpell(w: World, content: string)
    requires Replies(w, content) && !Splits(w, content)
    requires w.loop.realtime || !Passes(w) || Spelled(LastCall(w))
    ensures Concat(Words(Texts(w, content))) == content
  {
    var cfg := LoopConfig(w, Passes(w));
    var n := Calls(cfg, w.ports, w.script);
    UnsplitWords(w, content);
    ConcatSingle(content);
    assert Concat([]) == "";
    if w.loop.realtime {
      WhatIsShownIsKept(cfg, w.script, n, content);
    } else if !Passes(w) {
      NothingShown(w);
    } else {
      SpelledIsKept(cfg, w.script, n, content);
    }
  }

  /** In realtime mode, whenever the deltas are held back, and in buffered mode when the last
      reply's content is the text it streamed, the text sent over the whole turn is exactly the
      content stored.  What the stream accepts of it is another matter: see AcceptedTextIsStoredIff. */
  lemma SentTextIsStored(w: World, content: string)
    requires Replies(w, content) && !Splits(w, content)
    requires w.loop.realtime || !Passes(w) || Spelled(LastCall(w))
    ensures var (t, failed) := RunTurn(w);
            failed || t.silenced
            || (Concat(Words(Said(t.trace))) == content && Messages(t.trace) == Kept(w, content))
  {
    hide RunTurn, Texts, Said, Messages, Replies;
    ReplyIsTold(w, content);
    TextsSpell(w, content);
  }

  /** In buffered mode the two agree exactly when the last reply asks for tools without naming any,
      has streamed nothing, or has streamed its own content. */
  lemma BufferedTextIsStoredIff(w: World, content: string)
    requires Replies(w, content) && !Splits(w, content) && !w.loop.realtime && Passes(w)
    ensures var (t, failed) := RunTurn(w);
            failed || t.silenced
            || (Concat(Words(Said(t.trace))) == content
                <==> !Final(LastCall(w)) || TextOf(LastCall(w).events) == []
                     || Concat(TextOf(LastCall(w).events)) == LastCall(w).content)
  {
    ReplyIsTold(w, content);
    BufferedWords(w, content);
    hide RunTurn, Texts, Said, Messages, Replies, Splits, LastCall;
  }

  lemma BufferedWords(w: World, content: string)
    requires Replies(w, content) && !Splits(w, content) && !w.loop.realtime && Passes(w)
    ensures Concat(Words(Texts(w, content))) == content
            <==> !Final(LastCall(w)) || TextOf(LastCall(w).events) == []
                 || Concat(TextOf(LastCall(w).events)) == LastCall(w).content
  {
    var cfg := LoopConfig(w, Passes(w));
    var n := Calls(cfg, w.ports, w.script);
    UnsplitWords(w, content);
    ConcatSingle(content);
    assert Concat([]) == "";
    BufferedShownIff(cfg, w.script, n, content);
    assert [] + TextOf(LastCall(w).events) == TextOf(LastCall(w).events);
  }
}
