/** A turn fails only when something outside it fails. */
module TurnProgress {

  import opened Sequences
  import opened Wrappers
  import opened Reasoning
  import opened Silence
  import opened ToolLoop
  import opened ToolTheorems
  import opened TurnStages
  import opened TurnTheorems
  import opened TurnOutput
  import opened TurnSilence
  import opened TurnReply
  import opened TurnSends

  /** No send returns an error, or none but those of deltas passed on. */
  predicate Accepts(w: World)
  {
    w.refused == {} || (Unnoticed(w, NEW_TURN) && forall k :: k in w.refused ==> IsDelta(w, k))
  }

  /** Everything around the turn works: no send fails but those of deltas, every read and write
      succeeds, and the model loop ends with content. */
  predicate Smooth(w: World, content: string)
  {
    && w.valid && w.prepared.ok && w.retrieved && w.ready && w.applied
    && Accepts(w) && w.commit == Saved && w.approvals.Some?
    && LoopResult(w, Passes(w)) == Ok(content)
  }

  lemma {:induction false} NothingRefused(w: World, t: Turn, events: seq<Event>)
    requires forall k :: t.sends <= k < t.sends + |events| ==> k !in w.refused
    ensures SendAll(w, t, events).1
    ensures SendAll(w, t, events).0.sends == t.sends + |events|
    decreases |events|
  {
    if events != [] {
      NothingRefused(w, Emitted(t, events[0]), events[1..]);
    }
  }

  /** Every failing send is behind. */
  predicate Behind(w: World, t: Turn)
  {
    forall k :: k in w.refused ==> k < t.sends
  }

  lemma RejectionIsBehind(w: World, t: Turn)
    requires Accepts(w) && (w.refused == {} || OnlyDeltasRejected(w, t))
    ensures Behind(w, t)
  {
    hide LoopShown;
  }

  lemma EngineAnswers(w: World, t: Turn, content: string, persist: bool, deferred: bool, prepared: Option<string>)
    requires Smooth(w, content)
    ensures EngineTurn(w, t, persist, deferred, Passes(w), prepared).1.result.Ok?
  {
    hide LoopResult, LoopShown, SendDeltas;
  }

  lemma SpeakSucceeds(w: World, t: Turn, answer: Answer)
    requires Behind(w, t)
    ensures !Speak(w, t, answer).1.failed
  {
    hide SendAll, Segments;
    NothingRefused(w, t, [StreamStart]);
    var (t1, _) := if HoldsBack(w) then SendAll(w, t, [StreamStart]) else (t, true);
    NothingRefused(w, t1, Segments(w));
  }

  lemma StartSucceeds(w: World, t: Turn, n: nat)
    requires Accepts(w) && (w.refused == {} || (Clear(w, t, n) && n < FirstDelta(w)))
    ensures SendAll(w, t, [StreamStart]).1
  {
    hide LoopShown;
    NothingRefused(w, t, [StreamStart]);
  }

  lemma MessageSucceeds(w: World, t: Turn, content: string)
    requires Smooth(w, content) && w.kind != ApprovalAction
    requires w.refused == {} || (Unnoticed(w, t) && Clear(w, t, 0))
    ensures !MessageStage(w, t).1.failed
  {
    hide SendAll, EngineTurn, Speak, IsProactiveSilence, LoopResult, Clear, OnlyDeltasRejected, IsDelta;
    StartSucceeds(w, t, 0);
    var (t1, _) := Begun(w, t);
    EngineAnswers(w, t1, content, !w.memoryStages, w.memoryStages, t1.notice);
    var (t2, answer) := Asked(w, t1);
    if w.refused != {} {
      SendAllClear(w, t, 0, [StreamStart]);
      SendAllAdds(w, t, [StreamStart]);
      EngineRejects(w, t1, if HoldsBack(w) then 0 else 1, w.memoryStages);
      var (t0, _) := EngineTurn(w, t1, !w.memoryStages, w.memoryStages, Listens(w), t1.notice);
      SameRejects(w, t0, t2);
    }
    RejectionIsBehind(w, t2);
    SpeakSucceeds(w, t2, answer);
  }

  lemma ResumeSucceeds(w: World, t: Turn, content: string)
    requires Smooth(w, content) && w.kind == ApprovalAction
    requires w.refused == {} || Clear(w, t, 1)
    ensures !ResumeStage(w, t).1.failed
  {
    hide SendAll, EngineTurn, LoopResult, Clear;
    StartSucceeds(w, t, 1);
    EngineAnswers(w, SendAll(w, t, [StreamStart]).0, content, false, false, None);
  }

  /** A stage that does not fail passes when its outbound events are accepted. */
  lemma PassSucceeds(w: World, t: Turn, stage: Stage)
    requires !RunStage(w, t, stage).1.failed && Behind(w, RunStage(w, t, stage).0)
    ensures !Pass(w, t, stage).failed
  {
    hide SendAll, RunStage;
    var (t1, r) := RunStage(w, t, stage);
    NothingRefused(w, t1.(state := r.next), r.outbound);
  }

  lemma EarlySucceeds(w: World, t: Turn, content: string, stage: Stage)
    requires Smooth(w, content) && stage in {Normalize, MemoryPrepare, EmotionPrepare, ApprovalApply}
    requires stage in Stages(w) && (w.refused == {} || Clear(w, t, 0))
    ensures !Pass(w, t, stage).failed
  {
    hide SendAll, LoopResult, LoopShown, TurnSends.Sent;
    var (t1, r) := RunStage(w, t, stage);
    NothingRefused(w, t1.(state := r.next), r.outbound);
  }

  /** The turn before its k-th stage, if there are deltas to lose. */
  predicate Goes(w: World, t: Turn, k: nat)
    requires k <= |Stages(w)|
  {
    w.refused == {} || TurnSends.Phase(w, t, k)
  }

  lemma StageSucceeds(w: World, t: Turn, content: string, k: nat)
    requires Smooth(w, content) && k < |Stages(w)| && Goes(w, t, k)
    ensures var p := Pass(w, t, Stages(w)[k]); !p.failed && (!p.over ==> Goes(w, p.turn, k + 1))
  {
    hide Pass, OnlyDeltasRejected, Clear, MessageStage, ResumeStage, LoopResult, IsDelta;
    if w.refused != {} {
      TurnSends.PassPhase(w, t, k);
    }
    match Stages(w)[k]
    case Message =>
      MessageSucceeds(w, t, content);
      if w.refused != {} {
        MessageRejects(w, t);
      }
      RejectionIsBehind(w, MessageStage(w, t).0);
      PassSucceeds(w, t, Message);
    case Resume =>
      ResumeSucceeds(w, t, content);
      if w.refused != {} {
        ResumeRejects(w, t);
      }
      RejectionIsBehind(w, ResumeStage(w, t).0);
      PassSucceeds(w, t, Resume);
    case MemoryCommit =>
      RejectionIsBehind(w, t);
      PassSucceeds(w, t, MemoryCommit);
    case EmitApprovals =>
      RejectionIsBehind(w, t);
      PassSucceeds(w, t, EmitApprovals);
    case _ => EarlySucceeds(w, t, content, Stages(w)[k]);
  }

  lemma {:induction false} StagesSucceed(w: World, t: Turn, content: string, k: nat)
    requires Smooth(w, content) && k <= |Stages(w)| && Goes(w, t, k)
    ensures !RunStages(w, t, Stages(w)[k..]).1
    decreases |Stages(w)| - k
  {
    hide Pass, Smooth, Goes;
    if k < |Stages(w)| {
      StageSucceeds(w, t, content, k);
      assert Stages(w)[k..][1..] == Stages(w)[k + 1..];
      if !Pass(w, t, Stages(w)[k]).over {
        StagesSucceed(w, Pass(w, t, Stages(w)[k]).turn, content, k + 1);
      }
    }
  }

  lemma StartsGoing(w: World, content: string)
    requires Smooth(w, content)
    ensures Goes(w, NEW_TURN, 0)
  {}

  /** When everything around it works a turn succeeds, and it either ends in silence, which only
      a reply of white space and markers can bring about, or ends its stream once. */
  lemma SmoothTurnSucceeds(w: World, content: string)
    requires Smooth(w, content)
    ensures !RunTurn(w).1
    ensures RunTurn(w).0.silenced ==> HoldsBack(w) && OnlyMarkers(Held(w).value)
    ensures !RunTurn(w).0.silenced ==> EndedOnce(RunTurn(w).0.trace)
  {
    hide RunStages, Smooth, OnlyMarkers, EndedOnce, Goes;
    StartsGoing(w, content);
    assert Stages(w)[0..] == Stages(w);
    StagesSucceed(w, NEW_TURN, content, 0);
    OneStreamEnd(w);
    SilencedIff(w);
  }

  /** A rejected delta is no failure: when all else works the turn stores its reply whole, and the
      text accepted is the same exactly when no send returns an error. */
  lemma RejectedDeltasAreStored(w: World, content: string)
    requires Smooth(w, content) && Unnoticed(w, NEW_TURN) && !Splits(w, content)
    requires w.loop.realtime || !Passes(w) || Spelled(LastCall(w))
    ensures var (t, failed) := RunTurn(w);
            !failed && (t.silenced || (Messages(t.trace) == TurnReply.Kept(w, content)
                                       && (AcceptedText(w, t.trace) == content <==> w.refused == {})))
  {
    hide RunTurn, Splits, LastCall, AcceptedText, Messages, IsDelta;
    SmoothTurnSucceeds(w, content);
    AcceptedTextIsStoredIff(w, content);
    if w.refused != {} {
      var k :| k in w.refused;
    }
  }

  const AB := Reply([StreamEvent("", "a", false), StreamEvent("", "b", false)], "ab", "", None)

  /** A user's message in whose turn the send of the second delta returns an error, and no other. */
  const ONE_REJECTED := World(UserMessage, true, false, false, false, Config(true, true, false, false, false), Ports(true, true),
                       {2}, Prepared(true, None), true, true, _ => AB, [], 0, Saved, true, Some([]))

  lemma TwoDeltas()
    ensures TextOf(AB.events) == ["a", "b"] && Concat(TextOf(AB.events)) == "ab"
  {
    var a, b := AB.events[0], AB.events[1];
    FlatOne(Text, [], a);
    FlatOne(Text, [a], b);
    assert [] + [a] == [a] && [a] + [b] == AB.events;
    ConcatSingle("a");
    ConcatOne(["a"], "b");
    assert ["a"] + ["b"] == ["a", "b"];
  }

  lemma TwoDeltasReply()
    ensures LoopResult(ONE_REJECTED, true) == Ok("ab") && LoopShown(ONE_REJECTED, true) == ["a", "b"]
  {
    hide TextOf, Concat;
    TwoDeltas();
    var script := ONE_REJECTED.script;
    assert script(0) == AB;
    CallsUnique(LoopConfig(ONE_REJECTED, true), ONE_REJECTED.ports, script, 0);
    assert ToolLoop.AllText(script, 1) == ["a", "b"];
    TextSoFarIs(script, 1);
  }

  /** The turn succeeds and stores "ab", which is not what the stream accepted. */
  lemma RejectedDeltaIsStored()
    ensures var (t, failed) := RunTurn(ONE_REJECTED); !failed && Messages(t.trace) == ["ab"] && AcceptedText(ONE_REJECTED, t.trace) != "ab"
  {
    TwoDeltasReply();
    hide LoopResult, LoopShown, RunTurn, Messages, AcceptedText;
    assert Smooth(ONE_REJECTED, "ab");
    SmoothTurnSucceeds(ONE_REJECTED, "ab");
    RejectedDeltasAreStored(ONE_REJECTED, "ab");
  }
}
