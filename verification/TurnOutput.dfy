/** The order of a turn's output: its one end, its silence, and what is shown against what is stored. */
module TurnOutput {

  import opened Sequences
  import opened Wrappers
  import opened Reasoning
  import opened Silence
  import opened ToolLoop
  import opened ToolTheorems
  import opened TurnStages
  import opened TurnTheorems

  // ---- a turn between its stages ----

  /** Before the reply: nothing has ended, nothing waits to be committed. */
  ghost predicate Before(t: Turn)
  {
    Unended(t.trace) && !t.endAfterCommit && !t.silenced && t.output.None?
  }

  /** Before the commit: the end waits for it, or has been sent and there is nothing to commit. */
  ghost predicate Waiting(t: Turn)
  {
    !t.silenced && if t.endAfterCommit then Unended(t.trace) else EndedOnce(t.trace) && t.output.None?
  }

  ghost predicate After(t: Turn)
  {
    !t.silenced && EndedOnce(t.trace)
  }

  ghost predicate Phase(w: World, t: Turn, k: nat)
    requires k <= |Stages(w)|
  {
    if k == |Stages(w)| || Stages(w)[k] == EmitApprovals then After(t)
    else if Stages(w)[k] == MemoryCommit then Waiting(t)
    else Before(t)
  }

  /** A turn that is over has failed, has been silenced, or has ended its stream once. */
  ghost predicate Settled(p: Passed)
  {
    p.failed || p.turn.silenced || EndedOnce(p.turn.trace)
  }

  lemma PassEarly(w: World, t: Turn, stage: Stage)
    requires Before(t) && stage in {Normalize, MemoryPrepare, EmotionPrepare, ApprovalApply}
    ensures var p := Pass(w, t, stage);
            !p.turn.silenced && (p.over ==> p.failed) && (!p.over ==> Before(p.turn))
  {
    hide SendAll;
    var (t1, r) := RunStage(w, t, stage);
    if w.prepared.notice.Some? {
      UnendedAppend(t.trace, [Store(w.prepared.notice.value)]);
    }
    SendAllAdds(w, t1.(state := r.next), r.outbound);
    SendAllUnended(w, t1.(state := r.next), r.outbound);
  }

  /** The outbound events of the message stage, when they are all accepted. */
  lemma ReadySent(w: World, t: Turn, r: StageResult)
    requires Unended(t.trace) && !t.silenced && Ready(w, t, r)
    ensures var (t1, ok) := SendAll(w, t, r.outbound);
            SameTurn(t, t1) && (ok ==> if w.memoryStages then Waiting(t1) else After(t1))
  {
    var (t1, ok) := SendAll(w, t, r.outbound);
    SendAllAdds(w, t, r.outbound);
    if ok && t.endAfterCommit {
      SendAllUnended(w, t, r.outbound);
    } else if ok {
      var last := |r.outbound| - 1;
      assert Sends(r.outbound) == Sends(r.outbound[..last]) + [Send(StreamEnd)];
      assert t.trace + Sends(r.outbound) == (t.trace + Sends(r.outbound[..last])) + [Send(StreamEnd)];
      EndNow(t.trace + Sends(r.outbound[..last]));
    }
  }

  lemma SendNothing(w: World, t: Turn)
    ensures SendAll(w, t, []) == (t, true)
  {}

  lemma ReadyLater(w: World, t: Turn, r: StageResult, state: State)
    requires Ready(w, t, r)
    ensures Ready(w, t.(state := state), r)
  {}

  lemma PassMessage(w: World, t: Turn)
    requires Before(t)
    ensures var p := Pass(w, t, Message);
            && (p.over ==> p.failed || p.turn.silenced)
            && (!p.over ==> if w.memoryStages then Waiting(p.turn) else After(p.turn))
  {
    hide SendAll, MessageStage, Ready, Unended, EndedOnce;
    var (t1, r) := MessageStage(w, t);
    var t2 := t1.(state := r.next);
    MessageShape(w, t);
    SendNothing(w, t2);
    if !r.terminal {
      ReadyLater(w, t1, r, r.next);
      ReadySent(w, t2, r);
    }
  }

  lemma PassCommit(w: World, t: Turn)
    requires Waiting(t)
    ensures var p := Pass(w, t, MemoryCommit);
            (p.over ==> p.failed) && (!p.over ==> After(p.turn))
  {
    hide SendAll, EndedOnce;
    var (t1, r) := MemoryCommitStage(w, t);
    var t2 := t1.(state := r.next);
    SendNothing(w, t2);
    SendAllAdds(w, t2, [StreamEnd]);
    if t.output.Some? {
      UnendedAppend(t.trace, [Store(t.output.value)]);
    }
    if t.endAfterCommit {
      assert Sends([StreamEnd]) == [Send(StreamEnd)];
      EndNow(t1.trace);
    }
  }

  lemma PassResume(w: World, t: Turn)
    requires Before(t)
    ensures var p := Pass(w, t, Resume);
            (p.over ==> p.failed) && (!p.over ==> After(p.turn))
  {
    hide SendAll, EngineTurn, EndedOnce;
    StartUnended(w, t);
    var (t1, begun) := SendAll(w, t, [StreamStart]);
    EngineUnended(w, t1, false, false, true, None);
    var (t2, r) := ResumeStage(w, t);
    SendNothing(w, t2.(state := r.next));
    if !r.failed {
      ResumeReady(w, t2.(state := r.next), r);
    }
  }

  lemma ResumeReady(w: World, t: Turn, r: StageResult)
    requires Unended(t.trace) && !t.silenced
    requires |r.outbound| > 0 && r.outbound[|r.outbound| - 1] == StreamEnd
    requires StreamEnd !in r.outbound[..|r.outbound| - 1]
    ensures var (t1, ok) := SendAll(w, t, r.outbound); SameTurn(t, t1) && (ok ==> After(t1))
  {
    var last := |r.outbound| - 1;
    SendAllAdds(w, t, r.outbound);
    assert Sends(r.outbound) == Sends(r.outbound[..last]) + [Send(StreamEnd)];
    assert t.trace + Sends(r.outbound) == (t.trace + Sends(r.outbound[..last])) + [Send(StreamEnd)];
    EndNow(t.trace + Sends(r.outbound[..last]));
  }

  lemma PassApprovals(w: World, t: Turn)
    requires After(t)
    ensures var p := Pass(w, t, EmitApprovals); p.over && (p.failed || After(p.turn))
  {
    hide SendAll, EndedOnce;
    var (t1, r) := EmitApprovalsStage(w, t);
    SendNothing(w, t1.(state := r.next));
    SendAllAdds(w, t1.(state := r.next), r.outbound);
    ApprovalsAfterEnd(t.trace, Sends(r.outbound));
  }

  /** Each stage takes the turn from its phase to the next one's, or settles it. */
  lemma PassPhase(w: World, t: Turn, k: nat)
    requires k < |Stages(w)| && Phase(w, t, k)
    ensures var p := Pass(w, t, Stages(w)[k]);
            if p.over then Settled(p) else Phase(w, p.turn, k + 1)
  {
    hide Pass, Unended, EndedOnce;
    match Stages(w)[k]
    case Message => PassMessage(w, t);
    case MemoryCommit => PassCommit(w, t);
    case EmitApprovals => PassApprovals(w, t);
    case Resume => PassResume(w, t);
    case _ => PassEarly(w, t, Stages(w)[k]);
  }

  lemma {:induction false} RunSettles(w: World, t: Turn, k: nat)
    requires k <= |Stages(w)| && Phase(w, t, k)
    ensures var (t1, failed) := RunStages(w, t, Stages(w)[k..]); failed || t1.silenced || EndedOnce(t1.trace)
    decreases |Stages(w)| - k
  {
    if k < |Stages(w)| {
      PassPhase(w, t, k);
      var p := Pass(w, t, Stages(w)[k]);
      assert Stages(w)[k..][1..] == Stages(w)[k + 1..];
      if !p.over {
        RunSettles(w, p.turn, k + 1);
      }
    }
  }

  /** Every turn that does not fail and does not end in silence sends exactly one stream end;
      nothing is stored after it, and nothing but approval events is sent after it. */
  lemma OneStreamEnd(w: World)
    ensures var (t, failed) := RunTurn(w); failed || t.silenced || EndedOnce(t.trace)
  {
    assert Before(NEW_TURN);
    assert Stages(w)[0..] == Stages(w);
    RunSettles(w, NEW_TURN, 0);
  }
}
