/** What a whole chat turn sends and stores, whatever happens around it. */
module TurnTheorems {

  import opened Sequences
  import opened Wrappers
  import opened Reasoning
  import opened Silence
  import opened ToolLoop
  import opened ToolTheorems
  import opened TurnStages

  // ---- what is looked for in a trace ----

  predicate IsEnd(s: Step)
  {
    s == Send(StreamEnd)
  }

  predicate IsApproval(s: Step)
  {
    s.Send? && (s.event.ApprovalUpdated? || s.event.ApprovalRequired?)
  }

  /** No end has been sent. */
  ghost predicate Unended(trace: seq<Step>)
  {
    forall s :: s in trace ==> !IsEnd(s)
  }

  /** One end has been sent, and after it came only approval events: no text, and no store. */
  ghost predicate EndedOnce(trace: seq<Step>)
  {
    exists k :: 0 <= k < |trace| && EndedAt(trace, k)
  }

  ghost predicate EndedAt(trace: seq<Step>, k: nat)
  {
    && k < |trace| && IsEnd(trace[k]) && Unended(trace[..k])
    && forall s :: s in trace[k + 1..] ==> IsApproval(s)
  }

  lemma UnendedAppend(a: seq<Step>, b: seq<Step>)
    requires Unended(a) && Unended(b)
    ensures Unended(a + b)
  {}

  lemma EndNow(trace: seq<Step>)
    requires Unended(trace)
    ensures EndedOnce(trace + [Send(StreamEnd)])
  {
    var after := trace + [Send(StreamEnd)];
    assert after[..|trace|] == trace && after[|trace| + 1..] == [];
    assert EndedAt(after, |trace|);
  }

  lemma ApprovalsAfterEnd(trace: seq<Step>, more: seq<Step>)
    requires EndedOnce(trace) && forall s :: s in more ==> IsApproval(s)
    ensures EndedOnce(trace + more)
  {
    var k :| 0 <= k < |trace| && EndedAt(trace, k);
    assert (trace + more)[..k] == trace[..k] && (trace + more)[k + 1..] == trace[k + 1..] + more;
    assert EndedAt(trace + more, k);
  }

  // ---- what each piece adds ----

  function Sends(events: seq<Event>): seq<Step>
  {
    seq(|events|, i requires 0 <= i < |events| => Send(events[i]))
  }

  /** Only what the turn has done has changed. */
  predicate SameTurn(t: Turn, t1: Turn)
  {
    t1 == t.(trace := t1.trace, sends := t1.sends)
  }

  lemma {:induction false} SendAllAdds(w: World, t: Turn, events: seq<Event>)
    ensures var (t1, ok) := SendAll(w, t, events);
            SameTurn(t, t1) && (ok ==> t1.trace == t.trace + Sends(events))
    decreases |events|
  {
    if events == [] {
      assert t.trace == t.trace + Sends(events);
    } else if t.sends !in w.refused {
      SendAllAdds(w, Emitted(t, events[0]), events[1..]);
      assert Sends(events) == [Send(events[0])] + Sends(events[1..]);
    }
  }

  function DeltaSteps(deltas: seq<string>): seq<Step>
  {
    seq(|deltas|, i requires 0 <= i < |deltas| => Send(StreamDelta(deltas[i])))
  }

  lemma {:induction false} SendDeltasAdds(t: Turn, deltas: seq<string>)
    ensures var t1 := SendDeltas(t, deltas);
            SameTurn(t, t1) && t1.trace == t.trace + DeltaSteps(deltas)
    decreases |deltas|
  {
    if deltas == [] {
      assert t.trace + DeltaSteps(deltas) == t.trace;
    } else {
      SendDeltasAdds(Emitted(t, StreamDelta(deltas[0])), deltas[1..]);
      assert DeltaSteps(deltas) == [Send(StreamDelta(deltas[0]))] + DeltaSteps(deltas[1..]);
    }
  }

  /** What the engine's loop and commit add: the deltas, and the content when it is stored here. */
  lemma ConverseAdds(w: World, t: Turn, defer: bool, callback: bool)
    ensures var (t1, answer) := Converse(w, t, defer, callback);
            && SameTurn(t, t1)
            && t1.trace == t.trace + DeltaSteps(LoopShown(w, callback))
                 + (if LoopResult(w, callback).Ok? && !defer && w.commit != NotSaved
                    then [Store(LoopResult(w, callback).value)] else [])
            && (answer.output.Some? ==> defer && answer.result == Ok(answer.output.value))
            && (answer.result.Ok? ==> LoopResult(w, callback) == Ok(answer.result.value) && (!defer ==> w.commit == Saved))
            && answer.streamed == (LoopShown(w, callback) != [])
  {
    SendDeltasAdds(t, LoopShown(w, callback));
  }

  lemma ConverseUnended(w: World, t: Turn, defer: bool, callback: bool)
    requires Unended(t.trace)
    ensures var (t1, answer) := Converse(w, t, defer, callback);
            SameTurn(t, t1) && Unended(t1.trace) && (answer.output.Some? ==> answer.result.Ok?)
  {
    var deltas := DeltaSteps(LoopShown(w, callback));
    UnendedAppend(t.trace, deltas);
    if LoopResult(w, callback).Ok? {
      UnendedAppend(t.trace + deltas, [Store(LoopResult(w, callback).value)]);
    }
    hide Converse, Unended, LoopShown, LoopResult;
    ConverseAdds(w, t, defer, callback);
  }

  lemma EngineUnended(w: World, t: Turn, persist: bool, defer: bool, callback: bool, prepared: Option<string>)
    requires Unended(t.trace)
    ensures var (t1, answer) := EngineTurn(w, t, persist, defer, callback, prepared);
            SameTurn(t, t1) && Unended(t1.trace) && (answer.output.Some? ==> answer.result.Ok?)
  {
    if persist && w.prepared.notice.Some? {
      UnendedAppend(t.trace, [Store(w.prepared.notice.value)]);
    }
    hide Converse, Unended;
    ConverseUnended(w, if persist then Noticed(w, t) else t, defer, callback);
  }

  // ---- the message stage ----

  lemma StartUnended(w: World, t: Turn)
    requires Unended(t.trace)
    ensures SameTurn(t, SendAll(w, t, [StreamStart]).0) && Unended(SendAll(w, t, [StreamStart]).0.trace)
  {
    SendAllAdds(w, t, [StreamStart]);
    SendAllUnended(w, t, [StreamStart]);
  }

  lemma SegmentsUnended(w: World, t: Turn)
    requires Unended(t.trace)
    ensures SameTurn(t, SendAll(w, t, Segments(w)).0) && Unended(SendAll(w, t, Segments(w)).0.trace)
  {
    SendAllAdds(w, t, Segments(w));
    SendAllUnended(w, t, Segments(w));
  }

  /** Speaking keeps the stream open and leaves its end to the outbound events or to the commit. */
  lemma SpeakShape(w: World, t: Turn, answer: Answer)
    requires Unended(t.trace) && !t.endAfterCommit && !t.silenced && (answer.result.Err? ==> t.output.None?)
    ensures var (t1, r) := Speak(w, t, answer);
            Unended(t1.trace) && !t1.silenced
            && (r.failed ==> r == Failing(Failed)) && (!r.failed ==> !r.terminal && Ready(w, t1, r))
  {
    hide SendAll, Segments;
    StartUnended(w, t);
    var (t1, begun) := if HoldsBack(w) then SendAll(w, t, [StreamStart]) else (t, true);
    SegmentsUnended(w, t1);
  }

  /** After the message stage: either the end is still to come after the commit, or it is the
      last of the stage's outbound events and there is nothing left to commit. */
  ghost predicate Ready(w: World, t: Turn, r: StageResult)
  {
    if t.endAfterCommit then
      w.memoryStages && StreamEnd !in r.outbound
    else
      (t.output.None? || !w.memoryStages) && |r.outbound| > 0 && r.outbound[|r.outbound| - 1] == StreamEnd
      && StreamEnd !in r.outbound[..|r.outbound| - 1]
  }

  /** Whether or not every event is accepted, none of them ends the stream. */
  lemma {:induction false} SendAllUnended(w: World, t: Turn, events: seq<Event>)
    requires Unended(t.trace) && StreamEnd !in events
    ensures Unended(SendAll(w, t, events).0.trace)
    decreases |events|
  {
    if events != [] {
      assert events == [events[0]] + events[1..];
      UnendedAppend(t.trace, [Send(events[0])]);
      if t.sends !in w.refused {
        SendAllUnended(w, Emitted(t, events[0]), events[1..]);
      }
    }
  }

  lemma AskedUnended(w: World, t: Turn)
    requires Unended(t.trace) && t.output.None?
    ensures var (t1, answer) := Asked(w, t);
            && t1 == t.(trace := t1.trace, sends := t1.sends, output := t1.output) && Unended(t1.trace)
            && (answer.result.Err? ==> t1.output.None?)
  {
    hide EngineTurn;
    EngineUnended(w, t, !w.memoryStages, w.memoryStages, Listens(w), t.notice);
  }

  lemma MessageShape(w: World, t: Turn)
    requires Unended(t.trace) && !t.endAfterCommit && !t.silenced && t.output.None?
    ensures var (t1, r) := MessageStage(w, t);
            && Unended(t1.trace)
            && (r.failed ==> r == Failing(Failed) && !t1.silenced)
            && (!r.failed && r.terminal ==> t1.silenced && r.outbound == [])
            && (!r.terminal ==> !t1.silenced && Ready(w, t1, r))
  {
    if t.notice.Some? && t.notice.value != "" {
      assert [StreamDelta(t.notice.value), StreamEnd][..1] == [StreamDelta(t.notice.value)];
    } else {
      hide SendAll, Asked, Speak, IsProactiveSilence, Ready, Unended;
      StartUnended(w, t);
      var (t1, begun) := Begun(w, t);
      if begun {
        AskedUnended(w, t1);
        var (t2, answer) := Asked(w, t1);
        if answer.result != Err(EngineFailed) {
          SpeakShape(w, t2, answer);
        }
      }
    }
  }
}
