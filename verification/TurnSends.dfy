/** Which of the events a turn sends its stream accepts, when some of the sends return an error. */
module TurnSends {

  import opened Sequences
  import opened Wrappers
  import opened Reasoning
  import opened Silence
  import opened ToolLoop
  import opened ToolTheorems
  import opened TurnStages
  import opened TurnTheorems
  import opened TurnOutput
  import opened TurnSilence
  import opened TurnReply

  function SentIn(s: Step): seq<Event>
  {
    if s.Send? then [s.event] else []
  }

  /** The events sent, in order: the k-th is the turn's send number k. */
  function Sent(trace: seq<Step>): seq<Event>
  {
    Flat(SentIn, trace)
  }

  /** The events whose send returned no error. */
  function Accepted(refused: set<nat>, events: seq<Event>): seq<Event>
  {
    if events == [] then []
    else
      var last := |events| - 1;
      Accepted(refused, events[..last]) + if last in refused then [] else [events[last]]
  }

  /** The text that the stream has accepted; what becomes of it there is not said. */
  function AcceptedText(w: World, trace: seq<Step>): string
  {
    Concat(Words(Accepted(w.refused, Sent(trace))))
  }

  // ---- the numbers of the sends ----

  /** The sends are counted, and the turn has sent these events. */
  predicate Counted(t: Turn, sent: seq<Event>)
  {
    t.sends == |sent| && Sent(t.trace) == sent
  }

  lemma EmitCounts(t: Turn, sent: seq<Event>, e: Event)
    requires Counted(t, sent)
    ensures Counted(Emitted(t, e), sent + [e])
  {
    FlatOne(SentIn, t.trace, Send(e));
  }

  lemma StoreCounts(t: Turn, sent: seq<Event>, content: string)
    requires Counted(t, sent)
    ensures Counted(Stored(t, content), sent)
  {
    FlatOne(SentIn, t.trace, Store(content));
    assert sent + [] == sent;
  }

  lemma {:induction false} DeltasCount(t: Turn, sent: seq<Event>, deltas: seq<string>)
    requires Counted(t, sent)
    ensures Counted(SendDeltas(t, deltas), sent + TurnReply.Deltas(deltas))
    decreases |deltas|
  {
    if deltas == [] {
      assert sent + TurnReply.Deltas(deltas) == sent;
    } else {
      EmitCounts(t, sent, StreamDelta(deltas[0]));
      DeltasCount(Emitted(t, StreamDelta(deltas[0])), sent + [StreamDelta(deltas[0])], deltas[1..]);
      assert sent + TurnReply.Deltas(deltas) == (sent + [StreamDelta(deltas[0])]) + TurnReply.Deltas(deltas[1..]);
    }
  }

  /** Events that are all accepted. */
  lemma {:induction false} SendsAccepted(w: World, t: Turn, sent: seq<Event>, events: seq<Event>)
    requires Counted(t, sent)
    ensures var (t1, ok) := SendAll(w, t, events);
            ok ==> Counted(t1, sent + events) && forall k :: |sent| <= k < |sent + events| ==> k !in w.refused
    decreases |events|
  {
    if events == [] {
      assert sent + events == sent;
    } else if t.sends !in w.refused {
      EmitCounts(t, sent, events[0]);
      SendsAccepted(w, Emitted(t, events[0]), sent + [events[0]], events[1..]);
      assert sent + events == (sent + [events[0]]) + events[1..];
    }
  }

  // ---- which sends may fail ----

  /** The deltas passed on while the model streams, and the number of the first one's send. */
  function Streamed(w: World): seq<Event>
  {
    TurnReply.Deltas(LoopShown(w, Passes(w)))
  }

  function FirstDelta(w: World): nat
  {
    if w.kind == ApprovalAction then 2 else 1
  }

  predicate IsDelta(w: World, k: nat)
  {
    FirstDelta(w) <= k < FirstDelta(w) + |Streamed(w)|
  }

  /** The deltas passed on stand where they should, and no other send has returned an error. */
  predicate RejectsDeltas(w: World, sent: seq<Event>)
  {
    && (Streamed(w) != [] ==> FirstDelta(w) + |Streamed(w)| <= |sent|
                              && sent[FirstDelta(w)..FirstDelta(w) + |Streamed(w)|] == Streamed(w))
    && forall k :: 0 <= k < |sent| && k in w.refused ==> IsDelta(w, k)
  }

  predicate OnlyDeltasRejected(w: World, t: Turn)
  {
    Counted(t, Sent(t.trace)) && RejectsDeltas(w, Sent(t.trace))
  }

  /** The first n sends have been made and accepted, and no others. */
  predicate Clear(w: World, t: Turn, n: nat)
  {
    Counted(t, Sent(t.trace)) && t.sends == n && forall k :: 0 <= k < n ==> k !in w.refused
  }

  lemma StoreRejects(w: World, t: Turn, content: string)
    requires OnlyDeltasRejected(w, t)
    ensures OnlyDeltasRejected(w, Stored(t, content))
  {
    hide RejectsDeltas;
    StoreCounts(t, Sent(t.trace), content);
  }

  lemma SameRejects(w: World, t: Turn, t1: Turn)
    requires OnlyDeltasRejected(w, t) && t1.trace == t.trace && t1.sends == t.sends
    ensures OnlyDeltasRejected(w, t1)
  {}

  lemma SendAllRejects(w: World, t: Turn, events: seq<Event>)
    requires OnlyDeltasRejected(w, t)
    ensures var (t1, ok) := SendAll(w, t, events); ok ==> OnlyDeltasRejected(w, t1)
  {
    var sent := Sent(t.trace);
    SendsAccepted(w, t, sent, events);
    var n := FirstDelta(w) + |Streamed(w)|;
    if Streamed(w) != [] {
      assert (sent + events)[FirstDelta(w)..n] == sent[FirstDelta(w)..n];
    }
  }

  lemma SendAllClear(w: World, t: Turn, n: nat, events: seq<Event>)
    requires Clear(w, t, n)
    ensures var (t1, ok) := SendAll(w, t, events); ok ==> Clear(w, t1, n + |events|)
  {
    SendsAccepted(w, t, Sent(t.trace), events);
  }

  /** The deltas go out right after the sends before them. */
  lemma DeltasRejects(w: World, t: Turn, n: nat)
    requires Clear(w, t, n) && (Passes(w) ==> n == FirstDelta(w))
    ensures OnlyDeltasRejected(w, SendDeltas(t, LoopShown(w, Passes(w))))
  {
    hide LoopShown, Passes, Sent;
    var sent, shown := Sent(t.trace), LoopShown(w, Passes(w));
    DeltasCount(t, sent, shown);
    if !Passes(w) {
      NothingShown(w);
      assert sent + Streamed(w) == sent;
    } else {
      assert (sent + Streamed(w))[n..n + |Streamed(w)|] == Streamed(w);
    }
  }

  lemma ConverseRejects(w: World, t: Turn, n: nat, defer: bool)
    requires Clear(w, t, n) && (Passes(w) ==> n == FirstDelta(w))
    ensures OnlyDeltasRejected(w, Converse(w, t, defer, Passes(w)).0)
  {
    hide LoopShown, LoopResult, SendDeltas, OnlyDeltasRejected, Clear;
    DeltasRejects(w, t, n);
    var t1 := SendDeltas(t, LoopShown(w, Passes(w)));
    if LoopResult(w, Passes(w)).Ok? {
      StoreRejects(w, t1, LoopResult(w, Passes(w)).value);
    }
  }

  // ---- through the stages ----

  /** No notice is shown instead of a reply. */
  predicate Unnoticed(w: World, t: Turn)
  {
    w.kind != ApprovalAction ==> t.notice.None? && w.prepared.notice.None?
  }

  lemma EngineRejects(w: World, t: Turn, n: nat, defer: bool)
    requires Clear(w, t, n) && (Passes(w) ==> n == FirstDelta(w)) && Unnoticed(w, t)
    ensures var (t1, answer) := EngineTurn(w, t, !w.memoryStages && w.kind != ApprovalAction, defer, Passes(w), None);
            answer.result == Err(EngineFailed) || OnlyDeltasRejected(w, t1)
  {
    hide Converse, OnlyDeltasRejected, Clear;
    ConverseRejects(w, t, n, defer);
  }

  lemma SpeakRejects(w: World, t: Turn, answer: Answer)
    requires OnlyDeltasRejected(w, t)
    ensures var (t1, r) := Speak(w, t, answer); r.failed || OnlyDeltasRejected(w, t1)
  {
    hide SendAll, RejectsDeltas, Segments;
    var (t1, begun) := if HoldsBack(w) then SendAll(w, t, [StreamStart]) else (t, true);
    SendAllRejects(w, t, [StreamStart]);
    if begun {
      SendAllRejects(w, t1, Segments(w));
    }
  }

  lemma MessageRejects(w: World, t: Turn)
    requires w.kind != ApprovalAction && Clear(w, t, 0) && Unnoticed(w, t)
    ensures var (t1, r) := MessageStage(w, t);
            (r.failed ==> r.outbound == []) && (r == Failing(Failed) || OnlyDeltasRejected(w, t1))
  {
    hide SendAll, EngineTurn, Speak, OnlyDeltasRejected, Clear, IsProactiveSilence;
    SendAllClear(w, t, 0, [StreamStart]);
    SendAllAdds(w, t, [StreamStart]);
    var (t1, begun) := Begun(w, t);
    if begun {
      EngineRejects(w, t1, if HoldsBack(w) then 0 else 1, w.memoryStages);
      var (t0, _) := EngineTurn(w, t1, !w.memoryStages, w.memoryStages, Listens(w), t1.notice);
      var (t2, answer) := Asked(w, t1);
      if answer.result != Err(EngineFailed) {
        SameRejects(w, t0, t2);
        SameRejects(w, t2, t2.(silenced := true, output := None, endAfterCommit := false));
        SpeakRejects(w, t2, answer);
        SpeakGoesOn(w, t2, answer);
      }
    }
  }

  lemma ResumeRejects(w: World, t: Turn)
    requires w.kind == ApprovalAction && Clear(w, t, 1)
    ensures var (t1, r) := ResumeStage(w, t);
            (r.failed ==> r.outbound == []) && (r == Failing(Failed) || OnlyDeltasRejected(w, t1))
  {
    hide SendAll, EngineTurn, OnlyDeltasRejected, Clear;
    SendAllClear(w, t, 1, [StreamStart]);
    var (t1, begun) := SendAll(w, t, [StreamStart]);
    if begun {
      EngineRejects(w, t1, 2, false);
    }
  }

  /** A stage's outbound events, after the stage itself. */
  lemma PassRejects(w: World, t: Turn, stage: Stage)
    requires var (t1, r) := RunStage(w, t, stage);
             (r.failed ==> r.outbound == []) && (r == Failing(Failed) || OnlyDeltasRejected(w, t1))
    ensures var p := Pass(w, t, stage); p.failed || OnlyDeltasRejected(w, p.turn)
  {
    hide RunStage, SendAll, OnlyDeltasRejected;
    var (t1, r) := RunStage(w, t, stage);
    var t2 := t1.(state := r.next);
    if OnlyDeltasRejected(w, t1) {
      SameRejects(w, t1, t2);
      SendAllRejects(w, t2, r.outbound);
      SendNothing(w, t2);
      var (t3, sent) := SendAll(w, t2, r.outbound);
      if sent {
        SameRejects(w, t3, t3.(state := ApprovalWait));
      }
    }
  }

  /** Before the stage that speaks no send has failed; after it none but those of deltas passed on. */
  predicate Phase(w: World, t: Turn, k: nat)
    requires k <= |Stages(w)|
  {
    if k == |Stages(w)| || Stages(w)[k] in {EmitApprovals, MemoryCommit} then OnlyDeltasRejected(w, t)
    else Unnoticed(w, t) && Clear(w, t, if Stages(w)[k] == Resume then 1 else 0)
  }

  lemma PassEarlyClear(w: World, t: Turn, stage: Stage)
    requires Unnoticed(w, t) && Clear(w, t, 0) && stage in Stages(w)
    requires stage in {Normalize, MemoryPrepare, EmotionPrepare, ApprovalApply}
    ensures var p := Pass(w, t, stage);
            (p.over ==> p.failed)
            && (!p.over ==> Unnoticed(w, p.turn) && Clear(w, p.turn, if stage == ApprovalApply then 1 else 0))
  {
    hide SendAll, Sent;
    var (t1, r) := RunStage(w, t, stage);
    var t2 := t1.(state := r.next);
    SendAllClear(w, t2, 0, r.outbound);
    SendAllAdds(w, t2, r.outbound);
  }

  lemma CommitRejects(w: World, t: Turn)
    requires OnlyDeltasRejected(w, t)
    ensures var p := Pass(w, t, MemoryCommit); p.failed || OnlyDeltasRejected(w, p.turn)
  {
    if t.output.Some? {
      StoreRejects(w, t, t.output.value);
    }
    hide Pass, RejectsDeltas, Sent;
    PassRejects(w, t, MemoryCommit);
  }

  lemma FailedIsOver(w: World, t: Turn, stage: Stage)
    ensures Pass(w, t, stage).failed ==> Pass(w, t, stage).over
  {
    hide RunStage, SendAll;
  }

  lemma PassPhase(w: World, t: Turn, k: nat)
    requires k < |Stages(w)| && Phase(w, t, k)
    ensures var p := Pass(w, t, Stages(w)[k]);
            if p.over then p.failed || OnlyDeltasRejected(w, p.turn) else Phase(w, p.turn, k + 1)
  {
    hide Pass, OnlyDeltasRejected, Clear, MessageStage, ResumeStage, MemoryCommitStage;
    FailedIsOver(w, t, Stages(w)[k]);
    match Stages(w)[k]
    case Message =>
      MessageRejects(w, t);
      PassRejects(w, t, Message);
    case Resume =>
      ResumeRejects(w, t);
      PassRejects(w, t, Resume);
    case MemoryCommit => CommitRejects(w, t);
    case EmitApprovals => PassRejects(w, t, EmitApprovals);
    case _ => PassEarlyClear(w, t, Stages(w)[k]);
  }

  lemma {:induction false} RunRejects(w: World, t: Turn, k: nat)
    requires k <= |Stages(w)| && Phase(w, t, k)
    ensures var (t1, failed) := RunStages(w, t, Stages(w)[k..]); failed || OnlyDeltasRejected(w, t1)
    decreases |Stages(w)| - k
  {
    hide Pass, OnlyDeltasRejected;
    if k < |Stages(w)| {
      PassPhase(w, t, k);
      var p := Pass(w, t, Stages(w)[k]);
      assert Stages(w)[k..][1..] == Stages(w)[k + 1..];
      if !p.over {
        RunRejects(w, p.turn, k + 1);
      }
    }
  }

  /** In a turn that does not fail, the only sends that can have returned an error are those of
      the deltas passed on, and it is known beforehand which numbers those have. */
  lemma OnlyDeltasAreRejected(w: World)
    requires w.kind != ApprovalAction ==> w.prepared.notice.None?
    ensures var (t, failed) := RunTurn(w); failed || OnlyDeltasRejected(w, t)
  {
    assert Stages(w)[0..] == Stages(w);
    RunRejects(w, NEW_TURN, 0);
  }

  // ---- the text accepted against the text stored ----

  predicate NoTextRejected(refused: set<nat>, events: seq<Event>)
  {
    forall k :: 0 <= k < |events| && k in refused ==> !IsText(events[k])
  }

  lemma NoneRejected(refused: set<nat>, events: seq<Event>)
    ensures NoTextRejected(refused, events)
            <==> events == [] || (var last := |events| - 1;
                                  NoTextRejected(refused, events[..last]) && (last in refused ==> !IsText(events[last])))
  {
    if events != [] {
      var init := events[..|events| - 1];
      assert forall k :: 0 <= k < |init| ==> init[k] == events[k];
    }
  }

  /** Leaving out text makes the whole shorter. */
  lemma {:induction false} RejectedTextIsMissed(refused: set<nat>, events: seq<Event>)
    requires forall e :: e in events && IsText(e) ==> e.text != ""
    ensures var (accepted, all) := (Concat(Words(Accepted(refused, events))), Concat(Words(events)));
            if NoTextRejected(refused, events) then accepted == all else |accepted| < |all|
  {
    hide Words, Concat, NoTextRejected;
    NoneRejected(refused, events);
    if events != [] {
      var last := |events| - 1;
      var init, e := events[..last], events[last];
      assert events == init + [e] && e in events;
      RejectedTextIsMissed(refused, init);
      WordsOne(init, e);
      WordsOne(Accepted(refused, init), e);
      if last in refused {
        assert Accepted(refused, init) + [] == Accepted(refused, init);
      }
    }
  }

  lemma WordsOne(events: seq<Event>, e: Event)
    ensures Concat(Words(events + [e])) == Concat(Words(events)) + if IsText(e) then e.text else ""
  {
    FlatOne(WordIn, events, e);
    if IsText(e) {
      ConcatOne(Words(events), e.text);
    } else {
      assert Words(events) + [] == Words(events);
    }
  }

  lemma {:induction false} SaidIsSent(trace: seq<Step>)
    ensures Words(Said(trace)) == Words(Sent(trace))
  {
    if trace != [] {
      var init, s := trace[..|trace| - 1], trace[|trace| - 1];
      SaidIsSent(init);
      FlatAppend(WordIn, Said(init), SaidIn(s));
      FlatAppend(WordIn, Sent(init), SentIn(s));
      assert SaidIn(s) == SentIn(s) || Words(SaidIn(s)) == Words(SentIn(s));
    }
  }

  lemma {:induction false} WordOf(events: seq<Event>, e: Event)
    requires e in events && IsText(e)
    ensures e.text in Words(events)
  {
    var last := |events| - 1;
    if e != events[last] {
      WordOf(events[..last], e);
    }
  }

  lemma ShownNotEmpty(w: World)
    ensures forall text :: text in LoopShown(w, Passes(w)) ==> text != ""
  {
    var cfg := LoopConfig(w, Passes(w));
    var n := Calls(cfg, w.ports, w.script);
    NonEmptyAllText(w.script, n);
    NonEmptyText(w.script(n - 1).events);
  }

  /** The send of a delta is the send of some text. */
  lemma RejectedDelta(w: World, t: Turn, k: nat)
    requires OnlyDeltasRejected(w, t) && IsDelta(w, k)
    ensures k < |Sent(t.trace)| && IsText(Sent(t.trace)[k])
  {
    hide LoopShown, Sent, Passes;
    var i := k - FirstDelta(w);
    assert Sent(t.trace)[FirstDelta(w)..FirstDelta(w) + |Streamed(w)|][i] == Sent(t.trace)[k];
    assert Streamed(w)[i].StreamDelta?;
  }

  lemma NoTextRejectedIff(w: World, t: Turn)
    requires OnlyDeltasRejected(w, t)
    ensures NoTextRejected(w.refused, Sent(t.trace)) <==> forall k :: k in w.refused ==> !IsDelta(w, k)
  {
    hide Sent, IsDelta, Streamed;
    forall k | k in w.refused && IsDelta(w, k) ensures !NoTextRejected(w.refused, Sent(t.trace)) {
      RejectedDelta(w, t, k);
    }
  }

  /** Whenever the text sent is the content stored, the text accepted is too exactly when no send of
      a delta passed on returns an error.  A turn goes on after such an error, and stores what was
      rejected; an error of any other send makes the turn fail. */
  lemma AcceptedTextIsStoredIff(w: World, content: string)
    requires Replies(w, content) && !Splits(w, content)
    requires w.loop.realtime || !Passes(w) || Spelled(LastCall(w))
    ensures var (t, failed) := RunTurn(w);
            failed || t.silenced
            || (Messages(t.trace) == TurnReply.Kept(w, content)
                && (AcceptedText(w, t.trace) == content <==> forall k :: k in w.refused ==> !IsDelta(w, k)))
  {
    OnlyDeltasAreRejected(w);
    ReplyIsTold(w, content);
    TextsSpell(w, content);
    var (t, failed) := RunTurn(w);
    if !failed && !t.silenced {
      hide RunTurn, Texts, Said, Sent, Messages, Replies, RejectsDeltas, LoopShown, Splits, LastCall, IsDelta, Words, Concat;
      SaidIsSent(t.trace);
      SentTextNotEmpty(w, t, content);
      RejectedTextIsMissed(w.refused, Sent(t.trace));
      NoTextRejectedIff(w, t);
    }
  }

  lemma SentTextNotEmpty(w: World, t: Turn, content: string)
    requires !Splits(w, content) && Words(Sent(t.trace)) == Words(Texts(w, content))
    ensures forall e :: e in Sent(t.trace) && IsText(e) ==> e.text != ""
  {
    hide LoopShown, Texts, Sent, Words;
    UnsplitWords(w, content);
    ShownNotEmpty(w);
    forall e | e in Sent(t.trace) && IsText(e) ensures e.text != "" {
      WordOf(Sent(t.trace), e);
    }
  }

  lemma {:induction false} AllAccepted(refused: set<nat>, events: seq<Event>)
    requires forall k :: 0 <= k < |events| ==> k !in refused
    ensures Accepted(refused, events) == events
  {
    if events != [] {
      AllAccepted(refused, events[..|events| - 1]);
    }
  }

  /** A reply whose deltas are not passed on, split into segments or not, is accepted as it was sent. */
  lemma HeldBackTextIsAccepted(w: World, content: string)
    requires Replies(w, content) && !Passes(w)
    ensures var (t, failed) := RunTurn(w);
            failed || t.silenced
            || (AcceptedText(w, t.trace) == Concat(Words(Texts(w, content)))
                && (!Splits(w, content) ==> AcceptedText(w, t.trace) == content))
  {
    OnlyDeltasAreRejected(w);
    ReplyIsTold(w, content);
    NothingShown(w);
    if !Splits(w, content) {
      TextsSpell(w, content);
    }
    var (t, failed) := RunTurn(w);
    if !failed {
      AllAccepted(w.refused, Sent(t.trace));
      hide RunTurn, Texts, Said, Sent, Words, Concat;
      SaidIsSent(t.trace);
    }
  }
}
