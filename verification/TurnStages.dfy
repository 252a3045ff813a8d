/** The stages of a chat turn: what each sends, what it stores, and how the turn goes on. */
module TurnStages {

  import opened Wrappers
  import opened Reasoning
  import opened Silence
  import opened ToolLoop

  datatype Event =
    | StreamStart
    | StreamDelta(text: string)
    | AssistantSegment(text: string)
    | StreamEnd
    | ApprovalUpdated
    | ApprovalRequired

  /** What a turn does to the outside: it sends events and stores assistant messages. */
  datatype Step = Send(event: Event) | Store(content: string)

  datatype State =
    | Created | Normalizing | MemoryPrepared | EmotionPrepared | RunningEmotion
    | Done | Failed | ApprovalWait | CommitFailedAfterOutput

  datatype Kind = UserMessage | ApprovalAction | ProactivePrompt

  datatype Commit = Saved | NotSaved | SavedThenFailed

  /** Storing the user's message: a failure, or success with perhaps a notice to show instead
      of a reply.  A notice is stored as an assistant message at once. */
  datatype Prepared = Prepared(ok: bool, notice: Option<string>)

  /** The inbound message, the configuration, and how everything outside the turn answers. */
  datatype World = World(
    kind: Kind,
    valid: bool,
    memoryStages: bool,
    silentTermination: bool,
    replyDelivery: bool,
    loop: Config,
    ports: Ports,
    refused: set<nat>,             // which sends fail, by number
    prepared: Prepared,
    retrieved: bool,
    ready: bool,
    script: nat -> ModelCall,
    segments: seq<string>,         // the delivery plan's segments
    cancelledAfter: nat,           // segments delivered before the request is cancelled
    commit: Commit,
    applied: bool,
    approvals: Option<seq<bool>>)  // the session's approvals, whether each is pending

  datatype Turn = Turn(
    state: State,
    notice: Option<string>,
    output: Option<string>,
    endAfterCommit: bool,
    silenced: bool,
    trace: seq<Step>,
    sends: nat)

  const NEW_TURN := Turn(Created, None, None, false, false, [], 0)

  datatype StageResult = StageResult(next: State, terminal: bool, waiting: bool, failed: bool, outbound: seq<Event>)

  function NextStage(next: State, outbound: seq<Event>): StageResult
  {
    StageResult(next, false, false, false, outbound)
  }

  function Failing(next: State): StageResult
  {
    StageResult(next, true, false, true, [])
  }

  // ---- sending and storing ----

  function Emitted(t: Turn, e: Event): Turn
  {
    t.(trace := t.trace + [Send(e)], sends := t.sends + 1)
  }

  /** Send the events until one is refused. */
  function SendAll(w: World, t: Turn, events: seq<Event>): (Turn, bool)
    decreases |events|
  {
    if events == [] then (t, true)
    else if t.sends in w.refused then (Emitted(t, events[0]), false)
    else SendAll(w, Emitted(t, events[0]), events[1..])
  }

  /** Send deltas, whether they are refused or not. */
  function SendDeltas(t: Turn, deltas: seq<string>): Turn
    decreases |deltas|
  {
    if deltas == [] then t else SendDeltas(Emitted(t, StreamDelta(deltas[0])), deltas[1..])
  }

  function Stored(t: Turn, content: string): Turn
  {
    t.(trace := t.trace + [Store(content)])
  }

  function Committed(w: World, t: Turn, content: string): (Turn, bool)
  {
    (if w.commit == NotSaved then t else Stored(t, content), w.commit == Saved)
  }

  function Noticed(w: World, t: Turn): Turn
  {
    if w.prepared.notice.Some? then Stored(t, w.prepared.notice.value) else t
  }

  // ---- the engine's turn ----

  datatype Failure = EngineFailed | Pending

  datatype Answer = Answer(result: Result<string, Failure>, streamed: bool, output: Option<string>)

  function LoopConfig(w: World, callback: bool): Config
  {
    w.loop.(callback := callback)
  }

  function LoopResult(w: World, callback: bool): Result<string, TurnError>
  {
    var cfg := LoopConfig(w, callback);
    Ending(cfg, w.script, Calls(cfg, w.ports, w.script))
  }

  function LoopShown(w: World, callback: bool): seq<string>
  {
    var cfg := LoopConfig(w, callback);
    Shown(cfg, w.script, Calls(cfg, w.ports, w.script))
  }

  /** Run the model loop and hand on its content: to a later stage, or to the store. */
  function Converse(w: World, t: Turn, defer: bool, callback: bool): (Turn, Answer)
  {
    var shown := LoopShown(w, callback);
    var t1 := SendDeltas(t, shown);
    match LoopResult(w, callback)
    case Err(e) => (t1, Answer(Err(if e == ApprovalPending then Pending else EngineFailed), shown != [], None))
    case Ok(content) =>
      if defer then (t1, Answer(Ok(content), shown != [], Some(content)))
      else
        var (t2, ok) := Committed(w, t1, content);
        (t2, Answer(if ok then Ok(content) else Err(EngineFailed), shown != [], None))
  }

  /** One call of the engine.  `prepared` is the notice an earlier stage was given. */
  function EngineTurn(w: World, t: Turn, persist: bool, defer: bool, callback: bool, prepared: Option<string>): (Turn, Answer)
  {
    if persist && !w.prepared.ok then (Noticed(w, t), Answer(Err(EngineFailed), false, None))
    else
      var t1 := if persist then Noticed(w, t) else t;
      var notice := if persist then w.prepared.notice else prepared;
      if notice.Some? then (t1, Answer(Ok(notice.value), false, None))
      else if !w.ready then (t1, Answer(Err(EngineFailed), false, None))
      else Converse(w, t1, defer, callback)
  }

  // ---- the stages ----

  function NormalizeStage(w: World, t: Turn): (Turn, StageResult)
  {
    (t, if w.valid then NextStage(Normalizing, []) else Failing(Failed))
  }

  function MemoryPrepareStage(w: World, t: Turn): (Turn, StageResult)
  {
    if w.kind == ProactivePrompt then (t, NextStage(MemoryPrepared, []))
    else if !w.prepared.ok then (Noticed(w, t), Failing(Failed))
    else (Noticed(w, t).(notice := w.prepared.notice), NextStage(MemoryPrepared, []))
  }

  function EmotionPrepareStage(w: World, t: Turn): (Turn, StageResult)
  {
    (t, if t.notice.Some? || w.retrieved then NextStage(EmotionPrepared, []) else Failing(Failed))
  }

  /** A proactive turn that may still end in silence holds its output back. */
  predicate HoldsBack(w: World)
  {
    w.kind == ProactivePrompt && w.silentTermination
  }

  function Segments(w: World): seq<Event>
  {
    var n := if w.cancelledAfter < |w.segments| then w.cancelledAfter else |w.segments|;
    seq(n, i requires 0 <= i < n => AssistantSegment(w.segments[i]))
  }

  /** The turn has decided to speak: it sends what it has not sent yet. */
  function Speak(w: World, t: Turn, answer: Answer): (Turn, StageResult)
  {
    var (t1, begun) := if HoldsBack(w) then SendAll(w, t, [StreamStart]) else (t, true);
    if !begun then (t1, Failing(Failed))
    else
      var reply := if answer.result.Ok? then answer.result.value else "";
      var split := w.replyDelivery && reply != "" && |w.segments| > 1;
      var (t2, delivered) := if split then SendAll(w, t1, Segments(w)) else (t1, true);
      if !delivered then (t2, Failing(Failed))
      else
        var rest := if !split && !answer.streamed && reply != "" then [StreamDelta(reply)] else [];
        (if answer.result.Ok? && w.memoryStages then t2.(endAfterCommit := true) else t2, Spoken(w, answer, rest))
  }

  /** The result of a stage that has spoken: the end is left to the commit, or comes last. */
  function Spoken(w: World, answer: Answer, rest: seq<Event>): StageResult
  {
    if answer.result.Ok? && w.memoryStages then NextStage(Done, rest)
    else if answer.result.Ok? then NextStage(Done, rest + [StreamEnd])
    else StageResult(ApprovalWait, false, true, false, rest + [StreamEnd])
  }

  /** A turn that does not hold its output back begins its stream before it asks the engine. */
  function Begun(w: World, t: Turn): (Turn, bool)
  {
    if HoldsBack(w) then (t, true) else SendAll(w, t, [StreamStart])
  }

  /** Whether deltas are passed on as they come. */
  predicate Listens(w: World)
  {
    !w.replyDelivery && !HoldsBack(w)
  }

  function Asked(w: World, t: Turn): (Turn, Answer)
  {
    var (t1, answer) := EngineTurn(w, t, !w.memoryStages, w.memoryStages, Listens(w), t.notice);
    (if w.memoryStages then t1.(output := answer.output) else t1, answer)
  }

  /** Fail, end in silence, or speak. */
  function Answered(w: World, t: Turn, answer: Answer): (Turn, StageResult)
  {
    if answer.result == Err(EngineFailed) then (t, Failing(Failed))
    else if answer.result.Ok? && HoldsBack(w) && IsProactiveSilence(answer.result.value) then
      (t.(silenced := true, output := None, endAfterCommit := false), StageResult(Done, true, false, false, []))
    else Speak(w, t, answer)
  }

  function MessageStage(w: World, t: Turn): (Turn, StageResult)
  {
    if t.notice.Some? && t.notice.value != "" then (t, NextStage(Done, [StreamDelta(t.notice.value), StreamEnd]))
    else
      var (t1, begun) := Begun(w, t);
      if !begun then (t1, Failing(Failed))
      else
        var (t2, answer) := Asked(w, t1);
        Answered(w, t2, answer)
  }

  function MemoryCommitStage(w: World, t: Turn): (Turn, StageResult)
  {
    var end := if t.endAfterCommit then [StreamEnd] else [];
    if t.output.None? || t.output.value == "" then (t.(endAfterCommit := false), NextStage(t.state, end))
    else
      var (t1, ok) := Committed(w, t, t.output.value);
      if ok then (t1.(endAfterCommit := false), NextStage(t.state, end)) else (t1, Failing(CommitFailedAfterOutput))
  }

  function ApprovalEvents(pending: seq<bool>): seq<Event>
  {
    seq(|pending|, i requires 0 <= i < |pending| => if pending[i] then ApprovalRequired else ApprovalUpdated)
  }

  function EmitApprovalsStage(w: World, t: Turn): (Turn, StageResult)
  {
    (t, match w.approvals
        case None => StageResult(t.state, true, t.state == ApprovalWait, true, [])
        case Some(pending) => StageResult(t.state, true, t.state == ApprovalWait, false, ApprovalEvents(pending)))
  }

  function ApprovalApplyStage(w: World, t: Turn): (Turn, StageResult)
  {
    if w.applied then (t.(notice := None, output := None, endAfterCommit := false), NextStage(RunningEmotion, [ApprovalUpdated]))
    else (t, Failing(Failed))
  }

  function ResumeStage(w: World, t: Turn): (Turn, StageResult)
  {
    var (t1, begun) := SendAll(w, t, [StreamStart]);
    if !begun then (t1, Failing(Failed))
    else
      var (t2, answer) := EngineTurn(w, t1, false, false, true, None);
      if answer.result == Err(EngineFailed) then (t2, Failing(Failed))
      else
        var rest := if answer.result.Ok? && !answer.streamed && answer.result.value != ""
                    then [StreamDelta(answer.result.value)] else [];
        (t2, if answer.result.Ok? then NextStage(Done, rest + [StreamEnd])
             else StageResult(ApprovalWait, false, true, false, rest + [StreamEnd]))
  }

  datatype Stage = Normalize | MemoryPrepare | EmotionPrepare | Message | MemoryCommit | EmitApprovals | ApprovalApply | Resume

  function Stages(w: World): seq<Stage>
  {
    match w.kind
    case ApprovalAction => [Normalize, ApprovalApply, Resume, EmitApprovals]
    case ProactivePrompt =>
      if w.memoryStages then [Normalize, MemoryPrepare, EmotionPrepare, Message, MemoryCommit]
      else [Normalize, Message]
    case UserMessage =>
      if w.memoryStages then [Normalize, MemoryPrepare, EmotionPrepare, Message, MemoryCommit, EmitApprovals]
      else [Normalize, Message, EmitApprovals]
  }

  function RunStage(w: World, t: Turn, stage: Stage): (Turn, StageResult)
  {
    match stage
    case Normalize => NormalizeStage(w, t)
    case MemoryPrepare => MemoryPrepareStage(w, t)
    case EmotionPrepare => EmotionPrepareStage(w, t)
    case Message => MessageStage(w, t)
    case MemoryCommit => MemoryCommitStage(w, t)
    case EmitApprovals => EmitApprovalsStage(w, t)
    case ApprovalApply => ApprovalApplyStage(w, t)
    case Resume => ResumeStage(w, t)
  }

  // ---- the runtime ----

  /** One stage and its outbound events: the turn after it, whether it is over, and whether in failure. */
  datatype Passed = Passed(turn: Turn, over: bool, failed: bool)

  function Pass(w: World, t: Turn, stage: Stage): Passed
  {
    var (t1, r) := RunStage(w, t, stage);
    var (t2, sent) := SendAll(w, t1.(state := r.next), r.outbound);
    if r.failed || !sent then
      var state := if r.failed then r.next else Failed;
      if r.failed && r.terminal && (state == ApprovalWait || r.waiting) then Passed(t2.(state := state), true, false)
      else Passed(t2.(state := if state == ApprovalWait then Failed else state), true, true)
    else Passed(t2, r.terminal, false)
  }

  function RunStages(w: World, t: Turn, stages: seq<Stage>): (Turn, bool)
    decreases |stages|
  {
    if stages == [] then (t, false)
    else
      var p := Pass(w, t, stages[0]);
      if p.over then (p.turn, p.failed) else RunStages(w, p.turn, stages[1..])
  }

  /** A whole turn, and whether it failed. */
  function RunTurn(w: World): (Turn, bool)
  {
    RunStages(w, NEW_TURN, Stages(w))
  }
}
