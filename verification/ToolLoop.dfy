/** One chat turn's loop over model calls: streaming, tools, and one retry after an overflow. */
module ToolLoop {

  import opened Sequences
  import opened Wrappers
  import opened Reasoning

  const MAX_TOOL_ROUNDS := 10

  datatype StreamEvent = StreamEvent(reasoning: string, content: string, toolBlock: bool)

  /** What running the requested tools leads to: how many calls the reply holds, whether one of
      them is blocked on approval, whether that approval can be created, and whether approvals
      changed under the turn. */
  datatype Tools = Tools(calls: nat, blocked: bool, created: bool, interrupted: bool)

  datatype ModelCall =
    | Overflow(events: seq<StreamEvent>, compacts: bool)
    | Failure(events: seq<StreamEvent>)
    | Reply(events: seq<StreamEvent>, content: string, reasoning: string, tools: Option<Tools>)

  datatype Config = Config(realtime: bool, callback: bool, dispatcher: bool, coordinator: bool, approvals: bool)

  datatype TurnError = ModelFailed | ToolsDisabled | TooManyRounds | NoCoordinator | NotCreated | ApprovalPending

  // ---- the stream of one call ----

  function Text(e: StreamEvent): seq<string>
  {
    if e.content != "" then [e.content] else []
  }

  /** The visible deltas of a stream. */
  function TextOf(events: seq<StreamEvent>): seq<string>
  {
    Flat(Text, events)
  }

  function ReasoningCalls(e: StreamEvent): seq<Call>
  {
    (if e.reasoning != "" then [Call.OnDelta(e.reasoning)] else [])
    + (if e.content != "" then [OnEnd] else [])
    + (if e.toolBlock then [OnEnd] else [])
  }

  function ReasoningOf(call: ModelCall): seq<Call>
  {
    Flat(ReasoningCalls, call.events) + if call.Reply? then [OnComplete(call.reasoning)] else []
  }

  // ---- which calls are followed by another ----

  function Overflows(script: nat -> ModelCall, n: nat): (k: nat)
    ensures k <= n
  {
    if n == 0 then 0 else Overflows(script, n - 1) + if script(n - 1).Overflow? then 1 else 0
  }

  /** The round of the n-th call: a retry does not count. */
  function Round(script: nat -> ModelCall, n: nat): nat
  {
    n - Overflows(script, n)
  }

  /** Tools are run and followed by another model call. */
  predicate ToolsProceed(cfg: Config, ports: Ports, round: nat, tools: Tools)
  {
    && cfg.dispatcher && round < MAX_TOOL_ROUNDS
    && tools.calls > 0 && !tools.blocked && !(ports.writer && cfg.approvals && tools.interrupted)
  }

  /** How a reply that asks for tools ends the loop when they are not followed by a call. */
  function ToolsEnding(cfg: Config, round: nat, tools: Tools, content: string): Result<string, TurnError>
  {
    if !cfg.dispatcher then Err(ToolsDisabled)
    else if round >= MAX_TOOL_ROUNDS then Err(TooManyRounds)
    else if tools.calls == 0 then Ok(content)
    else if tools.blocked && !cfg.coordinator then Err(NoCoordinator)
    else if tools.blocked && !tools.created then Err(NotCreated)
    else Err(ApprovalPending)
  }

  /** A call is followed by another: the first overflow when the history can be compacted, and
      a tool round within the limit that needs no approval. */
  predicate Proceeds(cfg: Config, ports: Ports, round: nat, retried: bool, call: ModelCall)
  {
    match call
    case Overflow(_, compacts) => !retried && compacts
    case Failure(_) => false
    case Reply(_, _, _, tools) => tools.Some? && ToolsProceed(cfg, ports, round, tools.value)
  }

  predicate Continues(cfg: Config, ports: Ports, script: nat -> ModelCall, n: nat)
  {
    Proceeds(cfg, ports, Round(script, n), Overflows(script, n) > 0, script(n))
  }

  /** The deltas of the first n calls. */
  function AllText(script: nat -> ModelCall, n: nat): seq<string>
  {
    if n == 0 then [] else AllText(script, n - 1) + TextOf(script(n - 1).events)
  }

  /** The text of the first n calls. */
  function TextSoFar(script: nat -> ModelCall, n: nat): string
  {
    if n == 0 then "" else TextSoFar(script, n - 1) + Concat(TextOf(script(n - 1).events))
  }

  /** What the end of a final reply gives the callback, when the earlier text was `text`. */
  function LastShown(cfg: Config, text: string, reply: string, deltas: seq<string>): seq<string>
  {
    if !cfg.callback then []
    else if !cfg.realtime then deltas
    else if text == "" && reply != "" then [reply]
    else []
  }

  predicate Final(call: ModelCall)
  {
    call.Reply? && call.tools.None?
  }

  /** What the callback has been given when the loop ends after n calls. */
  function Shown(cfg: Config, script: nat -> ModelCall, n: nat): seq<string>
    requires n > 0
  {
    var last := script(n - 1);
    (if cfg.realtime && cfg.callback then AllText(script, n) else [])
    + if Final(last) then LastShown(cfg, TextSoFar(script, n), last.content, TextOf(last.events)) else []
  }

  /** The content a call that ends the loop normally hands on, when the visible text is `text`. */
  function Kept(cfg: Config, text: string, call: ModelCall): string
    requires call.Reply?
  {
    if cfg.realtime && text != "" then text else call.content
  }

  /** How a call ends the loop when it is not followed by another. */
  function CallEnding(cfg: Config, round: nat, call: ModelCall, text: string): Result<string, TurnError>
  {
    match call
    case Overflow(_, _) => Err(ModelFailed)
    case Failure(_) => Err(ModelFailed)
    case Reply(_, _, _, tools) =>
      if tools.None? then Ok(Kept(cfg, text, call)) else ToolsEnding(cfg, round, tools.value, Kept(cfg, text, call))
  }

  /** How the loop ends after its last call, the n-th. */
  function Ending(cfg: Config, script: nat -> ModelCall, n: nat): Result<string, TurnError>
    requires n > 0
  {
    CallEnding(cfg, Round(script, n - 1), script(n - 1), TextSoFar(script, n))
  }

  /** The reasoning events of the first n calls, one tracker a call. */
  function ReasoningLog(ports: Ports, script: nat -> ModelCall, n: nat): seq<ReasoningEvent>
  {
    if n == 0 then []
    else ReasoningLog(ports, script, n - 1) + Run(FRESH, ports, ReasoningOf(script(n - 1))).log
  }

  function Blocks(ports: Ports, script: nat -> ModelCall, n: nat): seq<string>
  {
    if n == 0 then []
    else Blocks(ports, script, n - 1) + Run(FRESH, ports, ReasoningOf(script(n - 1))).blocks
  }

  lemma {:induction false} NonEmptyText(events: seq<StreamEvent>)
    ensures forall text :: text in TextOf(events) ==> text != ""
  {
    if events != [] {
      NonEmptyText(events[..|events| - 1]);
      assert TextOf(events) == TextOf(events[..|events| - 1]) + Text(events[|events| - 1]);
    }
  }

  lemma {:induction false} ConcatNonEmpty(chunks: seq<string>)
    requires forall text :: text in chunks ==> text != ""
    ensures Concat(chunks) == "" <==> chunks == []
  {
    if chunks != [] {
      assert chunks[|chunks| - 1] in chunks;
    }
  }

  lemma ConcatAppend(a: seq<string>, b: seq<string>)
    ensures Concat(a + b) == Concat(a) + Concat(b)
  {
    FlatAppend((chunk: string) => chunk, a, b);
  }

  lemma {:induction false} NonEmptyAllText(script: nat -> ModelCall, n: nat)
    ensures forall text :: text in AllText(script, n) ==> text != ""
    ensures Concat(AllText(script, n)) == "" <==> AllText(script, n) == []
  {
    if n > 0 {
      NonEmptyAllText(script, n - 1);
      NonEmptyText(script(n - 1).events);
    }
    ConcatNonEmpty(AllText(script, n));
  }

  lemma {:induction false} TextSoFarIs(script: nat -> ModelCall, n: nat)
    ensures TextSoFar(script, n) == Concat(AllText(script, n))
    ensures TextSoFar(script, n) == "" <==> AllText(script, n) == []
  {
    if n > 0 {
      TextSoFarIs(script, n - 1);
      ConcatAppend(AllText(script, n - 1), TextOf(script(n - 1).events));
    }
    NonEmptyAllText(script, n);
  }

  // ---- how long the loop is ----

  ghost predicate AllContinue(cfg: Config, ports: Ports, script: nat -> ModelCall, n: nat)
  {
    n == 0 || (AllContinue(cfg, ports, script, n - 1) && Continues(cfg, ports, script, n - 1))
  }

  lemma {:induction false} EachContinues(cfg: Config, ports: Ports, script: nat -> ModelCall, n: nat, j: nat)
    requires AllContinue(cfg, ports, script, n) && j < n
    ensures Continues(cfg, ports, script, j)
  {
    if j < n - 1 {
      EachContinues(cfg, ports, script, n - 1, j);
    }
  }

  lemma {:induction false} RoundsBounded(cfg: Config, ports: Ports, script: nat -> ModelCall, n: nat)
    requires AllContinue(cfg, ports, script, n)
    ensures Overflows(script, n) <= 1 && Round(script, n) <= MAX_TOOL_ROUNDS
  {
    if n > 0 {
      RoundsBounded(cfg, ports, script, n - 1);
      assert Continues(cfg, ports, script, n - 1);
    }
  }

  lemma RoundsLeft(cfg: Config, ports: Ports, script: nat -> ModelCall, n: nat)
    requires AllContinue(cfg, ports, script, n)
    ensures n <= MAX_TOOL_ROUNDS + 1
  {
    RoundsBounded(cfg, ports, script, n);
  }

  /** How many calls the loop makes when the first n are followed by another. */
  function CallsFrom(cfg: Config, ports: Ports, script: nat -> ModelCall, n: nat): (calls: nat)
    requires AllContinue(cfg, ports, script, n)
    ensures calls > n && AllContinue(cfg, ports, script, calls - 1) && !Continues(cfg, ports, script, calls - 1)
    decreases MAX_TOOL_ROUNDS + 2 - n
  {
    RoundsLeft(cfg, ports, script, n);
    if Continues(cfg, ports, script, n) then
      RoundsLeft(cfg, ports, script, n + 1);
      CallsFrom(cfg, ports, script, n + 1)
    else n + 1
  }

  lemma CallsUnique(cfg: Config, ports: Ports, script: nat -> ModelCall, n: nat)
    requires AllContinue(cfg, ports, script, n) && !Continues(cfg, ports, script, n)
    ensures CallsFrom(cfg, ports, script, 0) == n + 1
  {
    hide Continues;
    var calls := CallsFrom(cfg, ports, script, 0);
    if calls - 1 < n {
      EachContinues(cfg, ports, script, n, calls - 1);
    } else if n < calls - 1 {
      EachContinues(cfg, ports, script, calls - 1, n);
    }
  }

  function Calls(cfg: Config, ports: Ports, script: nat -> ModelCall): (calls: nat)
    ensures calls > 0
  {
    CallsFrom(cfg, ports, script, 0)
  }

  // ---- the loop ----

  /** What the turn holds after n calls that were all followed by another. */
  ghost predicate Going(cfg: Config, ports: Ports, script: nat -> ModelCall, n: nat, round: int, retried: bool,
                        visible: string, shown: seq<string>, log: seq<ReasoningEvent>, blocks: seq<string>)
  {
    && AllContinue(cfg, ports, script, n)
    && retried == (Overflows(script, n) > 0)
    && round == Round(script, n) <= MAX_TOOL_ROUNDS
    && visible == (if cfg.realtime then TextSoFar(script, n) else "")
    && shown == (if cfg.realtime && cfg.callback then AllText(script, n) else [])
    && log == ReasoningLog(ports, script, n)
    && blocks == Blocks(ports, script, n)
  }

  /** The loop is over after n calls, and this is what it leaves. */
  ghost predicate Over(cfg: Config, ports: Ports, script: nat -> ModelCall, n: nat, result: Result<string, TurnError>,
                       shown: seq<string>, log: seq<ReasoningEvent>, blocks: seq<string>)
  {
    && n > 0 && n == Calls(cfg, ports, script)
    && result == Ending(cfg, script, n)
    && shown == Shown(cfg, script, n)
    && log == ReasoningLog(ports, script, n)
    && blocks == Blocks(ports, script, n)
  }

  /** What one call adds to the visible text, and to what has been shown. */
  function TextAdded(cfg: Config, call: ModelCall): string
  {
    if cfg.realtime then Concat(TextOf(call.events)) else ""
  }

  function ShownAdded(cfg: Config, call: ModelCall): seq<string>
  {
    if cfg.realtime && cfg.callback then TextOf(call.events) else []
  }

  function EndAdded(cfg: Config, text: string, call: ModelCall): seq<string>
  {
    if Final(call) then LastShown(cfg, text, call.content, TextOf(call.events)) else []
  }

  function Heard(ports: Ports, call: ModelCall): Track
  {
    Run(FRESH, ports, ReasoningOf(call))
  }

  lemma Advanced(cfg: Config, ports: Ports, script: nat -> ModelCall, n: nat, round: int, retried: bool,
                 visible: string, shown: seq<string>, log: seq<ReasoningEvent>, blocks: seq<string>)
    requires Going(cfg, ports, script, n, round, retried, visible, shown, log, blocks)
    requires Proceeds(cfg, ports, round, retried, script(n))
    ensures var call := script(n);
            && (call.Overflow? ==> !retried) && (!call.Overflow? ==> round < MAX_TOOL_ROUNDS)
            && Going(cfg, ports, script, n + 1,
                     if call.Overflow? then round else round + 1, retried || call.Overflow?,
                     visible + TextAdded(cfg, call), shown + ShownAdded(cfg, call),
                     log + Heard(ports, call).log, blocks + Heard(ports, call).blocks)
  {
    hide Run, ReasoningOf, TextOf, Concat;
    RoundsBounded(cfg, ports, script, n + 1);
  }

  lemma Stopped(cfg: Config, ports: Ports, script: nat -> ModelCall, n: nat, round: int, retried: bool,
                visible: string, shown: seq<string>, log: seq<ReasoningEvent>, blocks: seq<string>)
    requires Going(cfg, ports, script, n, round, retried, visible, shown, log, blocks)
    requires !Proceeds(cfg, ports, round, retried, script(n))
    ensures var call := script(n);
            var text := visible + TextAdded(cfg, call);
            Over(cfg, ports, script, n + 1, CallEnding(cfg, round, call, text),
                 shown + ShownAdded(cfg, call) + EndAdded(cfg, text, call),
                 log + Heard(ports, call).log, blocks + Heard(ports, call).blocks)
  {
    CallsUnique(cfg, ports, script, n);
  }

  class Conversation {
    const cfg: Config
    const out: Outbox
    var visible: string
    var shown: seq<string>
    var calls: nat
    var round: int
    var retryUsed: bool

    constructor (cfg: Config, out: Outbox)
      ensures this.cfg == cfg && this.out == out && visible == "" && shown == []
      ensures calls == 0 && round == 0 && !retryUsed
    {
      this.cfg, this.out := cfg, out;
      visible, shown := "", [];
      calls, round, retryUsed := 0, 0, false;
    }

    ghost predicate Ready(script: nat -> ModelCall)
      reads this, out
    {
      0 <= round <= MAX_TOOL_ROUNDS
      && Going(cfg, out.ports, script, calls, round, retryUsed, visible, shown, out.log, out.blocks)
    }

    method Callback(delta: string)
      modifies `shown
      ensures shown == if cfg.callback then old(shown) + [delta] else old(shown)
    {
      if cfg.callback {
        shown := shown + [delta];
      }
    }

    /** One event of a stream. */
    method OnEvent(event: StreamEvent, tracker: Tracker, deltas: seq<string>) returns (next: seq<string>)
      requires tracker.out == out
      modifies `visible, `shown, tracker, out
      ensures next == deltas + Text(event)
      ensures visible == old(visible) + if cfg.realtime then event.content else ""
      ensures shown == old(shown) + if cfg.realtime && cfg.callback then Text(event) else []
      ensures tracker.State() == Run(old(tracker.State()), out.ports, ReasoningCalls(event))
    {
      next := deltas;
      RunEvent(tracker.State(), out.ports, event);
      if event.reasoning != "" {
        tracker.OnDelta(event.reasoning);
      }
      if event.content != "" {
        tracker.End();
        next := next + [event.content];
        if cfg.realtime {
          visible := visible + event.content;
          Callback(event.content);
        }
      }
      if event.toolBlock {
        tracker.End();
      }
    }

    /** Read one model call's stream. */
    method Receive(events: seq<StreamEvent>, tracker: Tracker) returns (deltas: seq<string>)
      requires tracker.out == out
      modifies `visible, `shown, tracker, out
      ensures deltas == TextOf(events)
      ensures visible == old(visible) + if cfg.realtime then Concat(deltas) else ""
      ensures shown == old(shown) + if cfg.realtime && cfg.callback then deltas else []
      ensures tracker.State() == Run(old(tracker.State()), out.ports, Flat(ReasoningCalls, events))
    {
      hide Run, ReasoningCalls, Text, TextOf, Concat;
      NothingStreamed(tracker.State(), out.ports);
      assert events[..0] == [];
      deltas := [];
      ghost var start, seen, was := tracker.State(), shown, visible;
      var i := 0;
      while i < |events|
        invariant 0 <= i <= |events|
        invariant deltas == TextOf(events[..i])
        invariant visible == was + if cfg.realtime then Concat(deltas) else ""
        invariant shown == seen + if cfg.realtime && cfg.callback then deltas else []
        invariant tracker.State() == Run(start, out.ports, Flat(ReasoningCalls, events[..i]))
      {
        StreamGrows(start, out.ports, events, i);
        TextGrows(was, seen, deltas, events[i]);
        deltas := OnEvent(events[i], tracker, deltas);
        i := i + 1;
      }
      assert events[..i] == events;
    }

    /** Make one model call with a reasoning tracker of its own. */
    method Ask(call: ModelCall) returns (deltas: seq<string>)
      modifies `visible, `shown, out
      ensures deltas == TextOf(call.events)
      ensures visible == old(visible) + if cfg.realtime then Concat(deltas) else ""
      ensures shown == old(shown) + if cfg.realtime && cfg.callback then deltas else []
      ensures out.log == old(out.log) + Run(FRESH, out.ports, ReasoningOf(call)).log
      ensures out.blocks == old(out.blocks) + Run(FRESH, out.ports, ReasoningOf(call)).blocks
    {
      ClosedCall(out.ports, out.log, out.blocks, call);
      var tracker := new Tracker(out);
      deltas := Receive(call.events, tracker);
      if call.Reply? {
        tracker.Complete(call.reasoning);
      }
    }

    /** The end of a reply that asks for no tools. */
    method Finish(reply: string, deltas: seq<string>) returns (content: string)
      modifies `visible, `shown
      ensures content == if cfg.realtime && old(visible) != "" then old(visible) else reply
      ensures shown == old(shown) + LastShown(cfg, old(visible), reply, deltas)
    {
      content := reply;
      if cfg.realtime {
        if |visible| == 0 && reply != "" {
          visible := visible + reply;
          Callback(reply);
        }
        content := visible;
        if content == "" {
          content := reply;
        }
      } else if cfg.callback {
        Deliver(deltas);
      }
    }

    /** Run the requested tools, or say how the turn stops instead. */
    method RunTools(round: nat, tools: Tools, reply: string) returns (stop: Option<Result<string, TurnError>>)
      ensures stop.None? <==> ToolsProceed(cfg, out.ports, round, tools)
      ensures stop.Some? ==> stop.value == ToolsEnding(cfg, round, tools, if cfg.realtime && visible != "" then visible else reply)
    {
      if !cfg.dispatcher {
        return Some(Err(ToolsDisabled));
      }
      if round >= MAX_TOOL_ROUNDS {
        return Some(Err(TooManyRounds));
      }
      if tools.calls == 0 {
        if !cfg.realtime {
          return Some(Ok(reply));
        }
        var content := visible;
        if content == "" {
          content := reply;
        }
        return Some(Ok(content));
      }
      if tools.blocked {
        if !cfg.coordinator {
          return Some(Err(NoCoordinator));
        }
        if !tools.created {
          return Some(Err(NotCreated));
        }
        return Some(Err(ApprovalPending));
      }
      if out.ports.writer && cfg.approvals && tools.interrupted {
        return Some(Err(ApprovalPending));
      }
      stop := None;
    }

    /** One iteration: a model call, and either the end of the turn or another round. */
    method Iterate(call: ModelCall) returns (stop: Option<Result<string, TurnError>>)
      modifies `visible, `shown, out
      requires round >= 0
      ensures stop.None? <==> Proceeds(cfg, out.ports, round, retryUsed, call)
      ensures stop.None? ==> !Final(call)
      ensures var text := old(visible) + TextAdded(cfg, call);
              && (stop.None? ==> visible == text && shown == old(shown) + ShownAdded(cfg, call))
              && (stop.Some? ==> stop.value == CallEnding(cfg, round, call, text))
              && shown == old(shown) + ShownAdded(cfg, call) + EndAdded(cfg, text, call)
      ensures out.log == old(out.log) + Heard(out.ports, call).log
      ensures out.blocks == old(out.blocks) + Heard(out.ports, call).blocks
    {
      var deltas := Ask(call);
      if call.Overflow? {
        if !retryUsed && call.compacts {
          return None;
        }
        return Some(Err(ModelFailed));
      }
      if call.Failure? {
        return Some(Err(ModelFailed));
      }
      if call.tools.None? {
        var content := Finish(call.content, deltas);
        return Some(Ok(content));
      }
      stop := RunTools(round, call.tools.value, call.content);
    }

    /** Make the next model call of a turn, and see whether it ends the turn. */
    method NextCall(script: nat -> ModelCall) returns (stop: Option<Result<string, TurnError>>)
      requires Ready(script)
      modifies this, out
      ensures stop.None? ==> Ready(script)
      ensures stop.None? ==> ((!old(retryUsed) && retryUsed) || (retryUsed == old(retryUsed) && round > old(round)))
      ensures stop.Some? ==> Over(cfg, out.ports, script, calls, stop.value, shown, out.log, out.blocks)
    {
      hide Going, Over, Proceeds, CallEnding, Heard, TextAdded, ShownAdded, EndAdded;
      ghost var ports, was, seen, log, blocks := out.ports, visible, shown, out.log, out.blocks;
      ghost var n, r, used := calls, round, retryUsed;
      var call := script(calls);
      stop := Iterate(call);
      calls := calls + 1;
      if stop.Some? {
        Stopped(cfg, ports, script, n, r, used, was, seen, log, blocks);
        return;
      }
      Advanced(cfg, ports, script, n, r, used, was, seen, log, blocks);
      if call.Overflow? {
        retryUsed := true;
        round := round - 1;
      }
      round := round + 1;
    }

    method SendTurn(script: nat -> ModelCall) returns (result: Result<string, TurnError>)
      requires visible == "" && shown == [] && out.log == [] && out.blocks == []
      requires calls == 0 && round == 0 && !retryUsed
      modifies this, out
      ensures Over(cfg, out.ports, script, calls, result, shown, out.log, out.blocks)
    {
      while true
        invariant Ready(script)
        decreases !retryUsed, MAX_TOOL_ROUNDS + 1 - round
      {
        var stop := NextCall(script);
        if stop.Some? {
          return stop.value;
        }
      }
    }

    /** Hand a buffered reply's deltas to the callback. */
    method Deliver(deltas: seq<string>)
      modifies `shown
      ensures shown == old(shown) + if cfg.callback then deltas else []
    {
      var i := 0;
      while i < |deltas|
        invariant 0 <= i <= |deltas|
        invariant shown == old(shown) + if cfg.callback then deltas[..i] else []
      {
        Callback(deltas[i]);
        i := i + 1;
      }
      assert deltas[..i] == deltas;
    }
  }

  lemma RunOne(t: Track, ports: Ports, calls: seq<Call>, call: Call)
    ensures Run(t, ports, calls + [call]) == After(Run(t, ports, calls), ports, call)
  {
    assert (calls + [call])[..|calls|] == calls;
  }

  /** One stream event moves the tracker as its calls do, in order. */
  lemma RunEvent(t: Track, ports: Ports, e: StreamEvent)
    ensures var s1 := if e.reasoning != "" then After(t, ports, Call.OnDelta(e.reasoning)) else t;
            var s2 := if e.content != "" then AfterEnd(s1, ports) else s1;
            Run(t, ports, ReasoningCalls(e)) == if e.toolBlock then AfterEnd(s2, ports) else s2
  {
    var c1 := if e.reasoning != "" then [Call.OnDelta(e.reasoning)] else [];
    var c2 := c1 + if e.content != "" then [OnEnd] else [];
    RunOne(t, ports, [], Call.OnDelta(e.reasoning));
    RunOne(t, ports, c1, OnEnd);
    RunOne(t, ports, c2, OnEnd);
    assert [] + c1 == c1;
    assert ReasoningCalls(e) == c2 + if e.toolBlock then [OnEnd] else [];
  }

  lemma {:induction false} RunAppend(t: Track, ports: Ports, a: seq<Call>, b: seq<Call>)
    ensures Run(t, ports, a + b) == Run(Run(t, ports, a), ports, b)
  {
    if b == [] {
      assert a + b == a;
    } else {
      var init, last := b[..|b| - 1], b[|b| - 1];
      assert a + b == (a + init) + [last];
      RunAppend(t, ports, a, init);
      RunOne(t, ports, a + init, last);
    }
  }

  lemma TextGrows(visible: string, shown: seq<string>, deltas: seq<string>, e: StreamEvent)
    ensures visible + Concat(deltas + Text(e)) == visible + Concat(deltas) + e.content
    ensures shown + (deltas + Text(e)) == shown + deltas + Text(e)
  {
    if e.content != "" {
      ConcatOne(deltas, e.content);
    } else {
      assert deltas + Text(e) == deltas;
    }
  }

  lemma NothingStreamed(t: Track, ports: Ports)
    ensures TextOf([]) == [] && Concat([]) == "" && Run(t, ports, Flat(ReasoningCalls, [])) == t
  {}

  lemma StreamGrows(t: Track, ports: Ports, events: seq<StreamEvent>, i: nat)
    requires i < |events|
    ensures TextOf(events[..i + 1]) == TextOf(events[..i]) + Text(events[i])
    ensures Run(t, ports, Flat(ReasoningCalls, events[..i + 1]))
            == Run(Run(t, ports, Flat(ReasoningCalls, events[..i])), ports, ReasoningCalls(events[i]))
  {
    assert events[..i + 1] == events[..i] + [events[i]];
    FlatOne(Text, events[..i], events[i]);
    FlatOne(ReasoningCalls, events[..i], events[i]);
    RunAppend(t, ports, Flat(ReasoningCalls, events[..i]), ReasoningCalls(events[i]));
  }

  /** What a call's tracker leaves behind the events and blocks of the calls before it. */
  lemma ClosedCall(ports: Ports, log: seq<ReasoningEvent>, blocks: seq<string>, call: ModelCall)
    ensures var own := Run(FRESH, ports, ReasoningOf(call));
            var heard := Run(FRESH.(log := log, blocks := blocks), ports, Flat(ReasoningCalls, call.events));
            var done := if call.Reply? then After(heard, ports, OnComplete(call.reasoning)) else heard;
            done.log == log + own.log && done.blocks == blocks + own.blocks
  {
    var calls := Flat(ReasoningCalls, call.events);
    RunAppends(ports, log, blocks, ReasoningOf(call));
    if call.Reply? {
      RunOne(FRESH.(log := log, blocks := blocks), ports, calls, OnComplete(call.reasoning));
    } else {
      assert ReasoningOf(call) == calls;
    }
  }
}
