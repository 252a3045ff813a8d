/** What one turn's model calls can do, for every behaviour of the model. */
module ToolTheorems {

  import opened Sequences
  import opened Wrappers
  import opened CommandText
  import opened Reasoning
  import opened ToolLoop

  /** Although a retry takes back its own step of the counter, a turn makes at most 12 model
      calls and runs at most 10 rounds of tools. */
  lemma LoopIsBounded(cfg: Config, ports: Ports, script: nat -> ModelCall)
    ensures var n := Calls(cfg, ports, script); n <= MAX_TOOL_ROUNDS + 2 && Round(script, n - 1) <= MAX_TOOL_ROUNDS
  {
    hide CallsFrom, AllContinue, Continues, Overflows;
    RoundsBounded(cfg, ports, script, Calls(cfg, ports, script) - 1);
  }

  function Busy(n: nat): ModelCall
  {
    if n == 0 then Overflow([], true) else Reply([], "", "", Some(Tools(1, false, false, false)))
  }

  lemma {:induction false} BusyContinues(ports: Ports, n: nat)
    requires n <= MAX_TOOL_ROUNDS + 1
    ensures AllContinue(Config(true, true, true, true, true), ports, Busy, n)
    ensures Overflows(Busy, n) == if n == 0 then 0 else 1
  {
    if n > 0 {
      BusyContinues(ports, n - 1);
    }
  }

  /** Both bounds are reached: an overflow, ten rounds of tools, and a twelfth call that asks for more. */
  lemma BoundsAreReached(ports: Ports, n: nat)
    requires n == MAX_TOOL_ROUNDS + 1
    ensures var cfg := Config(true, true, true, true, true);
            && Calls(cfg, ports, Busy) == n + 1 && Round(Busy, n) == MAX_TOOL_ROUNDS
            && Ending(cfg, Busy, n + 1) == Err(TooManyRounds)
  {
    BusyContinues(ports, n);
    CallsUnique(Config(true, true, true, true, true), ports, Busy, n);
  }

  lemma ConcatSingle(text: string)
    ensures Concat([text]) == text
  {
    ConcatOne([], text);
    assert [] + [text] == [text];
    assert Concat([]) == "";
  }

  /** In realtime mode, whatever the model does over any number of rounds and the retry, a turn
      that ends normally hands on exactly the text it has shown, or has shown nothing. */
  lemma WhatIsShownIsKept(cfg: Config, script: nat -> ModelCall, n: nat, content: string)
    requires cfg.realtime && n > 0 && Ending(cfg, script, n) == Ok(content)
    ensures Shown(cfg, script, n) == [] || Concat(Shown(cfg, script, n)) == content
  {
    var last := script(n - 1);
    TextSoFarIs(script, n);
    ConcatSingle(last.content);
    if Final(last) && cfg.callback {
      var extra := LastShown(cfg, TextSoFar(script, n), last.content, TextOf(last.events));
      if extra == [] {
        assert AllText(script, n) + extra == AllText(script, n);
      } else {
        assert AllText(script, n) + extra == extra;
      }
    } else {
      assert AllText(script, n) + [] == AllText(script, n);
    }
  }

  /** Some text that is kept is not shown exactly when a reply asks for tools but names none and
      nothing was streamed, or nobody listens. */
  lemma KeptUnshownIff(cfg: Config, script: nat -> ModelCall, n: nat, content: string)
    requires cfg.realtime && n > 0 && Ending(cfg, script, n) == Ok(content)
    ensures Concat(Shown(cfg, script, n)) != content
            <==> content != "" && (!cfg.callback || (script(n - 1).tools.Some? && TextSoFar(script, n) == ""))
  {
    WhatIsShownIsKept(cfg, script, n, content);
    TextSoFarIs(script, n);
    assert Concat([]) == "";
    var last := script(n - 1);
    if cfg.callback && last.tools.None? && TextSoFar(script, n) == "" {
      assert Shown(cfg, script, n) == LastShown(cfg, "", last.content, TextOf(last.events));
    }
  }

  /** In buffered mode only the deltas of a final reply are shown: the text shown is the content
      handed on exactly when they spell it, or, for a reply that asks for tools and names none,
      when the content is empty. */
  lemma BufferedShownIff(cfg: Config, script: nat -> ModelCall, n: nat, content: string)
    requires !cfg.realtime && cfg.callback && n > 0 && Ending(cfg, script, n) == Ok(content)
    ensures content == script(n - 1).content
    ensures Concat(Shown(cfg, script, n)) == content
            <==> if Final(script(n - 1)) then Concat(TextOf(script(n - 1).events)) == content else content == ""
  {
    assert [] + TextOf(script(n - 1).events) == TextOf(script(n - 1).events);
    assert Concat([]) == "";
  }

  /** A reply's content is the text it streamed, as the model clients build it. */
  ghost predicate Spelled(call: ModelCall)
  {
    call.Reply? ==> Concat(TextOf(call.events)) == call.content
  }

  /** Then a turn that ends normally hands on what it has shown, or has shown nothing, in either mode. */
  lemma SpelledIsKept(cfg: Config, script: nat -> ModelCall, n: nat, content: string)
    requires n > 0 && Spelled(script(n - 1)) && Ending(cfg, script, n) == Ok(content)
    ensures Shown(cfg, script, n) == [] || Concat(Shown(cfg, script, n)) == content
  {
    if cfg.realtime {
      WhatIsShownIsKept(cfg, script, n, content);
    } else {
      assert [] + TextOf(script(n - 1).events) == TextOf(script(n - 1).events);
    }
  }

  /** What the reader of reasoning events sees of one call: a start, deltas and an end, or a
      prefix of that; and a call that was answered leaves no block open. */
  lemma CallReasoning(ports: Ports, call: ModelCall)
    ensures var (chunks, ended) := Taken(ReasoningOf(call));
            && Heard(ports, call).log == (if ports.writer then Events(chunks, ended) else [])
            && (call.Reply? && chunks != [] ==> ended)
            && Heard(ports, call).blocks
               == (if ended && Trim(Concat(chunks)) != "" && ports.sink then [Concat(chunks)] else [])
  {
    var calls := Flat(ReasoningCalls, call.events);
    RunIsShaped(ports, ReasoningOf(call));
    if call.Reply? {
      assert ReasoningOf(call)[..|ReasoningOf(call)| - 1] == calls;
      TakenEnds(calls, call.reasoning);
    }
  }

  lemma TakenEnds(calls: seq<Call>, final: string)
    ensures Taken(calls + [OnComplete(final)]).0 != [] ==> Taken(calls + [OnComplete(final)]).1
  {
    assert (calls + [OnComplete(final)])[..|calls|] == calls;
  }

  // ---- how the loop ends, said of the model's calls alone ----

  /** The reply asks for tools, and they are run: none is blocked, and no approval has come up. */
  predicate RunsTools(cfg: Config, ports: Ports, call: ModelCall)
  {
    && call.Reply? && call.tools.Some? && call.tools.value.calls > 0
    && !call.tools.value.blocked && !(call.tools.value.interrupted && cfg.approvals && ports.writer)
  }

  predicate IsCompacted(call: ModelCall)
  {
    call.Overflow? && call.compacts
  }

  /** The calls before the n-th each run tools, but for one overflow at most, which is compacted; and
      the tools are run at most ten times. */
  ghost predicate GoesOn(cfg: Config, ports: Ports, script: nat -> ModelCall, n: nat)
  {
    && (forall i :: 0 <= i < n ==> (RunsTools(cfg, ports, script(i)) && cfg.dispatcher) || IsCompacted(script(i)))
    && (forall i, j :: 0 <= i < j < n ==> !(IsCompacted(script(i)) && IsCompacted(script(j))))
    && (n <= 10 || (n == 11 && exists i :: 0 <= i < n && IsCompacted(script(i))))
  }

  lemma {:induction false} OverflowsAreCompacted(script: nat -> ModelCall, n: nat)
    requires forall i, j :: 0 <= i < j < n ==> !(script(i).Overflow? && script(j).Overflow?)
    ensures Overflows(script, n) == if exists i :: 0 <= i < n && script(i).Overflow? then 1 else 0
  {
    if n > 0 {
      OverflowsAreCompacted(script, n - 1);
    }
  }

  lemma {:induction false} GoesOnIff(cfg: Config, ports: Ports, script: nat -> ModelCall, n: nat)
    ensures GoesOn(cfg, ports, script, n) <==> AllContinue(cfg, ports, script, n)
  {
    if n > 0 {
      GoesOnIff(cfg, ports, script, n - 1);
      if GoesOn(cfg, ports, script, n - 1) {
        OneMoreGoesOn(cfg, ports, script, n - 1);
      } else if GoesOn(cfg, ports, script, n) {
        FewerGoOn(cfg, ports, script, n);
      }
    }
  }

  lemma FewerGoOn(cfg: Config, ports: Ports, script: nat -> ModelCall, n: nat)
    requires n > 0 && GoesOn(cfg, ports, script, n)
    ensures GoesOn(cfg, ports, script, n - 1)
  {}

  lemma OneMoreGoesOn(cfg: Config, ports: Ports, script: nat -> ModelCall, n: nat)
    requires GoesOn(cfg, ports, script, n)
    ensures Overflows(script, n) == if exists i :: 0 <= i < n && IsCompacted(script(i)) then 1 else 0
    ensures Continues(cfg, ports, script, n) <==> GoesOn(cfg, ports, script, n + 1)
  {
    forall i | 0 <= i < n ensures script(i).Overflow? <==> IsCompacted(script(i)) {}
    OverflowsAreCompacted(script, n);
  }

  /** There is room for another round of tools. */
  ghost predicate RoomForTools(script: nat -> ModelCall, n: nat)
  {
    n < 10 || (n == 10 && exists i :: 0 <= i < n && IsCompacted(script(i)))
  }

  /** The call asks for a tool that must wait: one is blocked, and its approval could be created, or
      approvals changed while the tools ran. */
  predicate Waits(cfg: Config, ports: Ports, call: ModelCall, room: bool)
  {
    && call.Reply? && call.tools.Some? && call.tools.value.calls > 0 && cfg.dispatcher && room
    && if call.tools.value.blocked then cfg.coordinator && call.tools.value.created
       else ports.writer && cfg.approvals && call.tools.value.interrupted
  }

  /** The call is the last word: a reply without tools, or one that asks for tools and names none. */
  predicate Concludes(cfg: Config, call: ModelCall, room: bool)
  {
    call.Reply? && (call.tools.None? || (cfg.dispatcher && room && call.tools.value.calls == 0))
  }

  ghost predicate WaitsAt(cfg: Config, ports: Ports, script: nat -> ModelCall, n: nat)
  {
    GoesOn(cfg, ports, script, n) && Waits(cfg, ports, script(n), RoomForTools(script, n))
  }

  ghost predicate ConcludesAt(cfg: Config, ports: Ports, script: nat -> ModelCall, n: nat)
  {
    GoesOn(cfg, ports, script, n) && Concludes(cfg, script(n), RoomForTools(script, n))
  }

  lemma CallEnds(cfg: Config, ports: Ports, round: nat, retried: bool, call: ModelCall, text: string)
    ensures var room := round < MAX_TOOL_ROUNDS;
            && (Waits(cfg, ports, call, room) || Concludes(cfg, call, room) ==> !Proceeds(cfg, ports, round, retried, call))
            && (!Proceeds(cfg, ports, round, retried, call) ==>
                  && (CallEnding(cfg, round, call, text) == Err(ApprovalPending) <==> Waits(cfg, ports, call, room))
                  && (CallEnding(cfg, round, call, text).Ok? <==> Concludes(cfg, call, room)))
            && (CallEnding(cfg, round, call, text).Ok? ==>
                  CallEnding(cfg, round, call, text).value == if cfg.realtime && text != "" then text else call.content)
  {}

  lemma RoundIs(cfg: Config, ports: Ports, script: nat -> ModelCall, n: nat)
    requires GoesOn(cfg, ports, script, n)
    ensures Round(script, n) < MAX_TOOL_ROUNDS <==> RoomForTools(script, n)
  {
    OneMoreGoesOn(cfg, ports, script, n);
  }

  lemma EndsHere(cfg: Config, ports: Ports, script: nat -> ModelCall, n: nat)
    requires GoesOn(cfg, ports, script, n) && !Continues(cfg, ports, script, n)
    ensures Calls(cfg, ports, script) == n + 1
  {
    GoesOnIff(cfg, ports, script, n);
    CallsUnique(cfg, ports, script, n);
  }

  lemma LastIsReached(cfg: Config, ports: Ports, script: nat -> ModelCall)
    ensures GoesOn(cfg, ports, script, Calls(cfg, ports, script) - 1)
    ensures !Continues(cfg, ports, script, Calls(cfg, ports, script) - 1)
  {
    hide CallsFrom, Continues, AllContinue, GoesOn;
    GoesOnIff(cfg, ports, script, Calls(cfg, ports, script) - 1);
  }

  lemma EndingAt(cfg: Config, ports: Ports, script: nat -> ModelCall, n: nat)
    requires GoesOn(cfg, ports, script, n)
    ensures WaitsAt(cfg, ports, script, n) || ConcludesAt(cfg, ports, script, n) ==> !Continues(cfg, ports, script, n)
    ensures !Continues(cfg, ports, script, n) ==>
              (Ending(cfg, script, n + 1) == Err(ApprovalPending) <==> WaitsAt(cfg, ports, script, n))
    ensures !Continues(cfg, ports, script, n) ==>
              (Ending(cfg, script, n + 1).Ok? <==> ConcludesAt(cfg, ports, script, n))
    ensures Ending(cfg, script, n + 1).Ok? ==>
              Ending(cfg, script, n + 1).value
              == if cfg.realtime && TextSoFar(script, n + 1) != "" then TextSoFar(script, n + 1) else script(n).content
  {
    RoundIs(cfg, ports, script, n);
    CallEnds(cfg, ports, Round(script, n), Overflows(script, n) > 0, script(n), TextSoFar(script, n + 1));
    hide GoesOn, RoomForTools, Overflows, Round, Waits, Concludes, Proceeds, CallEnding, TextSoFar;
  }

  /** The loop waits for an approval exactly when some call that is reached does, and that is its last. */
  lemma WaitsIff(cfg: Config, ports: Ports, script: nat -> ModelCall)
    ensures var calls := Calls(cfg, ports, script);
            Ending(cfg, script, calls) == Err(ApprovalPending) <==> WaitsAt(cfg, ports, script, calls - 1)
    ensures forall n: nat :: WaitsAt(cfg, ports, script, n) ==> Calls(cfg, ports, script) == n + 1
  {
    hide Calls, Continues, Ending, GoesOn;
    var last := Calls(cfg, ports, script) - 1;
    LastIsReached(cfg, ports, script);
    EndingAt(cfg, ports, script, last);
    forall n: nat | WaitsAt(cfg, ports, script, n) ensures Calls(cfg, ports, script) == n + 1 {
      EndingAt(cfg, ports, script, n);
      EndsHere(cfg, ports, script, n);
    }
  }

  /** The loop ends with content exactly when some call that is reached concludes it, and that is its
      last.  The content is all the text streamed so far, in realtime mode and if there was any, and
      otherwise the content of that call. */
  lemma ConcludesIff(cfg: Config, ports: Ports, script: nat -> ModelCall)
    ensures var calls := Calls(cfg, ports, script);
            && (Ending(cfg, script, calls).Ok? <==> ConcludesAt(cfg, ports, script, calls - 1))
            && (ConcludesAt(cfg, ports, script, calls - 1) ==>
                  Ending(cfg, script, calls)
                  == Ok(if cfg.realtime && AllText(script, calls) != [] then Concat(AllText(script, calls))
                        else script(calls - 1).content))
    ensures forall n: nat :: ConcludesAt(cfg, ports, script, n) ==> Calls(cfg, ports, script) == n + 1
  {
    hide Calls, Continues, Ending, GoesOn, AllText, TextSoFar;
    var last := Calls(cfg, ports, script) - 1;
    LastIsReached(cfg, ports, script);
    EndingAt(cfg, ports, script, last);
    TextSoFarIs(script, last + 1);
    forall n: nat | ConcludesAt(cfg, ports, script, n) ensures Calls(cfg, ports, script) == n + 1 {
      EndingAt(cfg, ports, script, n);
      EndsHere(cfg, ports, script, n);
    }
  }
}
