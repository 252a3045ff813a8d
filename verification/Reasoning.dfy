/** The reasoning events of one model call, and the block recorded from them. */
module Reasoning {

  import opened Sequences
  import opened CommandText

  datatype ReasoningEvent = Started | Delta(text: string) | Ended(text: string)

  /** Whether there is a writer for events, and a sink for recorded blocks. */
  datatype Ports = Ports(writer: bool, sink: bool)

  /** A tracker and what it has sent: events to the writer, blocks to the sink. */
  datatype Track = Track(started: bool, ended: bool, recorded: bool, content: string,
                         log: seq<ReasoningEvent>, blocks: seq<string>)

  const FRESH := Track(false, false, false, "", [], [])

  datatype Call = OnDelta(text: string) | OnEnd | OnComplete(final: string)

  function Sent(t: Track, ports: Ports, e: ReasoningEvent): Track
  {
    if ports.writer then t.(log := t.log + [e]) else t
  }

  function AfterStart(t: Track, ports: Ports): Track
  {
    if t.started then t else Sent(t.(started := true), ports, Started)
  }

  function AfterText(t: Track, ports: Ports, text: string): Track
  {
    Sent(AfterStart(t, ports).(content := t.content + text), ports, Delta(text))
  }

  function AfterRecord(t: Track, ports: Ports): Track
  {
    if t.recorded || Trim(t.content) == "" || !ports.sink then t
    else t.(recorded := true, blocks := t.blocks + [t.content])
  }

  function AfterEnd(t: Track, ports: Ports): Track
  {
    if !t.started || t.ended then t
    else AfterRecord(Sent(t.(ended := true), ports, Ended(t.content)), ports)
  }

  function After(t: Track, ports: Ports, call: Call): Track
  {
    match call
    case OnDelta(text) => if text == "" || t.ended then t else AfterText(t, ports, text)
    case OnEnd => AfterEnd(t, ports)
    case OnComplete(final) =>
      if Trim(final) == "" || t.started then AfterEnd(t, ports)
      else AfterEnd(AfterText(t, ports, final), ports)
  }

  function Run(t: Track, ports: Ports, calls: seq<Call>): Track
  {
    if calls == [] then t else After(Run(t, ports, calls[..|calls| - 1]), ports, calls[|calls| - 1])
  }

  /** Where the trackers of a turn send their events and blocks. */
  class Outbox {
    var log: seq<ReasoningEvent>
    var blocks: seq<string>
    const ports: Ports

    constructor (ports: Ports)
      ensures log == [] && blocks == [] && this.ports == ports
    {
      log, blocks := [], [];
      this.ports := ports;
    }
  }

  class Tracker {
    var started: bool
    var ended: bool
    var recorded: bool
    var content: string
    const out: Outbox

    constructor (out: Outbox)
      ensures this.out == out
      ensures State() == Track(false, false, false, "", out.log, out.blocks)
    {
      started, ended, recorded, content := false, false, false, "";
      this.out := out;
    }

    ghost function State(): Track
      reads this, out
    {
      Track(started, ended, recorded, content, out.log, out.blocks)
    }

    method Write(e: ReasoningEvent)
      modifies out
      ensures State() == Sent(old(State()), out.ports, e)
    {
      if out.ports.writer {
        out.log := out.log + [e];
      }
    }

    method Start()
      modifies this, out
      ensures State() == AfterStart(old(State()), out.ports)
    {
      if started {
        return;
      }
      started := true;
      Write(Started);
    }

    method OnDelta(text: string)
      modifies this, out
      ensures State() == After(old(State()), out.ports, Call.OnDelta(text))
    {
      if text == "" || ended {
        return;
      }
      Start();
      content := content + text;
      Write(Delta(text));
    }

    method End()
      modifies this, out
      ensures State() == AfterEnd(old(State()), out.ports)
    {
      if !started || ended {
        return;
      }
      ended := true;
      Write(Ended(content));
      Record();
    }

    method Complete(final: string)
      modifies this, out
      ensures State() == After(old(State()), out.ports, OnComplete(final))
    {
      if Trim(final) == "" {
        End();
        return;
      }
      if started {
        End();
        return;
      }
      Start();
      content := content + final;
      Write(Delta(final));
      End();
    }

    method Record()
      modifies this, out
      ensures State() == AfterRecord(old(State()), out.ports)
    {
      if recorded || Trim(content) == "" || !out.ports.sink {
        return;
      }
      recorded := true;
      out.blocks := out.blocks + [content];
    }
  }

  // ---- the shape of what is sent ----

  function Deltas(chunks: seq<string>): seq<ReasoningEvent>
  {
    seq(|chunks|, i requires 0 <= i < |chunks| => Delta(chunks[i]))
  }

  function Concat(chunks: seq<string>): string
  {
    Flat((chunk: string) => chunk, chunks)
  }

  /** The events of reasoning that came in the given chunks and has ended, or not yet. */
  function Events(chunks: seq<string>, ended: bool): seq<ReasoningEvent>
  {
    if chunks == [] then []
    else [Started] + Deltas(chunks) + if ended then [Ended(Concat(chunks))] else []
  }

  /** The tracker has sent start, the chunks and perhaps the end, and has recorded one block,
      the whole text, exactly when it has ended, the text is not blank and there is a sink. */
  ghost predicate Shaped(t: Track, ports: Ports, chunks: seq<string>)
  {
    && t.started == (chunks != [])
    && (t.ended ==> t.started)
    && t.content == Concat(chunks)
    && t.log == (if ports.writer then Events(chunks, t.ended) else [])
    && t.blocks == (if t.ended && Trim(t.content) != "" && ports.sink then [t.content] else [])
    && (t.recorded <==> t.blocks != [])
  }

  lemma ConcatOne(chunks: seq<string>, text: string)
    ensures Concat(chunks + [text]) == Concat(chunks) + text
  {
    FlatOne((chunk: string) => chunk, chunks, text);
  }

  lemma TextKeepsShape(t: Track, ports: Ports, chunks: seq<string>, text: string)
    requires Shaped(t, ports, chunks) && !t.ended
    ensures Shaped(AfterText(t, ports, text), ports, chunks + [text])
  {
    ConcatOne(chunks, text);
    assert Deltas(chunks + [text]) == Deltas(chunks) + [Delta(text)];
    if chunks == [] {
      assert Deltas(chunks) == [];
    }
    if ports.writer {
      assert Events(chunks + [text], false) == [Started] + Deltas(chunks) + [Delta(text)];
    }
  }

  lemma EndKeepsShape(t: Track, ports: Ports, chunks: seq<string>)
    requires Shaped(t, ports, chunks)
    ensures Shaped(AfterEnd(t, ports), ports, chunks)
    ensures AfterEnd(t, ports).ended == (chunks != [])
  {
    if t.started && !t.ended && ports.writer {
      assert Events(chunks, true) == Events(chunks, false) + [Ended(Concat(chunks))];
    }
  }

  /** The chunks a tracker takes from its calls: the non-empty deltas until it ends, or the
      final content if there were none. */
  function Taken(calls: seq<Call>): (seq<string>, bool)
  {
    if calls == [] then ([], false)
    else
      var (chunks, ended) := Taken(calls[..|calls| - 1]);
      if ended then (chunks, ended)
      else
        match calls[|calls| - 1]
        case OnDelta(text) => (if text == "" then chunks else chunks + [text], false)
        case OnEnd => (chunks, chunks != [])
        case OnComplete(final) =>
          if chunks == [] && Trim(final) != "" then ([final], true) else (chunks, chunks != [])
  }

  /** For every sequence of calls, what is sent is a prefix of start, deltas, end, and at most
      one block is recorded, whose content is exactly the text of the deltas. */
  lemma {:induction false} RunIsShaped(ports: Ports, calls: seq<Call>)
    ensures Shaped(Run(FRESH, ports, calls), ports, Taken(calls).0)
    ensures Run(FRESH, ports, calls).ended == Taken(calls).1
  {
    if calls == [] {
      assert Concat([]) == "";
    } else {
      var before, call := calls[..|calls| - 1], calls[|calls| - 1];
      var t, chunks := Run(FRESH, ports, before), Taken(before).0;
      RunIsShaped(ports, before);
      match call
      case OnDelta(text) =>
        if text != "" && !t.ended {
          TextKeepsShape(t, ports, chunks, text);
        }
      case OnEnd => EndKeepsShape(t, ports, chunks);
      case OnComplete(final) =>
        if Trim(final) == "" || t.started {
          EndKeepsShape(t, ports, chunks);
        } else {
          TextKeepsShape(t, ports, chunks, final);
          EndKeepsShape(AfterText(t, ports, final), ports, chunks + [final]);
        }
    }
  }

  /** A tracker adds to what is already there and never looks at it. */
  lemma {:induction false} RunAppends(ports: Ports, log: seq<ReasoningEvent>, blocks: seq<string>, calls: seq<Call>)
    ensures var own := Run(FRESH, ports, calls);
            Run(FRESH.(log := log, blocks := blocks), ports, calls)
            == own.(log := log + own.log, blocks := blocks + own.blocks)
  {
    if calls != [] {
      RunAppends(ports, log, blocks, calls[..|calls| - 1]);
      CallAppends(Run(FRESH, ports, calls[..|calls| - 1]), ports, log, blocks, calls[|calls| - 1]);
    }
  }

  lemma CallAppends(t: Track, ports: Ports, log: seq<ReasoningEvent>, blocks: seq<string>, call: Call)
    ensures var next := After(t, ports, call);
            After(t.(log := log + t.log, blocks := blocks + t.blocks), ports, call)
            == next.(log := log + next.log, blocks := blocks + next.blocks)
  {
    var joined := t.(log := log + t.log, blocks := blocks + t.blocks);
    EndAppends(t, ports, log, blocks);
    match call
    case OnDelta(text) => TextAppends(t, ports, log, blocks, text);
    case OnEnd =>
    case OnComplete(final) =>
      TextAppends(t, ports, log, blocks, final);
      EndAppends(AfterText(t, ports, final), ports, log, blocks);
  }

  lemma TextAppends(t: Track, ports: Ports, log: seq<ReasoningEvent>, blocks: seq<string>, text: string)
    ensures var next := AfterText(t, ports, text);
            AfterText(t.(log := log + t.log, blocks := blocks + t.blocks), ports, text)
            == next.(log := log + next.log, blocks := blocks + next.blocks)
  {
    assert log + (t.log + [Started]) == (log + t.log) + [Started];
    assert log + (t.log + [Started] + [Delta(text)]) == (log + t.log) + [Started] + [Delta(text)];
    assert log + (t.log + [Delta(text)]) == (log + t.log) + [Delta(text)];
  }

  lemma EndAppends(t: Track, ports: Ports, log: seq<ReasoningEvent>, blocks: seq<string>)
    ensures var next := AfterEnd(t, ports);
            AfterEnd(t.(log := log + t.log, blocks := blocks + t.blocks), ports)
            == next.(log := log + next.log, blocks := blocks + next.blocks)
  {
    assert log + (t.log + [Ended(t.content)]) == (log + t.log) + [Ended(t.content)];
    assert blocks + (t.blocks + [t.content]) == (blocks + t.blocks) + [t.content];
  }
}
