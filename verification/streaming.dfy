/** The server's side of a job: it answers, runs the job, and reports on it for as long as
    its writes succeed. */
module Streaming {
  import opened Text
  import opened Protocol

  function Wires(lines: seq<Line>): seq<Wire> {
    seq(|lines|, i requires 0 <= i < |lines| => Object(Encode(lines[i])))
  }

  /** What may have arrived of the lines that were handed to the transport: some first part,
      and after it perhaps a fragment of the next. */
  ghost predicate MayArrive(items: seq<Wire>, lines: seq<Line>) {
    exists n :: 0 <= n <= |lines| && (items == Wires(lines[..n]) || items == Wires(lines[..n]) + [Garbled])
  }

  /** A framed stream: lines wait in its buffer until they are flushed. */
  class Transport {
    var delivered: seq<Wire>
    var buffered: seq<Line>
    ghost var lines: seq<Line>
    ghost var failed: bool

    ghost predicate Valid()
      reads this
    {
      && (!failed ==>
        && |buffered| <= |lines|
        && buffered == lines[|lines| - |buffered|..]
        && delivered == Wires(lines[..|lines| - |buffered|]))
      && MayArrive(delivered, lines)
    }

    constructor ()
      ensures Valid() && lines == [] && !failed && buffered == []
    {
      delivered, buffered, lines, failed := [], [], [], false;
      new;
      assert delivered == Wires(lines[..0]);
    }

    /** Writes a line; it may fail or time out, with any part of what is due delivered. The
        caller must not write again after that. */
    method WriteLine(line: Line) returns (written: bool)
      requires Valid() && !failed
      modifies this
      ensures Valid() && lines == old(lines) + [line]
      ensures written <==> !failed
      ensures written ==> buffered == [] && delivered == Wires(lines)
    {
      hide Wires;
      ghost var start := |lines| - |buffered|;
      lines := lines + [line];
      buffered := buffered + [line];
      assert lines[..start] == old(lines)[..start] && buffered == lines[start..];
      var fault: bool := *;
      var sent: int := *;
      var torn: bool := *;
      var count := if fault && 0 <= sent < |buffered| then sent else |buffered|;
      FlushPart(lines, start, count);
      delivered := delivered + Wires(buffered[..count]);
      if fault {
        if torn {
          delivered := delivered + [Garbled];
        }
        failed := true;
        return false;
      }
      assert buffered[..count] == buffered && lines[..start + count] == lines;
      buffered := [];
      written := true;
    }

    /** A write given up because the job completed first: the line is in the buffer or not,
        and some of the buffer may have been flushed. */
    method InterruptWrite(line: Line)
      requires Valid() && !failed
      modifies this
      ensures Valid() && !failed && (lines == old(lines) || lines == old(lines) + [line])
    {
      hide Wires;
      ghost var start := |lines| - |buffered|;
      var fed: bool := *;
      if fed {
        lines := lines + [line];
        buffered := buffered + [line];
        assert lines[..start] == old(lines)[..start] && buffered == lines[start..];
      }
      var sent: int := *;
      var count := if 0 <= sent < |buffered| then sent else |buffered|;
      FlushPart(lines, start, count);
      delivered := delivered + Wires(buffered[..count]);
      buffered := buffered[count..];
      assert |lines| - |buffered| == start + count;
    }
  }

  lemma FlushPart(lines: seq<Line>, start: nat, count: nat)
    requires start + count <= |lines|
    ensures Wires(lines[..start]) + Wires(lines[start..][..count]) == Wires(lines[..start + count])
    ensures lines[start..][count..] == lines[start + count..]
  {
    hide Encode;
  }

  /** The job's own work: it is awaited exactly once, whatever becomes of the stream. */
  class JobRun {
    const outcome: Result<string, string>
    var awaited: bool

    constructor (outcome: Result<string, string>)
      ensures this.outcome == outcome && !awaited
    {
      this.outcome, awaited := outcome, false;
    }

    method Await() returns (result: Result<string, string>)
      requires !awaited
      modifies this
      ensures awaited && result == outcome
    {
      awaited := true;
      result := outcome;
    }
  }

  datatype Race = JobFirst | WriteFirst

  /** What a turn of the select loop finds ready first. */
  datatype Choice =
    | JobDone
    | EventReady(download: Download, race: Race)
    | ChannelClosed
    | HeartbeatDue(race: Race)

  datatype ServerError = JobError(message: string) | WriteFailed | NotEnqueued(message: string) | DatabaseFailed

  predicate Chatter(e: Event) {
    !e.JobCompleted? && !e.JobFailed?
  }

  function Terminal(id: string, outcome: Result<string, string>): Event {
    if outcome.Ok? then JobCompleted(id, outcome.value) else JobFailed(id, outcome.error)
  }

  predicate ChatterOf(line: Line, id: string) {
    line.Note? && line.event.jobId == id && Chatter(line.event)
  }

  /** From a position on, only reports on the job. */
  predicate OnlyChatter(lines: seq<Line>, from: nat, id: string) {
    forall i :: from <= i < |lines| ==> ChatterOf(lines[i], id)
  }

  /** From a position on, reports on the job and after them perhaps how it ended. */
  predicate Told(lines: seq<Line>, from: nat, id: string, outcome: Result<string, string>) {
    forall i :: from <= i < |lines| ==>
      ChatterOf(lines[i], id) || (i == |lines| - 1 && lines[i] == Note(Terminal(id, outcome)))
  }

  predicate Finished(lines: seq<Line>, id: string, outcome: Result<string, string>) {
    lines != [] && lines[|lines| - 1] == Note(Terminal(id, outcome))
  }

  /** The line a turn of the loop has to write, if any; a closed channel yields no events. */
  function TurnLine(choice: Choice, eventsOpen: bool, id: string, heartbeat: string): Option<Line> {
    match choice
    case EventReady(download, _) => if eventsOpen then Some(Note(DownloadProgress(id, download))) else None
    case HeartbeatDue(_) => Some(Note(Log(id, heartbeat)))
    case _ => None
  }

  predicate EndsLoop(choice: Choice, eventsOpen: bool) {
    choice.JobDone? || ((choice.HeartbeatDue? || (choice.EventReady? && eventsOpen)) && choice.race.JobFirst?)
  }

  /** The reports due from a turn on, until the job is done. */
  function Due(choices: seq<Choice>, from: nat, eventsOpen: bool, id: string, heartbeat: string): seq<Line>
    requires from <= |choices|
    decreases |choices| - from
  {
    if from == |choices| || EndsLoop(choices[from], eventsOpen) then []
    else
      var line := TurnLine(choices[from], eventsOpen, id, heartbeat);
      (if line.Some? then [line.value] else [])
        + Due(choices, from + 1, eventsOpen && !choices[from].ChannelClosed?, id, heartbeat)
  }

  /** The report whose write the completion may interrupt. */
  function Interrupted(choices: seq<Choice>, from: nat, eventsOpen: bool, id: string, heartbeat: string): seq<Line>
    requires from <= |choices|
    decreases |choices| - from
  {
    if from == |choices| || choices[from].JobDone? then []
    else if EndsLoop(choices[from], eventsOpen) then [TurnLine(choices[from], eventsOpen, id, heartbeat).value]
    else Interrupted(choices, from + 1, eventsOpen && !choices[from].ChannelClosed?, id, heartbeat)
  }

  /** What the loop writes: all that is due, with an interrupted report or without it. */
  predicate LoopWrote(lines: seq<Line>, choices: seq<Choice>, id: string, heartbeat: string) {
    var due := Due(choices, 0, true, id, heartbeat);
    lines == due || lines == due + Interrupted(choices, 0, true, id, heartbeat)
  }

  lemma DueSoFar(written: seq<Line>, line: Line, choices: seq<Choice>, from: nat, eventsOpen: bool, id: string,
                 heartbeat: string)
    requires from < |choices| && !EndsLoop(choices[from], eventsOpen)
    requires TurnLine(choices[from], eventsOpen, id, heartbeat) == Some(line)
    ensures written + Due(choices, from, eventsOpen, id, heartbeat)
      == (written + [line]) + Due(choices, from + 1, eventsOpen, id, heartbeat)
    ensures Interrupted(choices, from, eventsOpen, id, heartbeat)
      == Interrupted(choices, from + 1, eventsOpen, id, heartbeat)
  {
    assert !choices[from].ChannelClosed?;
  }

  lemma DueSilent(choices: seq<Choice>, from: nat, eventsOpen: bool, id: string, heartbeat: string)
    requires from < |choices| && !EndsLoop(choices[from], eventsOpen)
    requires TurnLine(choices[from], eventsOpen, id, heartbeat).None?
    ensures Due(choices, from, eventsOpen, id, heartbeat)
      == Due(choices, from + 1, eventsOpen && !choices[from].ChannelClosed?, id, heartbeat)
    ensures Interrupted(choices, from, eventsOpen, id, heartbeat)
      == Interrupted(choices, from + 1, eventsOpen && !choices[from].ChannelClosed?, id, heartbeat)
  {
  }

  lemma {:induction false} DueChatter(choices: seq<Choice>, from: nat, eventsOpen: bool, id: string, heartbeat: string)
    requires from <= |choices|
    ensures OnlyChatter(Due(choices, from, eventsOpen, id, heartbeat), 0, id)
    ensures OnlyChatter(Interrupted(choices, from, eventsOpen, id, heartbeat), 0, id)
    decreases |choices| - from
  {
    if from < |choices| {
      DueChatter(choices, from + 1, eventsOpen && !choices[from].ChannelClosed?, id, heartbeat);
    }
  }

  lemma WroteChatter(wrote: seq<Line>, choices: seq<Choice>, id: string, heartbeat: string)
    requires LoopWrote(wrote, choices, id, heartbeat) || wrote <= Due(choices, 0, true, id, heartbeat)
    ensures OnlyChatter(wrote, 0, id)
  {
    hide Due, Interrupted, ChatterOf;
    DueChatter(choices, 0, true, id, heartbeat);
  }

  /** The loop itself, turn by turn. */
  method RunLoop(transport: Transport, id: string, heartbeat: string, job: JobRun, choices: seq<Choice>)
    returns (result: Result<string, string>, transportIsOpen: bool, ghost wrote: seq<Line>)
    requires transport.Valid() && !transport.failed && !job.awaited
    modifies transport, job
    ensures job.awaited && result == job.outcome
    ensures transport.Valid() && (transportIsOpen <==> !transport.failed)
    ensures transport.lines == old(transport.lines) + wrote
    ensures !transport.failed ==> LoopWrote(wrote, choices, id, heartbeat)
    ensures transport.failed ==> wrote != [] && wrote <= Due(choices, 0, true, id, heartbeat)
  {
    hide MayArrive, Wires, Due, Interrupted, Transport.Valid;
    ghost var due := Due(choices, 0, true, id, heartbeat);
    ghost var interrupted := Interrupted(choices, 0, true, id, heartbeat);
    wrote := [];
    var eventsOpen := true;
    for i := 0 to |choices|
      invariant transport.Valid() && !transport.failed && !job.awaited
      invariant transport.lines == old(transport.lines) + wrote && wrote <= due
      invariant due == wrote + Due(choices, i, eventsOpen, id, heartbeat)
      invariant interrupted == Interrupted(choices, i, eventsOpen, id, heartbeat)
    {
      LoopEnds(choices, i, eventsOpen, id, heartbeat);
      var event: Line;
      match choices[i] {
        case JobDone =>
          result := job.Await();
          return result, true, wrote;
        case ChannelClosed =>
          DueSilent(choices, i, eventsOpen, id, heartbeat);
          eventsOpen := false;
          continue;
        case EventReady(download, _) =>
          if !eventsOpen {
            DueSilent(choices, i, eventsOpen, id, heartbeat);
            continue;
          }
          event := Note(DownloadProgress(id, download));
        case HeartbeatDue(_) =>
          event := Note(Log(id, heartbeat));
      }
      if choices[i].race.JobFirst? {
        assert wrote + [] == wrote == due && interrupted == [event];
        transport.InterruptWrite(event);
        if transport.lines != old(transport.lines) + wrote {
          wrote := wrote + [event];
        }
        result := job.Await();
        return result, true, wrote;
      }
      DueSoFar(wrote, event, choices, i, eventsOpen, id, heartbeat);
      var written := transport.WriteLine(event);
      wrote := wrote + [event];
      if !written {
        result := job.Await();
        return result, false, wrote;
      }
    }
    LoopOver(choices, eventsOpen, id, heartbeat);
    result := job.Await();
    transportIsOpen := true;
  }

  lemma LoopEnds(choices: seq<Choice>, from: nat, eventsOpen: bool, id: string, heartbeat: string)
    requires from < |choices|
    ensures EndsLoop(choices[from], eventsOpen) ==> Due(choices, from, eventsOpen, id, heartbeat) == []
    ensures choices[from].JobDone? ==> Interrupted(choices, from, eventsOpen, id, heartbeat) == []
    ensures EndsLoop(choices[from], eventsOpen) && !choices[from].JobDone? ==>
      Interrupted(choices, from, eventsOpen, id, heartbeat)
        == [TurnLine(choices[from], eventsOpen, id, heartbeat).value]
  {
  }

  lemma LoopOver(choices: seq<Choice>, eventsOpen: bool, id: string, heartbeat: string)
    ensures Due(choices, |choices|, eventsOpen, id, heartbeat) == []
    ensures Interrupted(choices, |choices|, eventsOpen, id, heartbeat) == []
  {
  }

  /** The select loop: completion, progress events and heartbeats in any order; a failed
      write ends the reporting but not the job. `wrote` is what the loop wrote. */
  method CompleteStreamedJob(transport: Transport, id: string, heartbeat: string, job: JobRun, choices: seq<Choice>)
    returns (result: Result<string, string>, transportIsOpen: bool, ghost wrote: seq<Line>)
    requires transport.Valid() && !transport.failed && !job.awaited
    modifies transport, job
    ensures job.awaited && result == job.outcome
    ensures transport.Valid() && (transportIsOpen <==> !transport.failed)
    ensures transport.lines == old(transport.lines) + wrote && OnlyChatter(wrote, 0, id)
    ensures !transport.failed ==> LoopWrote(wrote, choices, id, heartbeat)
    ensures transport.failed ==> wrote != [] && wrote <= Due(choices, 0, true, id, heartbeat)
  {
    result, transportIsOpen, wrote := RunLoop(transport, id, heartbeat, job, choices);
    WroteChatter(wrote, choices, id, heartbeat);
  }

  function AsServerResult(outcome: Result<string, string>): Result<(), ServerError> {
    if outcome.Ok? then Ok(()) else Err(JobError(outcome.error))
  }

  function Opening(id: string, kind: string, scope: string, started: string): seq<Line> {
    [Note(JobStarted(id, kind, scope)), Note(Log(id, started))]
  }

  function Closing(id: string, outcome: Result<string, string>): seq<Line> {
    (if outcome.Ok? then [Note(Progress(id, outcome.value))] else []) + [Note(Terminal(id, outcome))]
  }

  /** As far as the lines go from a position on, they are these. */
  predicate Begins(lines: seq<Line>, from: nat, opening: seq<Line>) {
    forall i :: 0 <= i < |opening| && from + i < |lines| ==> lines[from + i] == opening[i]
  }

  /** What the server returns when a write fails after so many lines of a started job, so many
      of them from the loop: a write error if one of the opening or closing lines failed, which
      then hides the job's own result, and that result if a line of the loop failed. */
  function BrokenResult(lines: nat, looped: nat, outcome: Result<string, string>): Result<(), ServerError> {
    if lines <= 2 || lines > 2 + looped then Err(WriteFailed) else AsServerResult(outcome)
  }

  method WriteOpening(transport: Transport, id: string, kind: string, scope: string, started: string)
    returns (written: bool)
    requires transport.Valid() && !transport.failed
    modifies transport
    ensures transport.Valid() && (written <==> !transport.failed)
    ensures |old(transport.lines)| < |transport.lines| <= |old(transport.lines)| + 2
    ensures old(transport.lines) <= transport.lines && OnlyChatter(transport.lines, |old(transport.lines)|, id)
    ensures Begins(transport.lines, |old(transport.lines)|, Opening(id, kind, scope, started))
    ensures written ==> transport.lines == old(transport.lines) + Opening(id, kind, scope, started)
  {
    hide MayArrive, Wires;
    written := transport.WriteLine(Note(JobStarted(id, kind, scope)));
    if written {
      written := transport.WriteLine(Note(Log(id, started)));
    }
  }

  /** A started job, streamed while the stream is open and run in any case. */
  method StreamStartedJob(transport: Transport, streamIsOpen: bool, id: string, kind: string, scope: string,
                          started: string, heartbeat: string, job: JobRun, choices: seq<Choice>)
    returns (result: Result<(), ServerError>, ghost wrote: seq<Line>)
    requires transport.Valid() && (streamIsOpen <==> !transport.failed) && !job.awaited
    modifies transport, job
    ensures job.awaited && transport.Valid()
    ensures old(transport.lines) <= transport.lines && Told(transport.lines, |old(transport.lines)|, id, job.outcome)
    ensures !streamIsOpen ==> transport.lines == old(transport.lines) && transport.failed
    ensures !transport.failed ==>
      Finished(transport.lines, id, job.outcome) && transport.delivered == Wires(transport.lines) && result == Ok(())
    ensures !transport.failed ==>
      && transport.lines == old(transport.lines) + Opening(id, kind, scope, started) + wrote + Closing(id, job.outcome)
      && LoopWrote(wrote, choices, id, heartbeat)
    ensures transport.failed && streamIsOpen ==>
      result == BrokenResult(|transport.lines| - |old(transport.lines)|, |wrote|, job.outcome)
    ensures !streamIsOpen ==> result == AsServerResult(job.outcome)
    ensures streamIsOpen ==> |transport.lines| > |old(transport.lines)|
    ensures Begins(transport.lines, |old(transport.lines)|, Opening(id, kind, scope, started))
  {
    hide MayArrive, Wires, LoopWrote;
    wrote := [];
    var startedWritten := true;
    if streamIsOpen {
      startedWritten := WriteOpening(transport, id, kind, scope, started);
    }
    var outcome: Result<string, string>;
    var transportIsOpen := false;
    if streamIsOpen && startedWritten {
      outcome, transportIsOpen, wrote := CompleteStreamedJob(transport, id, heartbeat, job, choices);
    } else {
      outcome := job.Await();
    }
    if !startedWritten {
      return Err(WriteFailed), wrote;
    }
    if !streamIsOpen || !transportIsOpen {
      return AsServerResult(outcome), wrote;
    }
    if outcome.Ok? {
      var written := transport.WriteLine(Note(Progress(id, outcome.value)));
      if !written {
        return Err(WriteFailed), wrote;
      }
      written := transport.WriteLine(Note(JobCompleted(id, outcome.value)));
      if !written {
        return Err(WriteFailed), wrote;
      }
    } else {
      var written := transport.WriteLine(Note(JobFailed(id, outcome.error)));
      if !written {
        return Err(WriteFailed), wrote;
      }
    }
    result := Ok(());
  }

  // ------------------------------------------------------------------
  // The loop, one turn at a time
  // ------------------------------------------------------------------

  lemma {:induction false} LoopFrom(choices: seq<Choice>, d: nat, from: nat, eventsOpen: bool, id: string,
                                    heartbeat: string)
    requires d <= from <= |choices|
    ensures Due(choices, from, eventsOpen, id, heartbeat) == Due(choices[d..], from - d, eventsOpen, id, heartbeat)
    ensures Interrupted(choices, from, eventsOpen, id, heartbeat)
      == Interrupted(choices[d..], from - d, eventsOpen, id, heartbeat)
    decreases |choices| - from
  {
    if from < |choices| {
      LoopFrom(choices, d, from + 1, eventsOpen && !choices[from].ChannelClosed?, id, heartbeat);
    }
  }

  /** What the first turn adds: a report whose write is over before the job is one more line, one
      that the job overtakes may be the last line, and a closed channel reports nothing more. */
  lemma LoopTurns(first: Choice, rest: seq<Choice>, eventsOpen: bool, id: string, heartbeat: string)
    ensures Due([first] + rest, 0, eventsOpen, id, heartbeat) ==
      match first
      case JobDone => []
      case ChannelClosed => Due(rest, 0, false, id, heartbeat)
      case HeartbeatDue(JobFirst) => []
      case HeartbeatDue(WriteFirst) => [Note(Log(id, heartbeat))] + Due(rest, 0, eventsOpen, id, heartbeat)
      case EventReady(download, race) =>
        if !eventsOpen then Due(rest, 0, false, id, heartbeat)
        else if race.JobFirst? then []
        else [Note(DownloadProgress(id, download))] + Due(rest, 0, true, id, heartbeat)
    ensures Interrupted([first] + rest, 0, eventsOpen, id, heartbeat) ==
      match first
      case JobDone => []
      case ChannelClosed => Interrupted(rest, 0, false, id, heartbeat)
      case HeartbeatDue(JobFirst) => [Note(Log(id, heartbeat))]
      case HeartbeatDue(WriteFirst) => Interrupted(rest, 0, eventsOpen, id, heartbeat)
      case EventReady(download, race) =>
        if eventsOpen && race.JobFirst? then [Note(DownloadProgress(id, download))]
        else Interrupted(rest, 0, eventsOpen, id, heartbeat)
  {
    var choices := [first] + rest;
    assert choices[1..] == rest;
    LoopFrom(choices, 1, 1, eventsOpen && !first.ChannelClosed?, id, heartbeat);
  }
}
