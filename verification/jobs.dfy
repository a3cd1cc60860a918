/** The job request from end to end: how the daemon routes and serves it, and what a client
    that reads any part of the stream may conclude. */
module Jobs {
  import opened Text
  import opened Scope
  import opened Protocol
  import opened Client
  import opened Streaming

  /** What asking the queue for the job comes to. */
  datatype Enqueued =
    | Queued(id: string)
    | Coalesced(id: string)
    | LockHeld(message: string)
    | EnqueueFailed(message: string)

  datatype Route = Reconcile(scope: Scope) | InvalidScope(error: ScopeError) | Update | Unsupported

  function RouteOf(kind: string, scope: string): Route {
    var parsed := Parse(scope);
    if kind == "reconcile" then if parsed.Ok? then Reconcile(parsed.value) else InvalidScope(parsed.error)
    else if kind == "update" && scope == "system" then Update
    else Unsupported
  }

  function ScopeErrorText(error: ScopeError): string {
    match error
    case UnknownScope(scope) => "unknown reconciliation scope `" + scope + "`"
    case InvalidComponentCount(scope, expected, actual) =>
      "reconciliation scope `" + scope + "` has " + Decimal(actual) + " components; expected " + Decimal(expected)
    case EmptyComponent(scope, component) =>
      "reconciliation scope `" + scope + "` has an empty " + component + " component"
  }

  function InvalidScopeText(scope: string, error: ScopeError): string {
    "invalid reconciliation scope `" + scope + "`: " + ScopeErrorText(error)
  }

  function UnsupportedText(kind: string, scope: string): string {
    "unsupported daemon job `" + kind + "` with scope `" + scope + "`"
  }

  function StartedMessage(scope: Scope): string {
    match scope
    case Project(_) => "Project env reconciliation started"
    case System => "System reconciliation started"
    case Resource(name, _) =>
      if name == "php" || name == "frankenphp" then "Gateway runtime reconciliation started"
      else "Managed Resource runtime reconciliation started"
  }

  // ------------------------------------------------------------------
  // Serving
  // ------------------------------------------------------------------

  /** The lines of an accepted job: the answer, reports, and perhaps how it ended. */
  predicate Speaks(lines: seq<Line>, id: string, outcome: Result<string, string>) {
    lines != [] && lines[0] == Answer(AcceptedResponse("job accepted", id)) && Told(lines, 1, id, outcome)
  }

  /** What the server returns for a queued job: success if no write failed, whatever the job
      came to; the job's error, else the write error, if the answer could not be written. */
  function QueuedResult(lines: nat, failed: bool, looped: nat, outcome: Result<string, string>)
    : Result<(), ServerError>
  {
    if !failed then Ok(())
    else if lines == 1 then if outcome.Err? then AsServerResult(outcome) else Err(WriteFailed)
    else BrokenResult(if lines > 1 then lines - 1 else 0, looped, outcome)
  }

  /** Line by line: the answer, the opening lines, what the loop wrote, and the closing lines; the
      first three as far as the stream lasts. */
  ghost predicate ServedJob(lines: seq<Line>, failed: bool, wrote: seq<Line>, choices: seq<Choice>, id: string,
                            kind: string, scope: string, started: string, heartbeat: string,
                            outcome: Result<string, string>)
  {
    var opening := [Answer(AcceptedResponse("job accepted", id)), Note(JobStarted(id, kind, scope)),
                    Note(Log(id, started))];
    var closing := if outcome.Ok? then [Note(Progress(id, outcome.value)), Note(JobCompleted(id, outcome.value))]
                   else [Note(JobFailed(id, outcome.error))];
    && Begins(lines, 0, opening)
    && (!failed ==> lines == opening + wrote + closing && LoopWrote(wrote, choices, id, heartbeat))
  }

  lemma ServedLines(lines: seq<Line>, failed: bool, wrote: seq<Line>, choices: seq<Choice>, id: string, kind: string,
                    scope: string, started: string, heartbeat: string, outcome: Result<string, string>)
    requires lines != [] && lines[0] == Answer(AcceptedResponse("job accepted", id))
    requires Begins(lines, 1, Opening(id, kind, scope, started))
    requires !failed ==>
      && lines == [lines[0]] + Opening(id, kind, scope, started) + wrote + Closing(id, outcome)
      && LoopWrote(wrote, choices, id, heartbeat)
    ensures ServedJob(lines, failed, wrote, choices, id, kind, scope, started, heartbeat, outcome)
  {
    hide LoopWrote;
    var opening := Opening(id, kind, scope, started);
    assert 1 < |lines| ==> lines[1 + 0] == opening[0];
    assert 2 < |lines| ==> lines[1 + 1] == opening[1];
    assert [lines[0]] + opening == [lines[0], Note(JobStarted(id, kind, scope)), Note(Log(id, started))];
  }

  method RunQueuedJob(transport: Transport, id: string, kind: string, scope: string, started: string, heartbeat: string,
                      job: JobRun, choices: seq<Choice>)
    returns (result: Result<(), ServerError>, ghost wrote: seq<Line>)
    requires transport.Valid() && !transport.failed && transport.lines == [] && !job.awaited
    modifies transport, job
    ensures job.awaited && transport.Valid() && Speaks(transport.lines, id, job.outcome)
    ensures !transport.failed ==>
      && Finished(transport.lines, id, job.outcome) && transport.delivered == Wires(transport.lines)
      && transport.lines == [Answer(AcceptedResponse("job accepted", id))] + Opening(id, kind, scope, started) + wrote
        + Closing(id, job.outcome)
      && LoopWrote(wrote, choices, id, heartbeat)
    ensures result == QueuedResult(|transport.lines|, transport.failed, |wrote|, job.outcome)
    ensures ServedJob(transport.lines, transport.failed, wrote, choices, id, kind, scope, started, heartbeat,
                      job.outcome)
  {
    hide MayArrive, Wires, LoopWrote, ServedJob;
    var accepted := transport.WriteLine(Answer(AcceptedResponse("job accepted", id)));
    result, wrote := StreamStartedJob(transport, accepted, id, kind, scope, started, heartbeat, job, choices);
    assert transport.lines[0] == Answer(AcceptedResponse("job accepted", id));
    ServedLines(transport.lines, transport.failed, wrote, choices, id, kind, scope, started, heartbeat, job.outcome);
    if result.Ok? && !accepted {
      result := Err(WriteFailed);
    }
  }

  /** What the server returns when the queue answered. */
  function QueueResult(enqueued: Enqueued, lines: nat, failed: bool, looped: nat, outcome: Result<string, string>)
    : Result<(), ServerError>
  {
    match enqueued
    case Queued(_) => QueuedResult(lines, failed, looped, outcome)
    case EnqueueFailed(message) => Err(NotEnqueued(message))
    case _ => if failed then Err(WriteFailed) else Ok(())
  }

  method RunReconciliationJob(transport: Transport, scope: Scope, enqueued: Enqueued, job: JobRun, choices: seq<Choice>)
    returns (result: Result<(), ServerError>, ghost wrote: seq<Line>)
    requires transport.Valid() && !transport.failed && transport.lines == [] && !job.awaited
    modifies transport, job
    ensures transport.Valid() && (job.awaited <==> enqueued.Queued?)
    ensures ServedQueue(transport.lines, transport.failed, false, enqueued, job.outcome)
    ensures !transport.failed ==> transport.lines == [] || transport.delivered == Wires(transport.lines)
    ensures result == QueueResult(enqueued, |transport.lines|, transport.failed, |wrote|, job.outcome)
    ensures enqueued.Queued? ==>
      ServedJob(transport.lines, transport.failed, wrote, choices, enqueued.id, "reconcile", Print(scope),
                StartedMessage(scope), "Reconciliation still running", job.outcome)
  {
    hide MayArrive, Wires, Speaks, Told, QueuedResult, ServedJob;
    wrote := [];
    match enqueued {
      case Queued(id) =>
        result, wrote := RunQueuedJob(transport, id, "reconcile", Print(scope), StartedMessage(scope),
                                      "Reconciliation still running", job, choices);
      case Coalesced(id) =>
        var written := transport.WriteLine(Answer(AcceptedResponse("reconciliation already queued or running", id)));
        result := if written then Ok(()) else Err(WriteFailed);
      case LockHeld(message) =>
        var written := transport.WriteLine(Answer(ErrorResponse(message)));
        result := if written then Ok(()) else Err(WriteFailed);
      case EnqueueFailed(message) =>
        result := Err(NotEnqueued(message));
    }
  }

  method RunUpdateJob(transport: Transport, enqueued: Enqueued, job: JobRun, choices: seq<Choice>)
    returns (result: Result<(), ServerError>, ghost wrote: seq<Line>)
    requires transport.Valid() && !transport.failed && transport.lines == [] && !job.awaited
    modifies transport, job
    ensures transport.Valid() && (job.awaited <==> enqueued.Queued?)
    ensures ServedQueue(transport.lines, transport.failed, true, enqueued, job.outcome)
    ensures !transport.failed ==> transport.lines == [] || transport.delivered == Wires(transport.lines)
    ensures result == QueueResult(enqueued, |transport.lines|, transport.failed, |wrote|, job.outcome)
    ensures enqueued.Queued? ==>
      ServedJob(transport.lines, transport.failed, wrote, choices, enqueued.id, "update", "system",
                "Managed Resource update started", "Managed Resource update still running", job.outcome)
  {
    hide MayArrive, Wires, Speaks, Told, QueuedResult, ServedJob;
    wrote := [];
    match enqueued {
      case Queued(id) =>
        result, wrote := RunQueuedJob(transport, id, "update", "system", "Managed Resource update started",
                                      "Managed Resource update still running", job, choices);
      case Coalesced(_) =>
        var written := transport.WriteLine(Answer(ErrorResponse("update already queued or running")));
        result := if written then Ok(()) else Err(WriteFailed);
      case LockHeld(message) =>
        var written := transport.WriteLine(Answer(ErrorResponse(message)));
        result := if written then Ok(()) else Err(WriteFailed);
      case EnqueueFailed(message) =>
        result := Err(NotEnqueued(message));
    }
  }

  /** What a request for queued work is told. */
  ghost predicate ServedQueue(lines: seq<Line>, failed: bool, update: bool, enqueued: Enqueued,
                              outcome: Result<string, string>) {
    match enqueued
    case Queued(id) => Speaks(lines, id, outcome) && (!failed ==> Finished(lines, id, outcome))
    case Coalesced(id) =>
      lines == [Answer(
        if update then ErrorResponse("update already queued or running")
        else AcceptedResponse("reconciliation already queued or running", id))]
    case LockHeld(message) => lines == [Answer(ErrorResponse(message))]
    case EnqueueFailed(_) => lines == []
  }

  /** A job that is not queued is recorded and failed on the spot; `ownId` is the id the
      database gives it, `recorded` whether its failure could be recorded. */
  ghost predicate ServedDirectly(lines: seq<Line>, failed: bool, ownId: Option<string>, recorded: bool,
                                 outcome: Result<string, string>) {
    match ownId
    case None => lines == []
    case Some(id) => Speaks(lines, id, outcome) && (recorded && !failed ==> Finished(lines, id, outcome))
  }

  /** What the server returns for such a job: a database error if it could not be opened or its
      end not recorded; else a write error exactly if one of the lines after the opening ones
      could not be written. A failure before that is passed over. */
  function DirectResult(ownId: Option<string>, recorded: bool, lines: nat, failed: bool, opening: nat)
    : Result<(), ServerError>
  {
    if ownId.None? || !recorded then Err(DatabaseFailed)
    else if failed && lines > opening then Err(WriteFailed)
    else Ok(())
  }

  method RunInvalidScopeJob(transport: Transport, scope: string, error: ScopeError, ownId: Option<string>,
                            recorded: bool)
    returns (result: Result<(), ServerError>)
    requires transport.Valid() && !transport.failed && transport.lines == []
    modifies transport
    ensures transport.Valid()
    ensures ServedDirectly(transport.lines, transport.failed, ownId, recorded, Err(InvalidScopeText(scope, error)))
    ensures ownId.Some? ==>
      Begins(transport.lines, 0,
        [Answer(AcceptedResponse("job accepted", ownId.value)), Note(JobStarted(ownId.value, "reconcile", scope)),
         Note(JobFailed(ownId.value, InvalidScopeText(scope, error)))])
    ensures result == DirectResult(ownId, recorded, |transport.lines|, transport.failed, 2)
    ensures !transport.failed ==> transport.lines == [] || transport.delivered == Wires(transport.lines)
  {
    hide MayArrive, Wires, InvalidScopeText;
    if ownId.None? {
      return Err(DatabaseFailed);
    }
    var id := ownId.value;
    var open := transport.WriteLine(Answer(AcceptedResponse("job accepted", id)));
    if open {
      open := transport.WriteLine(Note(JobStarted(id, "reconcile", scope)));
    }
    if !recorded {
      return Err(DatabaseFailed);
    }
    if open {
      var written := transport.WriteLine(Note(JobFailed(id, InvalidScopeText(scope, error))));
      if !written {
        return Err(WriteFailed);
      }
    }
    result := Ok(());
  }

  function StubOutcome(kind: string, scope: string): Result<string, string> {
    if kind != "reconcile" || Parse(scope).Err? then Err(UnsupportedText(kind, scope)) else Ok("stub job completed")
  }

  function StubOpening(id: string, kind: string, scope: string): seq<Line> {
    [Answer(AcceptedResponse("job accepted", id)), Note(JobStarted(id, kind, scope)), Note(Log(id, "stub job started"))]
  }

  method OpenStartedJob(transport: Transport, id: string, kind: string, scope: string) returns (open: bool)
    requires transport.Valid() && !transport.failed && transport.lines == []
    modifies transport
    ensures transport.Valid() && (open <==> !transport.failed)
    ensures 1 <= |transport.lines| <= 3 && transport.lines == StubOpening(id, kind, scope)[..|transport.lines|]
    ensures open ==> |transport.lines| == 3 && transport.delivered == Wires(transport.lines)
  {
    hide MayArrive, Wires;
    open := transport.WriteLine(Answer(AcceptedResponse("job accepted", id)));
    if open {
      open := transport.WriteLine(Note(JobStarted(id, kind, scope)));
    }
    if open {
      open := transport.WriteLine(Note(Log(id, "stub job started")));
    }
  }

  method RunStartedJob(transport: Transport, kind: string, scope: string, ownId: Option<string>, recorded: bool)
    returns (result: Result<(), ServerError>)
    requires transport.Valid() && !transport.failed && transport.lines == []
    modifies transport
    ensures transport.Valid()
    ensures ServedDirectly(transport.lines, transport.failed, ownId, recorded, StubOutcome(kind, scope))
    ensures ownId.Some? ==>
      Begins(transport.lines, 0,
        [Answer(AcceptedResponse("job accepted", ownId.value)), Note(JobStarted(ownId.value, kind, scope)),
         Note(Log(ownId.value, "stub job started"))])
    ensures result == DirectResult(ownId, recorded, |transport.lines|, transport.failed, 3)
    ensures !transport.failed ==> transport.lines == [] || transport.delivered == Wires(transport.lines)
  {
    hide MayArrive, Wires, UnsupportedText, Parse;
    if ownId.None? {
      return Err(DatabaseFailed);
    }
    var id := ownId.value;
    var open := OpenStartedJob(transport, id, kind, scope);
    if !recorded {
      return Err(DatabaseFailed);
    }
    if kind != "reconcile" || Parse(scope).Err? {
      if open {
        var written := transport.WriteLine(Note(JobFailed(id, UnsupportedText(kind, scope))));
        if !written {
          return Err(WriteFailed);
        }
      }
      return Ok(());
    }
    if !open {
      return Ok(());
    }
    var written := transport.WriteLine(Note(Progress(id, "stub job completed without reconciliation work")));
    if !written {
      return Err(WriteFailed);
    }
    written := transport.WriteLine(Note(JobCompleted(id, "stub job completed")));
    result := if written then Ok(()) else Err(WriteFailed);
  }

  /** How each route is served. */
  ghost predicate Served(lines: seq<Line>, failed: bool, kind: string, scope: string, enqueued: Enqueued,
                         ownId: Option<string>, recorded: bool, outcome: Result<string, string>) {
    match RouteOf(kind, scope)
    case Reconcile(_) => ServedQueue(lines, failed, false, enqueued, outcome)
    case Update => ServedQueue(lines, failed, true, enqueued, outcome)
    case InvalidScope(error) => ServedDirectly(lines, failed, ownId, recorded, Err(InvalidScopeText(scope, error)))
    case Unsupported => ServedDirectly(lines, failed, ownId, recorded, Err(UnsupportedText(kind, scope)))
  }

  /** What the server returns, by route. */
  function RequestResult(kind: string, scope: string, enqueued: Enqueued, ownId: Option<string>, recorded: bool,
                         lines: nat, failed: bool, looped: nat, outcome: Result<string, string>)
    : Result<(), ServerError>
  {
    match RouteOf(kind, scope)
    case InvalidScope(_) => DirectResult(ownId, recorded, lines, failed, 2)
    case Unsupported => DirectResult(ownId, recorded, lines, failed, 3)
    case _ => QueueResult(enqueued, lines, failed, looped, outcome)
  }

  /** Some legal scope prints as this text. */
  ghost predicate IsScopeText(text: string) {
    exists s :: Legal(s) && Print(s) == text
  }

  /** Routing, by the texts alone. */
  lemma RouteExact(kind: string, scope: string)
    ensures forall s :: RouteOf(kind, scope) == Reconcile(s) <==> kind == "reconcile" && Legal(s) && Print(s) == scope
    ensures RouteOf(kind, scope).InvalidScope? <==> kind == "reconcile" && !IsScopeText(scope)
    ensures RouteOf(kind, scope).InvalidScope? ==> Parse(scope) == Err(RouteOf(kind, scope).error)
    ensures RouteOf(kind, scope).Update? <==> kind == "update" && scope == "system"
    ensures RouteOf(kind, scope).Unsupported? <==> kind != "reconcile" && !(kind == "update" && scope == "system")
  {
    hide Parse, Legal, Print;
    if Parse(scope).Ok? {
      PrintParse(scope);
    }
    forall s | Legal(s) && Print(s) == scope ensures Parse(scope) == Ok(s) {
      ParsePrint(s);
    }
  }

  /** The request, told by the texts of its kind and scope: a reconciliation of the scope so
      printed, a failed reconciliation where the text is no scope, the update of the system, or
      a job that is not supported. `reconciliation` and `update` are the two kinds of work. */
  method RunJobRequest(transport: Transport, kind: string, scope: string, enqueued: Enqueued, ownId: Option<string>,
                       recorded: bool, reconciliation: JobRun, update: JobRun, choices: seq<Choice>)
    returns (result: Result<(), ServerError>, ghost wrote: seq<Line>)
    requires transport.Valid() && !transport.failed && transport.lines == []
    requires reconciliation != update && !reconciliation.awaited && !update.awaited
    modifies transport, reconciliation, update
    ensures transport.Valid()
    ensures !transport.failed ==> transport.lines == [] || transport.delivered == Wires(transport.lines)
    ensures reconciliation.awaited <==> kind == "reconcile" && IsScopeText(scope) && enqueued.Queued?
    ensures update.awaited <==> kind == "update" && scope == "system" && enqueued.Queued?
    ensures kind == "reconcile" && IsScopeText(scope) ==>
      ServedQueue(transport.lines, transport.failed, false, enqueued, reconciliation.outcome)
    ensures forall s :: kind == "reconcile" && Legal(s) && scope == Print(s) && enqueued.Queued? ==>
      ServedJob(transport.lines, transport.failed, wrote, choices, enqueued.id, "reconcile", scope, StartedMessage(s),
                "Reconciliation still running", reconciliation.outcome)
    ensures kind == "reconcile" && !IsScopeText(scope) ==>
      && Parse(scope).Err?
      && ServedDirectly(transport.lines, transport.failed, ownId, recorded,
                        Err("invalid reconciliation scope `" + scope + "`: " + ScopeErrorText(Parse(scope).error)))
    ensures kind == "update" && scope == "system" ==>
      && ServedQueue(transport.lines, transport.failed, true, enqueued, update.outcome)
      && (enqueued.Queued? ==>
            ServedJob(transport.lines, transport.failed, wrote, choices, enqueued.id, "update", "system",
                      "Managed Resource update started", "Managed Resource update still running", update.outcome))
    ensures kind != "reconcile" && !(kind == "update" && scope == "system") ==>
      ServedDirectly(transport.lines, transport.failed, ownId, recorded,
                     Err("unsupported daemon job `" + kind + "` with scope `" + scope + "`"))
    ensures Served(transport.lines, transport.failed, kind, scope, enqueued, ownId, recorded,
                   if kind == "update" then update.outcome else reconciliation.outcome)
    ensures result ==
      RequestResult(kind, scope, enqueued, ownId, recorded, |transport.lines|, transport.failed, |wrote|,
                    if kind == "update" then update.outcome else reconciliation.outcome)
  {
    hide MayArrive, Wires, ServedQueue, ServedDirectly, ServedJob, Begins, Parse, Legal, Print, StartedMessage,
      ScopeErrorText, QueueResult, DirectResult;
    wrote := [];
    RouteExact(kind, scope);
    var parsed := Parse(scope);
    if kind == "reconcile" {
      if parsed.Ok? {
        result, wrote := RunReconciliationJob(transport, parsed.value, enqueued, reconciliation, choices);
      } else {
        result := RunInvalidScopeJob(transport, scope, parsed.error, ownId, recorded);
      }
      return;
    }
    if kind == "update" && scope == "system" {
      result, wrote := RunUpdateJob(transport, enqueued, update, choices);
      return;
    }
    result := RunStartedJob(transport, kind, scope, ownId, recorded);
  }

  /** When the server reports success: for queued work, if no write failed, or if the job
      succeeded and the write that failed was one of its reports; for the rest, if the job could
      be recorded and no write failed after the opening lines. */
  lemma ServerSucceeds(kind: string, scope: string, enqueued: Enqueued, ownId: Option<string>, recorded: bool,
                       lines: nat, failed: bool, looped: nat, outcome: Result<string, string>)
    requires lines >= 1
    ensures var result := RequestResult(kind, scope, enqueued, ownId, recorded, lines, failed, looped, outcome);
      var report := 3 < lines <= 3 + looped;
      if (kind == "reconcile" && IsScopeText(scope)) || (kind == "update" && scope == "system") then
        match enqueued
        case Queued(_) =>
          && (result.Ok? <==> !failed || (outcome.Ok? && report))
          && (result.Err? ==>
                result.error == if outcome.Err? && (lines == 1 || report) then JobError(outcome.error) else WriteFailed)
        case EnqueueFailed(message) => result == Err(NotEnqueued(message))
        case _ => result == if failed then Err(WriteFailed) else Ok(())
      else
        && (result.Ok? <==> ownId.Some? && recorded && (failed ==> lines <= if kind == "reconcile" then 2 else 3))
        && (result.Err? ==> result.error == if ownId.Some? && recorded then WriteFailed else DatabaseFailed)
  {
    RouteExact(kind, scope);
    hide Parse, IsScopeText;
  }

  /** The words the log line opens with. */
  lemma StartedMessages(id: string, name: string, track: string)
    ensures StartedMessage(System) == "System reconciliation started"
    ensures StartedMessage(Project(id)) == "Project env reconciliation started"
    ensures StartedMessage(Resource(name, track)) ==
      if name in {"php", "frankenphp"} then "Gateway runtime reconciliation started"
      else "Managed Resource runtime reconciliation started"
  {
  }

  // ------------------------------------------------------------------
  // What the client may conclude
  // ------------------------------------------------------------------

  lemma AnswerRead(items: seq<Wire>, r: Response, end: End)
    requires items != [] && items[0] == Object(Encode(Answer(r)))
    requires r.protocolVersion == PROTOCOL_VERSION && r.lineType == "response"
    ensures r.status.Accepted? && r.jobId.Some? ==>
      Run(items, end) ==
        var summary := ReadCompletion(items, 1, end, r.jobId.value);
        if summary.Ok? then Ok(CompletedJob(r.jobId.value, summary.value)) else Err(summary.error)
    ensures !r.status.Accepted? ==> Run(items, end) == Err(Rejected(r.message))
  {
    hide ReadCompletion, DecodeResponse, EncodeResponse;
    ResponseRoundTrip(r);
  }

  lemma ChatterRead(line: Line, id: string)
    requires ChatterOf(line, id)
    ensures ParseJobEvent(Object(Encode(line)), id).Ok? && !ParseJobEvent(Object(Encode(line)), id).value.Completed?
  {
    hide ParseJobEvent, EncodeEvent;
    EventRoundTrip(line.event, id);
  }

  lemma TerminalRead(id: string, outcome: Result<string, string>)
    ensures ParseJobEvent(Object(Encode(Note(Terminal(id, outcome)))), id) ==
      if outcome.Ok? then Ok(Completed(outcome.value)) else Err(Rejected(outcome.error))
  {
    hide ParseJobEvent, EncodeEvent;
    EventRoundTrip(Terminal(id, outcome), id);
  }

  /** Reading n whole lines of a job, and perhaps a fragment after them. */
  lemma {:induction false} TellingRead(lines: seq<Line>, n: nat, items: seq<Wire>, from: nat, end: End, id: string,
                                       outcome: Result<string, string>)
    requires 1 <= from <= n <= |lines| && Told(lines, from, id, outcome)
    requires items == Wires(lines[..n]) || items == Wires(lines[..n]) + [Garbled]
    ensures ReadCompletion(items, from, end, id).Ok? ==>
      outcome == Ok(ReadCompletion(items, from, end, id).value)
    ensures items == Wires(lines) && Finished(lines, id, outcome) && from < n ==>
      ReadCompletion(items, from, end, id) == if outcome.Ok? then Ok(outcome.value) else Err(Rejected(outcome.error))
    decreases n - from
  {
    hide Encode, Terminal, ChatterOf;
    if from == n {
      if |items| > n {
        assert items[n] == Garbled;
        hide *;
        GarbledRead(items, n, end, id);
      }
    } else {
      assert items[from] == Object(Encode(lines[from]));
      if ChatterOf(lines[from], id) {
        ChatterRead(lines[from], id);
        TerminalNotChatter(id, outcome);
        hide ParseJobEvent;
        TellingRead(lines, n, items, from + 1, end, id, outcome);
      } else {
        TerminalRead(id, outcome);
        hide ParseJobEvent;
      }
    }
  }

  /** The downloads the server reported. */
  function DownloadsOf(lines: seq<Line>, from: nat): seq<Download>
    requires from <= |lines|
    decreases |lines| - from
  {
    if from == |lines| then []
    else
      var line := lines[from];
      (if line.Note? && line.event.DownloadProgress? then [line.event.download] else []) + DownloadsOf(lines, from + 1)
  }

  /** On a stream without faults the client's handler is given exactly those, in order. */
  lemma {:induction false} DownloadsRead(lines: seq<Line>, from: nat, id: string, outcome: Result<string, string>)
    requires 1 <= from <= |lines| && Told(lines, from, id, outcome)
    ensures Reports(Wires(lines), from, id) == DownloadsOf(lines, from)
    decreases |lines| - from
  {
    hide Encode, ParseJobEvent, Told, Wires, Terminal, ChatterOf;
    WiresAt(lines);
    if from < |lines| {
      ToldAt(lines, from, id, outcome);
      NoteRead(lines[from].event, id);
      if ChatterOf(lines[from], id) {
        DownloadsRead(lines, from + 1, id, outcome);
        ChatterContinues(lines[from], id);
      } else {
        TerminalRead(id, outcome);
        TerminalEnds(id, outcome);
        assert DownloadsOf(lines, from + 1) == [];
      }
    }
  }

  /** So is the handler of a client that reads the whole stream of a job; where the first line is
      no acceptance, it is given none. */
  lemma RunDownloads(lines: seq<Line>, id: string, outcome: Result<string, string>)
    ensures Speaks(lines, id, outcome) ==> RunReports(Wires(lines)) == DownloadsOf(lines, 1)
    ensures lines != [] && lines[0].Answer? && !lines[0].response.status.Accepted? ==> RunReports(Wires(lines)) == []
  {
    hide Told, Reports, EncodeResponse, DecodeResponse;
    if lines != [] && lines[0].Answer? {
      WiresAt(lines);
      if Speaks(lines, id, outcome) {
        ResponseRoundTrip(lines[0].response);
        hide Wires;
        DownloadsRead(lines, 1, id, outcome);
      } else if lines[0].response.protocolVersion < 65536 {
        ResponseRoundTrip(lines[0].response);
      } else {
        TooLarge(lines[0].response);
      }
    }
  }

  lemma TooLarge(r: Response)
    requires r.protocolVersion >= 65536
    ensures DecodeResponse(Object(EncodeResponse(r))).Err?
  {
  }

  lemma WiresAt(lines: seq<Line>)
    ensures |Wires(lines)| == |lines|
    ensures forall i :: 0 <= i < |lines| ==> Wires(lines)[i] == Object(Encode(lines[i]))
  {
    hide Encode;
  }

  lemma ToldAt(lines: seq<Line>, from: nat, id: string, outcome: Result<string, string>)
    requires from < |lines| && Told(lines, from, id, outcome)
    ensures lines[from].Note? && Told(lines, from + 1, id, outcome)
    ensures ChatterOf(lines[from], id) || (from == |lines| - 1 && lines[from] == Note(Terminal(id, outcome)))
  {
    hide Terminal;
  }

  lemma ChatterContinues(line: Line, id: string)
    requires ChatterOf(line, id)
    ensures line.Note? && line.event.jobId == id
    ensures Meaning(line.event) ==
      if line.event.DownloadProgress? then Ok(Report(line.event.download)) else Ok(Continue)
  {
  }

  lemma TerminalEnds(id: string, outcome: Result<string, string>)
    ensures !Terminal(id, outcome).DownloadProgress?
  {
  }

  lemma NoteRead(event: Event, id: string)
    ensures ParseJobEvent(Object(Encode(Note(event))), id) ==
      if event.jobId == id then Meaning(event) else Err(Unexpected(WrongJob(event.jobId)))
  {
    EventRoundTrip(event, id);
  }

  lemma TerminalNotChatter(id: string, outcome: Result<string, string>)
    ensures !ChatterOf(Note(Terminal(id, outcome)), id)
  {
  }

  lemma GarbledRead(items: seq<Wire>, n: nat, end: End, id: string)
    requires |items| == n + 1 && items[n] == Garbled
    ensures ReadCompletion(items, n, end, id) == Err(BadLine)
  {
  }

  lemma SpokenRead(lines: seq<Line>, items: seq<Wire>, end: End, id: string, outcome: Result<string, string>)
    requires Speaks(lines, id, outcome) && MayArrive(items, lines)
    ensures Run(items, end).Ok? ==> outcome.Ok? && Run(items, end).value == CompletedJob(id, outcome.value)
    ensures items == Wires(lines) && Finished(lines, id, outcome) ==>
      Run(items, end) == if outcome.Ok? then Ok(CompletedJob(id, outcome.value)) else Err(Rejected(outcome.error))
  {
    hide Told, Encode, ReadCompletion, Terminal;
    var n :| 0 <= n <= |lines| && (items == Wires(lines[..n]) || items == Wires(lines[..n]) + [Garbled]);
    if n == 0 {
      if items != [] {
        assert items[0] == Garbled;
      }
    } else {
      assert items[0] == Object(Encode(lines[0]));
      AnswerRead(items, AcceptedResponse("job accepted", id), end);
      hide Run;
      TellingRead(lines, n, items, 1, end, id, outcome);
      if items == Wires(lines) && Finished(lines, id, outcome) {
        assert lines[..|lines|] == lines;
        assert |lines| != 1;
        TellingRead(lines, |lines|, items, 1, end, id, outcome);
      }
    }
  }

  /** A lone answer never amounts to a completed job. */
  lemma AnswerAlone(r: Response, items: seq<Wire>, end: End)
    requires MayArrive(items, [Answer(r)])
    requires r.protocolVersion == PROTOCOL_VERSION && r.lineType == "response" && (r.status.Accepted? ==> r.jobId.Some?)
    ensures Run(items, end).Err?
    ensures items == Wires([Answer(r)]) ==>
      Run(items, end) == Err(if r.status.Accepted? then AfterLast(end, ClosedBeforeCompletion) else Rejected(r.message))
  {
    hide Encode, DecodeResponse;
    var n :| 0 <= n <= 1 && (items == Wires([Answer(r)][..n]) || items == Wires([Answer(r)][..n]) + [Garbled]);
    if n == 0 {
      if items != [] {
        assert items[0] == Garbled;
        GarbledAnswer(end, items);
      }
    } else {
      assert items[0] == Object(Encode(Answer(r)));
      AnswerRead(items, r, end);
      if |items| == 2 {
        assert items[1] == Garbled;
      }
    }
  }

  lemma GarbledAnswer(end: End, items: seq<Wire>)
    requires items != [] && items[0] == Garbled
    ensures Run(items, end) == Err(BadLine)
  {
  }

  lemma NothingRead(items: seq<Wire>, end: End)
    requires MayArrive(items, [])
    ensures Run(items, end).Err?
    ensures items == [] ==> Run(items, end) == Err(AfterLast(end, ClosedBeforeResponse))
  {
    if items != [] {
      assert items[0] == Garbled;
      GarbledAnswer(end, items);
    }
  }

  predicate IsQueueRoute(kind: string, scope: string) {
    RouteOf(kind, scope).Reconcile? || RouteOf(kind, scope).Update?
  }

  /** Soundness: whatever part of the stream a client reads, and however the stream ends, it
      takes a job for completed with a summary only if the job was queued under that id and
      completed with that summary. A coalesced request never looks completed. */
  lemma ClientNeverMisled(lines: seq<Line>, failed: bool, kind: string, scope: string, enqueued: Enqueued,
                          ownId: Option<string>, recorded: bool, outcome: Result<string, string>,
                          items: seq<Wire>, end: End)
    requires Served(lines, failed, kind, scope, enqueued, ownId, recorded, outcome) && MayArrive(items, lines)
    requires Run(items, end).Ok?
    ensures IsQueueRoute(kind, scope) && enqueued == Queued(Run(items, end).value.id)
    ensures outcome == Ok(Run(items, end).value.summary)
  {
    hide MayArrive, Run, Speaks, Parse, InvalidScopeText, UnsupportedText, Finished;
    if IsQueueRoute(kind, scope) {
      match enqueued
      case Queued(id) =>
        SpokenRead(lines, items, end, id, outcome);
      case Coalesced(_) =>
        AnswerAlone(lines[0].response, items, end);
      case LockHeld(_) =>
        AnswerAlone(lines[0].response, items, end);
      case EnqueueFailed(_) =>
        NothingRead(items, end);
    } else {
      DirectNeverOk(lines, failed, kind, scope, enqueued, ownId, recorded, outcome, items, end);
    }
  }

  lemma DirectNeverOk(lines: seq<Line>, failed: bool, kind: string, scope: string, enqueued: Enqueued,
                      ownId: Option<string>, recorded: bool, outcome: Result<string, string>,
                      items: seq<Wire>, end: End)
    requires Served(lines, failed, kind, scope, enqueued, ownId, recorded, outcome) && MayArrive(items, lines)
    requires !IsQueueRoute(kind, scope)
    ensures Run(items, end).Err?
  {
    hide MayArrive, Run, Speaks, Parse, InvalidScopeText, UnsupportedText, Finished;
    var message := match RouteOf(kind, scope)
      case InvalidScope(error) => InvalidScopeText(scope, error)
      case _ => UnsupportedText(kind, scope);
    if ownId.None? {
      NothingRead(items, end);
    } else {
      SpokenRead(lines, items, end, ownId.value, Err(message));
    }
  }

  /** What the client of a fault-free stream is told, by route and queue answer. */
  function Expected(kind: string, scope: string, enqueued: Enqueued, ownId: Option<string>,
                    outcome: Result<string, string>)
    : Result<CompletedJob, ClientError>
  {
    match RouteOf(kind, scope)
    case InvalidScope(error) =>
      Err(if ownId.Some? then Rejected(InvalidScopeText(scope, error)) else Unexpected(ClosedBeforeResponse))
    case Unsupported =>
      Err(if ownId.Some? then Rejected(UnsupportedText(kind, scope)) else Unexpected(ClosedBeforeResponse))
    case route =>
      match enqueued
      case Queued(id) => if outcome.Ok? then Ok(CompletedJob(id, outcome.value)) else Err(Rejected(outcome.error))
      case Coalesced(_) =>
        Err(if route.Update? then Rejected("update already queued or running") else Unexpected(ClosedBeforeCompletion))
      case LockHeld(message) => Err(Rejected(message))
      case EnqueueFailed(_) => Err(Unexpected(ClosedBeforeResponse))
  }

  /** Completeness: on a stream without faults the client is told by route and queue answer
      what the job came to, down to its own error. */
  lemma FaultFreeAgreement(lines: seq<Line>, kind: string, scope: string, enqueued: Enqueued,
                           ownId: Option<string>, recorded: bool, outcome: Result<string, string>)
    requires Served(lines, false, kind, scope, enqueued, ownId, recorded, outcome)
    requires !IsQueueRoute(kind, scope) ==> recorded
    ensures Run(Wires(lines), Closed) == Expected(kind, scope, enqueued, ownId, outcome)
  {
    var items := Wires(lines);
    AllArrives(lines);
    hide MayArrive, Run, Speaks, Parse, InvalidScopeText, UnsupportedText, Finished, Wires;
    if IsQueueRoute(kind, scope) {
      match enqueued
      case Queued(id) =>
        SpokenRead(lines, items, Closed, id, outcome);
      case Coalesced(_) =>
        AnswerAlone(lines[0].response, items, Closed);
      case LockHeld(_) =>
        AnswerAlone(lines[0].response, items, Closed);
      case EnqueueFailed(_) =>
        NothingRead(items, Closed);
    } else if ownId.None? {
      NothingRead(items, Closed);
    } else {
      var message := match RouteOf(kind, scope)
        case InvalidScope(error) => InvalidScopeText(scope, error)
        case _ => UnsupportedText(kind, scope);
      SpokenRead(lines, items, Closed, ownId.value, Err(message));
    }
  }

  /** On a stream without faults server and client agree on success exactly when the job was
      queued and completed, when it could not be queued at all, or when the database failed;
      a coalesced, refused or failed request is a success to the server and an error to the
      client. */
  lemma AgreementExact(lines: seq<Line>, kind: string, scope: string, enqueued: Enqueued, ownId: Option<string>,
                       recorded: bool, looped: nat, outcome: Result<string, string>)
    requires Served(lines, false, kind, scope, enqueued, ownId, recorded, outcome)
    ensures
      var server := RequestResult(kind, scope, enqueued, ownId, recorded, |lines|, false, looped, outcome);
      var client := Run(Wires(lines), Closed);
      (server.Ok? <==> client.Ok?) <==>
        if IsQueueRoute(kind, scope) then enqueued.EnqueueFailed? || (enqueued.Queued? && outcome.Ok?)
        else ownId.None? || !recorded
  {
    hide MayArrive, Run, Speaks, Parse, InvalidScopeText, UnsupportedText, Finished, Wires, Served;
    if IsQueueRoute(kind, scope) {
      FaultFreeAgreement(lines, kind, scope, enqueued, ownId, recorded, outcome);
    } else {
      AllArrives(lines);
      DirectNeverOk(lines, false, kind, scope, enqueued, ownId, recorded, outcome, Wires(lines), Closed);
    }
  }

  /** One such request: a reconciliation that joins a queued one. */
  lemma CoalescedDisagrees(id: string, outcome: Result<string, string>, looped: nat)
    ensures var lines := [Answer(AcceptedResponse("reconciliation already queued or running", id))];
      && Served(lines, false, "reconcile", "system", Coalesced(id), None, true, outcome)
      && RequestResult("reconcile", "system", Coalesced(id), None, true, |lines|, false, looped, outcome) == Ok(())
      && Run(Wires(lines), Closed) == Err(Unexpected(ClosedBeforeCompletion))
  {
    hide Run, Wires, InvalidScopeText, UnsupportedText;
    SplitFree("system", ':');
    var lines := [Answer(AcceptedResponse("reconciliation already queued or running", id))];
    assert RouteOf("reconcile", "system") == Reconcile(System);
    hide Parse;
    FaultFreeAgreement(lines, "reconcile", "system", Coalesced(id), None, true, outcome);
  }

  /** Reading only a first part of what was delivered is one of the ways a stream may arrive. */
  lemma PrefixArrives(items: seq<Wire>, delivered: seq<Wire>, lines: seq<Line>)
    requires items <= delivered && MayArrive(delivered, lines)
    ensures MayArrive(items, lines)
  {
    hide Encode;
    var n :| 0 <= n <= |lines| && (delivered == Wires(lines[..n]) || delivered == Wires(lines[..n]) + [Garbled]);
    if |items| <= n {
      assert items == Wires(lines[..|items|]);
    }
  }

  lemma AllArrives(lines: seq<Line>)
    ensures MayArrive(Wires(lines), lines)
    ensures lines == [] ==> Wires(lines) == []
  {
    assert lines[..|lines|] == lines;
  }
}
