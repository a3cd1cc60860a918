/** The client's side of a job: it reads the response and then events until the job ends. */
module Client {
  import opened Text
  import opened Protocol

  datatype CompletedJob = CompletedJob(id: string, summary: string)

  /** How the stream ends after the lines that arrived: closed, or silent too long. */
  datatype End = Closed | Silent

  class JobEvents {
    var downloads: seq<Download>

    constructor ()
      ensures downloads == []
    {
      downloads := [];
    }
  }

  function AfterLast(end: End, reason: Reason): ClientError {
    if end.Closed? then Unexpected(reason) else TimedOut
  }

  /** The end of the job as told by the lines from a position on. */
  function ReadCompletion(items: seq<Wire>, from: nat, end: End, id: string): Result<string, ClientError>
    requires from <= |items|
    decreases |items| - from
  {
    if from == |items| then Err(AfterLast(end, ClosedBeforeCompletion))
    else
      var reading := ParseJobEvent(items[from], id);
      if reading.Err? then Err(reading.error)
      else if reading.value.Completed? then Ok(reading.value.summary)
      else ReadCompletion(items, from + 1, end, id)
  }

  /** The downloads reported on the way. */
  function Reports(items: seq<Wire>, from: nat, id: string): seq<Download>
    requires from <= |items|
    decreases |items| - from
  {
    if from == |items| then []
    else
      var reading := ParseJobEvent(items[from], id);
      if reading.Err? || reading.value.Completed? then []
      else (if reading.value.Report? then [reading.value.download] else []) + Reports(items, from + 1, id)
  }

  function Run(items: seq<Wire>, end: End): Result<CompletedJob, ClientError> {
    if items == [] then Err(AfterLast(end, ClosedBeforeResponse))
    else
      var response := DecodeResponse(items[0]);
      if response.Err? then Err(response.error)
      else
        var breach := ValidateContract(response.value);
        if breach.Some? then Err(breach.value)
        else
          var id := AcceptedJobId(response.value);
          if id.Err? then Err(id.error)
          else
            var summary := ReadCompletion(items, 1, end, id.value);
            if summary.Ok? then Ok(CompletedJob(id.value, summary.value)) else Err(summary.error)
  }

  /** The downloads a run reports: none unless the response accepts the job. */
  function RunReports(items: seq<Wire>): seq<Download> {
    if items == [] || DecodeResponse(items[0]).Err? then []
    else
      var response := DecodeResponse(items[0]).value;
      if ValidateContract(response).Some? || AcceptedJobId(response).Err? then []
      else Reports(items, 1, AcceptedJobId(response).value)
  }

  method ReadJobCompletion(items: seq<Wire>, end: End, id: string, events: JobEvents)
    returns (result: Result<string, ClientError>)
    requires items != []
    modifies events
    ensures result == ReadCompletion(items, 1, end, id)
    ensures events.downloads == old(events.downloads) + Reports(items, 1, id)
  {
    hide ParseJobEvent;
    var next := 1;
    while true
      invariant 1 <= next <= |items|
      invariant ReadCompletion(items, 1, end, id) == ReadCompletion(items, next, end, id)
      invariant old(events.downloads) + Reports(items, 1, id) == events.downloads + Reports(items, next, id)
      decreases |items| - next
    {
      if next == |items| {
        return Err(AfterLast(end, ClosedBeforeCompletion));
      }
      var reading := ParseJobEvent(items[next], id);
      if reading.Err? {
        return Err(reading.error);
      }
      if reading.value.Completed? {
        return Ok(reading.value.summary);
      }
      if reading.value.Report? {
        events.downloads := events.downloads + [reading.value.download];
      }
      next := next + 1;
    }
  }

  method RunJob(items: seq<Wire>, end: End, events: JobEvents) returns (result: Result<CompletedJob, ClientError>)
    modifies events
    ensures result == Run(items, end)
    ensures events.downloads == old(events.downloads) + RunReports(items)
  {
    hide ReadCompletion, Reports, DecodeResponse;
    if items == [] {
      return Err(AfterLast(end, ClosedBeforeResponse));
    }
    var response := DecodeResponse(items[0]);
    if response.Err? {
      return Err(response.error);
    }
    var breach := ValidateContract(response.value);
    if breach.Some? {
      return Err(breach.value);
    }
    var id := AcceptedJobId(response.value);
    if id.Err? {
      return Err(id.error);
    }
    var summary := ReadJobCompletion(items, end, id.value, events);
    if summary.Err? {
      return Err(summary.error);
    }
    result := Ok(CompletedJob(id.value, summary.value));
  }

  predicate Goes(item: Wire, id: string) {
    ParseJobEvent(item, id).Ok? && !ParseJobEvent(item, id).value.Completed?
  }

  predicate Completes(item: Wire, id: string, summary: string) {
    ParseJobEvent(item, id) == Ok(Completed(summary))
  }

  predicate AllGo(items: seq<Wire>, from: nat, to: nat, id: string)
    requires to <= |items|
  {
    forall j :: from <= j < to ==> Goes(items[j], id)
  }

  /** A job is complete for the client exactly when a completion line of that job with that
      summary arrived, after nothing but lines of that job that report on its progress. */
  lemma {:induction false} CompletionExact(items: seq<Wire>, from: nat, end: End, id: string, summary: string)
    requires from <= |items|
    ensures ReadCompletion(items, from, end, id) == Ok(summary) <==>
      exists k :: from <= k < |items| && Completes(items[k], id, summary) && AllGo(items, from, k, id)
    decreases |items| - from
  {
    hide ParseJobEvent;
    if from < |items| {
      CompletionExact(items, from + 1, end, id, summary);
      if Goes(items[from], id) {
        if k :| from + 1 <= k < |items| && Completes(items[k], id, summary) && AllGo(items, from + 1, k, id) {
          assert AllGo(items, from, k, id);
        }
      } else if Completes(items[from], id, summary) {
        assert AllGo(items, from, from, id);
      }
    }
  }

  /** It fails exactly when the first line that is not such a report is no completion, with what
      is wrong with that line; or when no other line arrives, with the way the stream ended. */
  lemma {:induction false} FailureExact(items: seq<Wire>, from: nat, end: End, id: string, error: ClientError)
    requires from <= |items|
    ensures ReadCompletion(items, from, end, id) == Err(error) <==>
      || (AllGo(items, from, |items|, id)
          && error == match end case Closed => Unexpected(ClosedBeforeCompletion) case Silent => TimedOut)
      || exists k :: from <= k < |items| && ParseJobEvent(items[k], id) == Err(error) && AllGo(items, from, k, id)
    decreases |items| - from
  {
    hide ParseJobEvent;
    if from < |items| {
      FailureExact(items, from + 1, end, id, error);
      if Goes(items[from], id) {
        assert AllGo(items, from, |items|, id) <==> AllGo(items, from + 1, |items|, id);
        if k :| from + 1 <= k < |items| && ParseJobEvent(items[k], id) == Err(error) && AllGo(items, from + 1, k, id) {
          assert AllGo(items, from, k, id);
        }
      } else {
        assert AllGo(items, from, from, id);
      }
    }
  }

  /** A whole run succeeds exactly when the first line accepts the job under that id, in this
      version of the protocol, and a completion of it follows. */
  lemma RunExact(items: seq<Wire>, end: End, id: string, summary: string)
    ensures Run(items, end) == Ok(CompletedJob(id, summary)) <==>
      && items != []
      && Says(items[0], "type", "response") && Says(items[0], "status", "accepted")
      && Counts(items[0], "protocol_version", 3) && Says(items[0], "job_id", id)
      && (exists message :: Says(items[0], "message", message))
      && exists k :: 1 <= k < |items| && Completes(items[k], id, summary) && AllGo(items, 1, k, id)
  {
    if items != [] {
      CompletionExact(items, 1, end, id, summary);
      hide ReadCompletion, Completes, AllGo, DecodeResponse, Says, Counts;
      if message :| Says(items[0], "message", message) {
        ResponseExact(items[0], Response("response", 3, Accepted, message, Some(id)));
      }
      var response := DecodeResponse(items[0]);
      if response.Ok? {
        ResponseExact(items[0], response.value);
      }
    }
  }

  /** Why the client goes no further than the first line. */
  lemma FirstLineRefused(items: seq<Wire>, end: End, r: Response)
    ensures items == [] ==>
      Run(items, end) == Err(match end case Closed => Unexpected(ClosedBeforeResponse) case Silent => TimedOut)
    ensures items != [] && DecodeResponse(items[0]).Err? ==> Run(items, end) == Err(BadLine)
    ensures items != [] && DecodeResponse(items[0]) == Ok(r) ==>
      && (r.lineType != "response" ==> Run(items, end) == Err(Unexpected(NotResponse(r.lineType))))
      && (r.lineType == "response" && r.protocolVersion != 3 ==> Run(items, end) == Err(Mismatch(r.protocolVersion)))
      && (r.lineType == "response" && r.protocolVersion == 3 && !r.status.Accepted? ==>
            Run(items, end) == Err(Rejected(r.message)))
      && (r.lineType == "response" && r.protocolVersion == 3 && r.status.Accepted? && r.jobId.None? ==>
            Run(items, end) == Err(Unexpected(NoAcceptedId)))
  {
    hide ReadCompletion;
    if items != [] {
      ResponseExact(items[0], r);
    }
    hide DecodeResponse;
  }

  /** Lines that arrive after the one that decided never change the client's answer. */
  lemma {:induction false} LaterLinesIgnored(items: seq<Wire>, more: seq<Wire>, from: nat, end: End, id: string,
                                             summary: string)
    requires from <= |items| && ReadCompletion(items, from, end, id) == Ok(summary)
    ensures forall anyEnd :: ReadCompletion(items + more, from, anyEnd, id) == Ok(summary)
    decreases |items| - from
  {
    hide ParseJobEvent;
    assert (items + more)[from] == items[from];
    if Goes(items[from], id) {
      LaterLinesIgnored(items, more, from + 1, end, id, summary);
    }
  }
}
