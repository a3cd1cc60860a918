/** The job stream's lines: responses and events, the JSON objects they are written as, and
    what the client makes of one such object. */
module Protocol {
  import opened Text

  type U64 = n: nat | n < 0x1_0000_0000_0000_0000

  datatype Json = Str(text: string) | Number(number: nat) | Null | Other

  type Fields = map<string, Json>

  const PROTOCOL_VERSION: nat := 3

  datatype Status = StatusOk | Accepted | StatusError

  datatype Response = Response(
    lineType: string,
    protocolVersion: nat,
    status: Status,
    message: string,
    jobId: Option<string>)

  datatype Download = Download(resource: string, track: string, artifactVersion: string, downloaded: U64, total: U64)

  datatype Event =
    | JobStarted(jobId: string, kind: string, scope: string)
    | Progress(jobId: string, message: string)
    | DownloadProgress(jobId: string, download: Download)
    | Log(jobId: string, message: string)
    | JobCompleted(jobId: string, summary: string)
    | JobFailed(jobId: string, error: string)

  datatype Line = Answer(response: Response) | Note(event: Event)

  /** What arrives: an object, or something that is no line of JSON. */
  datatype Wire = Object(fields: Fields) | Garbled

  function AcceptedResponse(message: string, jobId: string): Response {
    Response("response", PROTOCOL_VERSION, Accepted, message, Some(jobId))
  }

  function ErrorResponse(message: string): Response {
    Response("response", PROTOCOL_VERSION, StatusError, message, None)
  }

  function EncodeStatus(status: Status): string {
    match status
    case StatusOk => "ok"
    case Accepted => "accepted"
    case StatusError => "error"
  }

  function EncodeResponse(r: Response): Fields {
    var fields := map["type" := Str(r.lineType), "protocol_version" := Number(r.protocolVersion),
                      "status" := Str(EncodeStatus(r.status)), "message" := Str(r.message)];
    if r.jobId.Some? then fields["job_id" := Str(r.jobId.value)] else fields
  }

  function EncodeEvent(e: Event): Fields {
    match e
    case JobStarted(id, kind, scope) =>
      map["type" := Str("job_started"), "job_id" := Str(id), "kind" := Str(kind), "scope" := Str(scope)]
    case Progress(id, message) =>
      map["type" := Str("progress"), "job_id" := Str(id), "message" := Str(message)]
    case DownloadProgress(id, d) =>
      map["type" := Str("download_progress"), "job_id" := Str(id), "resource" := Str(d.resource),
          "track" := Str(d.track), "artifact_version" := Str(d.artifactVersion),
          "downloaded_bytes" := Number(d.downloaded), "total_bytes" := Number(d.total)]
    case Log(id, message) =>
      map["type" := Str("log"), "job_id" := Str(id), "message" := Str(message)]
    case JobCompleted(id, summary) =>
      map["type" := Str("job_completed"), "job_id" := Str(id), "summary" := Str(summary)]
    case JobFailed(id, error) =>
      map["type" := Str("job_failed"), "job_id" := Str(id), "error" := Str(error)]
  }

  function Encode(line: Line): Fields {
    match line
    case Answer(response) => EncodeResponse(response)
    case Note(event) => EncodeEvent(event)
  }

  // ------------------------------------------------------------------
  // The client's reading of one line
  // ------------------------------------------------------------------

  datatype Reason =
    | ClosedBeforeResponse | ClosedBeforeCompletion
    | NotResponse(lineType: string) | NoAcceptedId
    | NoType | UnknownType(lineType: string) | NoJobId | WrongJob(actual: string)
    | NoSummary | NoError | NoField(field: string)

  datatype ClientError =
    | TimedOut
    | BadLine
    | Mismatch(actual: nat)
    | Rejected(message: string)
    | Unexpected(reason: Reason)

  function StrField(f: Fields, name: string): Option<string> {
    if name in f && f[name].Str? then Some(f[name].text) else None
  }

  function U64Field(f: Fields, name: string): Option<U64> {
    if name in f && f[name].Number? && f[name].number < 0x1_0000_0000_0000_0000 then Some(f[name].number) else None
  }

  function DecodeStatus(text: string): Option<Status> {
    if text == "ok" then Some(StatusOk)
    else if text == "accepted" then Some(Accepted)
    else if text == "error" then Some(StatusError)
    else None
  }

  /** The protocol version, a 16-bit number. */
  function Version(f: Fields): Option<nat> {
    if "protocol_version" in f && f["protocol_version"].Number? && f["protocol_version"].number < 0x1_0000
    then Some(f["protocol_version"].number) else None
  }

  function DecodeResponse(wire: Wire): Result<Response, ClientError> {
    if wire.Garbled? then Err(BadLine)
    else
      var f := wire.fields;
      var lineType, message, status := StrField(f, "type"), StrField(f, "message"), StrField(f, "status");
      if lineType.None? || message.None? || status.None? || DecodeStatus(status.value).None? then Err(BadLine)
      else if Version(f).None? then Err(BadLine)
      else if "job_id" in f && !f["job_id"].Str? && !f["job_id"].Null? then Err(BadLine)
      else
        Ok(Response(lineType.value, Version(f).value, DecodeStatus(status.value).value, message.value,
                    StrField(f, "job_id")))
  }

  function ValidateContract(r: Response): Option<ClientError> {
    if r.lineType != "response" then Some(Unexpected(NotResponse(r.lineType)))
    else if r.protocolVersion != PROTOCOL_VERSION then Some(Mismatch(r.protocolVersion))
    else None
  }

  function AcceptedJobId(r: Response): Result<string, ClientError> {
    if r.status.Accepted? then if r.jobId.Some? then Ok(r.jobId.value) else Err(Unexpected(NoAcceptedId))
    else Err(Rejected(r.message))
  }

  function ValidateJobId(f: Fields, expected: string): Option<ClientError> {
    var actual := StrField(f, "job_id");
    if actual.None? then Some(Unexpected(NoJobId))
    else if actual.value != expected then Some(Unexpected(WrongJob(actual.value)))
    else None
  }

  function DecodeDownload(f: Fields): Result<Download, ClientError> {
    var resource, track, version := StrField(f, "resource"), StrField(f, "track"), StrField(f, "artifact_version");
    var downloaded, total := U64Field(f, "downloaded_bytes"), U64Field(f, "total_bytes");
    if resource.None? then Err(Unexpected(NoField("resource")))
    else if track.None? then Err(Unexpected(NoField("track")))
    else if version.None? then Err(Unexpected(NoField("artifact_version")))
    else if downloaded.None? then Err(Unexpected(NoField("downloaded_bytes")))
    else if total.None? then Err(Unexpected(NoField("total_bytes")))
    else Ok(Download(resource.value, track.value, version.value, downloaded.value, total.value))
  }

  /** What one event line means: go on, go on after a download report, or completion. */
  datatype Reading = Continue | Report(download: Download) | Completed(summary: string)

  const EVENT_TYPES := ["job_started", "progress", "log", "download_progress", "job_completed", "job_failed"]

  function ParseJobEvent(wire: Wire, expected: string): Result<Reading, ClientError> {
    if wire.Garbled? then Err(BadLine)
    else
      var f := wire.fields;
      var lineType := StrField(f, "type");
      if lineType.None? then Err(Unexpected(NoType))
      else if lineType.value !in EVENT_TYPES then
        Err(Unexpected(UnknownType(lineType.value)))
      else
        var wrong := ValidateJobId(f, expected);
        if wrong.Some? then Err(wrong.value)
        else if lineType.value == "download_progress" then
          var download := DecodeDownload(f);
          if download.Ok? then Ok(Report(download.value)) else Err(download.error)
        else if lineType.value == "job_completed" then
          var summary := StrField(f, "summary");
          if summary.Some? then Ok(Completed(summary.value)) else Err(Unexpected(NoSummary))
        else if lineType.value == "job_failed" then
          var error := StrField(f, "error");
          Err(if error.Some? then Rejected(error.value) else Unexpected(NoError))
        else Ok(Continue)
  }

  // ------------------------------------------------------------------
  // Written lines are read as what they are
  // ------------------------------------------------------------------

  lemma ResponseRoundTrip(r: Response)
    requires r.protocolVersion < 0x1_0000
    ensures DecodeResponse(Object(EncodeResponse(r))) == Ok(r)
  {
  }

  /** The reading of an event that belongs to the job waited for. */
  function Meaning(e: Event): Result<Reading, ClientError> {
    match e
    case DownloadProgress(_, download) => Ok(Report(download))
    case JobCompleted(_, summary) => Ok(Completed(summary))
    case JobFailed(_, error) => Err(Rejected(error))
    case _ => Ok(Continue)
  }

  lemma DownloadRoundTrip(id: string, d: Download)
    ensures DecodeDownload(EncodeEvent(DownloadProgress(id, d))) == Ok(d)
  {
  }

  lemma EventFields(e: Event)
    ensures StrField(EncodeEvent(e), "job_id") == Some(e.jobId)
    ensures StrField(EncodeEvent(e), "type") == Some(
      match e
      case JobStarted(_, _, _) => "job_started"
      case Progress(_, _) => "progress"
      case DownloadProgress(_, _) => "download_progress"
      case Log(_, _) => "log"
      case JobCompleted(_, _) => "job_completed"
      case JobFailed(_, _) => "job_failed")
    ensures e.JobCompleted? ==> StrField(EncodeEvent(e), "summary") == Some(e.summary)
    ensures e.JobFailed? ==> StrField(EncodeEvent(e), "error") == Some(e.error)
  {
  }

  lemma EventRoundTrip(e: Event, expected: string)
    ensures ParseJobEvent(Object(EncodeEvent(e)), expected) ==
      if e.jobId == expected then Meaning(e) else Err(Unexpected(WrongJob(e.jobId)))
  {
    hide EncodeEvent, DecodeDownload, StrField;
    EventFields(e);
    if e.DownloadProgress? {
      DownloadRoundTrip(e.jobId, e.download);
    }
  }

  // ------------------------------------------------------------------
  // What any line is read as
  // ------------------------------------------------------------------

  predicate Says(wire: Wire, name: string, text: string) {
    wire.Object? && name in wire.fields && wire.fields[name] == Str(text)
  }

  predicate Counts(wire: Wire, name: string, number: nat) {
    wire.Object? && name in wire.fields && wire.fields[name] == Number(number)
  }

  predicate OfJob(wire: Wire, lineType: string, id: string) {
    Says(wire, "type", lineType) && Says(wire, "job_id", id)
  }

  /** Whatever line arrives: what makes it a completion, a rejection, a download report, or one
      more line to read past. */
  lemma EventExact(wire: Wire, id: string, text: string, d: Download)
    ensures ParseJobEvent(wire, id) == Ok(Completed(text)) <==>
      OfJob(wire, "job_completed", id) && Says(wire, "summary", text)
    ensures ParseJobEvent(wire, id) == Err(Rejected(text)) <==>
      OfJob(wire, "job_failed", id) && Says(wire, "error", text)
    ensures ParseJobEvent(wire, id) == Ok(Report(d)) <==>
      && OfJob(wire, "download_progress", id)
      && Says(wire, "resource", d.resource) && Says(wire, "track", d.track)
      && Says(wire, "artifact_version", d.artifactVersion)
      && Counts(wire, "downloaded_bytes", d.downloaded) && Counts(wire, "total_bytes", d.total)
    ensures ParseJobEvent(wire, id) == Ok(Continue) <==>
      OfJob(wire, "job_started", id) || OfJob(wire, "progress", id) || OfJob(wire, "log", id)
    ensures ParseJobEvent(wire, id) == Err(BadLine) <==> wire.Garbled?
  {
    if wire.Object? {
      DownloadExact(wire, d);
      hide DecodeDownload;
    }
  }

  lemma DownloadExact(wire: Wire, d: Download)
    requires wire.Object?
    ensures DecodeDownload(wire.fields) == Ok(d) <==>
      && Says(wire, "resource", d.resource) && Says(wire, "track", d.track)
      && Says(wire, "artifact_version", d.artifactVersion)
      && Counts(wire, "downloaded_bytes", d.downloaded) && Counts(wire, "total_bytes", d.total)
    ensures DecodeDownload(wire.fields).Err? ==> DecodeDownload(wire.fields).error.Unexpected?
  {
  }

  /** A line is read as a response exactly if all its fields are there in their types; the
      version is a 16-bit number, and the job id may be missing or null. */
  lemma ResponseExact(wire: Wire, r: Response)
    ensures DecodeResponse(wire) == Ok(r) <==>
      && Says(wire, "type", r.lineType) && Says(wire, "message", r.message)
      && Counts(wire, "protocol_version", r.protocolVersion) && r.protocolVersion < 65536
      && (match r.status
          case StatusOk => Says(wire, "status", "ok")
          case Accepted => Says(wire, "status", "accepted")
          case StatusError => Says(wire, "status", "error"))
      && (match r.jobId
          case Some(id) => Says(wire, "job_id", id)
          case None => "job_id" !in wire.fields || wire.fields["job_id"].Null?)
    ensures DecodeResponse(wire).Err? ==> DecodeResponse(wire).error == BadLine
  {
  }

  /** What an event is written as, field by field. */
  lemma EventWritten(e: Event)
    ensures var wire := Object(EncodeEvent(e));
      match e
      case JobStarted(id, kind, scope) =>
        OfJob(wire, "job_started", id) && Says(wire, "kind", kind) && Says(wire, "scope", scope)
      case Progress(id, message) => OfJob(wire, "progress", id) && Says(wire, "message", message)
      case Log(id, message) => OfJob(wire, "log", id) && Says(wire, "message", message)
      case JobCompleted(id, summary) => OfJob(wire, "job_completed", id) && Says(wire, "summary", summary)
      case JobFailed(id, error) => OfJob(wire, "job_failed", id) && Says(wire, "error", error)
      case DownloadProgress(id, d) =>
        && OfJob(wire, "download_progress", id)
        && Says(wire, "resource", d.resource) && Says(wire, "track", d.track)
        && Says(wire, "artifact_version", d.artifactVersion)
        && Counts(wire, "downloaded_bytes", d.downloaded) && Counts(wire, "total_bytes", d.total)
  {
  }
}
