/** The records of pkg/job/model.go and the report types they name. */
module ScanJobs {
  import opened Wrappers

  /** A report MIME type; Go holds the parameters in a map, whose iteration order is unspecified. */
  datatype MimeType = MimeType(typ: string, subtype: string, params: map<string, string>)

  /** Identifies one report of one scan request. The media type is empty unless the report is an SBOM. */
  datatype ScanJobKey = ScanJobKey(id: string, mimeType: MimeType, mediaType: string)

  datatype Status = Queued | Pending | Finished | Failed {
    predicate Terminal() { Finished? || Failed? }
  }

  /** What a scan produced, after the transformer. The queue never looks inside. */
  datatype ScanReport = ScanReport(content: string)

  /** The zero value of a report, which a job record carries until a report key exists beside it. */
  const NO_REPORT := ScanReport("")

  datatype ScanJob = ScanJob(
    key: ScanJobKey,
    status: Status,
    attempts: nat,
    error: string,
    finishedAt: Option<nat>,
    report: ScanReport)

  function NewScanJob(key: ScanJobKey): ScanJob {
    ScanJob(key, Queued, 0, "", None, NO_REPORT)
  }

  /** The record `UpdateStatus` writes for the one it has read: only `Pending` counts an attempt, only
      `Finished` stamps the time, and the error text is always replaced. */
  function WithStatus(job: ScanJob, status: Status, message: Option<string>, at: nat): ScanJob {
    job.(status := status,
         attempts := if status.Pending? then job.attempts + 1 else job.attempts,
         error := if message.Some? then message.value else "",
         finishedAt := if status.Finished? then Some(at) else job.finishedAt)
  }
}
