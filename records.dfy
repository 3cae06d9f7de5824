/** The records both transports deliver: one job of the job-entry subsystem and one
    member of a partitioned dataset.  A field that cannot be parsed from its source
    stays at its zero value, so the zero records below stand for "nothing parsed". */
module Records {

  /** `JobStatus`: `jobClass` is Go's `Class`; `status` and `retCode` are free text
      from the host (for instance "OUTPUT" and "CC 0000"). */
  datatype JobStatus = JobStatus(
    jobId: string,
    jobName: string,
    owner: string,
    status: string,
    retCode: string,
    jobClass: string)

  const NoJob := JobStatus("", "", "", "", "", "")

  /** `Member`: the version and modification level (`vv`, `mm`), the creation and
      change dates, the record counts (`size`, `init`, `mod`) and the last editor. */
  datatype Member = Member(
    name: string,
    vv: int,
    mm: int,
    created: string,
    changed: string,
    size: int,
    init: int,
    mod: int,
    user: string)

  const NoMember := Member("", 0, 0, "", "", 0, 0, 0, "")
}
