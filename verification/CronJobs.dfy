/** The records of internal/cron/cron.go and the 64-bit clock arithmetic of the scheduler. */
module CronJobs {
  import opened Wrappers

  const MAX_INT64: int := 0x7fff_ffff_ffff_ffff

  type Int64 = x: int | -MAX_INT64 - 1 <= x <= MAX_INT64

  /** Two's complement addition. */
  function Add64(x: Int64, y: Int64): Int64 {
    if x + y > MAX_INT64 then x + y - 0x1_0000_0000_0000_0000
    else if x + y < -MAX_INT64 - 1 then x + y + 0x1_0000_0000_0000_0000
    else x + y
  }

  datatype Kind = KindAt | KindEvery | KindCron | KindOther(text: string)

  datatype Schedule = Schedule(kind: Kind, atMS: Option<Int64>, everyMS: Option<Int64>, expr: string, tz: string)

  datatype Payload = Payload(id: string, channel: string, agent: string, to: string, subject: string, message: string)

  datatype JobState = JobState(lastRunAtMS: Int64, nextRunAtMS: Int64, runCount: int, successCount: int,
      failureCount: int)

  datatype Job = Job(id: string, source: string, name: string, enabled: bool, schedule: Schedule, payload: Payload,
      state: JobState)
}
