/** The tables behind the job engine and the scheduler (lib/db.js). Job and item rows are never deleted,
    so a row's position is its rowid and serves as its id; a fresh row goes to the end. */
module Tables {
  import opened Wrappers
  import opened ErrorClassifier

  datatype ItemStatus = Queued | Claimed | Running | Succeeded | Failed | Skipped | Cancelled

  datatype JobStatus = QUEUED | RUNNING | PAUSED | COMPLETED | PARTIALLY_COMPLETED | FAILED | CANCELLED

  datatype Recipient = Recipient(number: string, name: string)

  datatype Item = Item(job: nat, position: nat, to: Recipient, message: string,
                       status: ItemStatus, attemptCount: nat, nextAttemptAt: int,
                       claimedBy: Option<string>, leaseExpiresAt: Option<int>,
                       lastCategory: Option<Category>, lastDetail: Option<string>)

  /** `source` is the schedule id of a job with source_type 'schedule'. */
  datatype Job = Job(status: JobStatus, total: nat, succeeded: nat, failed: nat, skipped: nat, cancelled: nat,
                     key: Option<string>, source: Option<string>, completedAt: Option<int>)

  /** `outcome` is null until the attempt is finished. */
  datatype Attempt = Attempt(item: nat, number: nat, outcome: Option<SendStatus>, category: Option<Category>,
                             message: Option<string>)

  datatype RepeatUnit = Minutes | Hours | Days | Weeks

  /** Scheduler.create stores no repeat value below 1. */
  type RepeatValue = n: int | n >= 1 witness 1

  datatype Repeat = Repeat(everyValue: RepeatValue, everyUnit: RepeatUnit, endAt: Option<int>)

  datatype ScheduleStatus = Scheduled | Sending | Done

  datatype LineStatus = LineSent | LineSkipped | LineNotOnWhatsapp | LineError

  datatype ReportLine = ReportLine(to: Recipient, status: LineStatus, detail: Option<string>)

  datatype Report = Report(ranAt: int, results: seq<ReportLine>)

  datatype Schedule = Schedule(recipients: seq<Recipient>, message: string, repeat: Option<Repeat>,
                               status: ScheduleStatus, nextRunAt: int, lastRunAt: Option<int>,
                               lastResult: Option<Report>)

  datatype Db = Db(jobs: seq<Job>, items: seq<Item>, attempts: seq<Attempt>, schedules: map<string, Schedule>)

  class Database {
    var jobs: seq<Job>
    var items: seq<Item>
    var attempts: seq<Attempt>
    var schedules: map<string, Schedule>

    function Tables(): Db
      reads this
    {
      Db(jobs, items, attempts, schedules)
    }

    constructor ()
      ensures Tables() == Db([], [], [], map[])
    {
      jobs, items, attempts, schedules := [], [], [], map[];
    }
  }

  predicate IsTerminalItem(s: ItemStatus) { s.Succeeded? || s.Failed? || s.Skipped? || s.Cancelled? }

  /** Terminal by an attempt's outcome rather than by a cancel. */
  predicate IsSettledItem(s: ItemStatus) { s.Succeeded? || s.Failed? || s.Skipped? }

  predicate IsVerdict(s: JobStatus) { s.COMPLETED? || s.PARTIALLY_COMPLETED? || s.FAILED? }

  predicate IsTerminalJob(s: JobStatus) { IsVerdict(s) || s.CANCELLED? }

  function OfJob(j: nat): Item -> bool { (it: Item) => it.job == j }

  function InStatus(j: nat, st: ItemStatus): Item -> bool { (it: Item) => it.job == j && it.status == st }

  function OpenIn(j: nat): Item -> bool { (it: Item) => it.job == j && !IsTerminalItem(it.status) }

  function OfItem(i: nat): Attempt -> bool { (a: Attempt) => a.item == i }

  function Numbered(i: nat, n: nat): Attempt -> bool { (a: Attempt) => a.item == i && a.number == n }
}
