/** Maps a transport outcome to a retry category (lib/jobs/errorClassifier.js). */
module ErrorClassifier {
  import opened Wrappers

  datatype Category = TRANSIENT | PERMANENT | VALIDATION | AUTHORIZATION | CANCELLED_BY_USER | UNKNOWN

  /** The status string of one send; `Other` is every string the switch does not name. */
  datatype SendStatus = Sent | NotOnWhatsapp | SendError | SendSkipped | Other(text: string)

  /** What one call of the transport did: returned a result, or threw. */
  datatype SendResult =
    | Returned(status: SendStatus, detail: Option<string>)
    | Threw(notReady: bool, message: string)

  function ClassifyOutcome(status: SendStatus): Option<Category>
  {
    match status
    case Sent => None
    case NotOnWhatsapp => Some(PERMANENT)
    case SendError => Some(TRANSIENT)
    case SendSkipped => Some(VALIDATION)
    case Other(_) => Some(UNKNOWN)
  }

  function ClassifyException(notReady: bool): Category
  {
    if notReady then TRANSIENT else UNKNOWN
  }

  predicate IsRetryable(category: Category)
  {
    category.TRANSIENT? || category.UNKNOWN?
  }

  /** The worker's try/catch around the send: recorded status, category and detail. */
  function RecordedStatus(r: SendResult): SendStatus
  {
    match r case Returned(s, _) => s case Threw(_, _) => SendError
  }

  function CategoryOf(r: SendResult): Option<Category>
  {
    match r case Returned(s, _) => ClassifyOutcome(s) case Threw(nr, _) => Some(ClassifyException(nr))
  }

  function DetailOf(r: SendResult): Option<string>
  {
    match r
    case Returned(_, d) => if d == Some("") then None else d
    case Threw(_, m) => Some(m)
  }

  /** A recorded status and a recorded category that can stand in one attempt row. */
  predicate Consistent(status: SendStatus, category: Option<Category>)
  {
    && (category.None? <==> status.Sent?)
    && (category == Some(PERMANENT) <==> status.NotOnWhatsapp?)
    && (category == Some(VALIDATION) <==> status.SendSkipped?)
    && (category == Some(TRANSIENT) ==> status.SendError?)
    && (status.SendError? ==> category == Some(TRANSIENT) || category == Some(UNKNOWN))
    && category != Some(AUTHORIZATION) && category != Some(CANCELLED_BY_USER)
  }

  /** Classification never confuses two outcomes that the report tells apart, even through a thrown exception. */
  lemma ClassificationIsConsistent(r: SendResult)
    ensures Consistent(RecordedStatus(r), CategoryOf(r))
    ensures CategoryOf(r).Some? ==>
              (IsRetryable(CategoryOf(r).value) <==>
                   !RecordedStatus(r).NotOnWhatsapp? && !RecordedStatus(r).SendSkipped?)
  {
  }

  /** Every outcome's category, status and message as the attempt and the item record them. */
  lemma ClassificationTable(status: SendStatus, detail: Option<string>, message: string)
    ensures CategoryOf(Threw(true, message)) == Some(TRANSIENT) && CategoryOf(Threw(false, message)) == Some(UNKNOWN)
    ensures CategoryOf(Returned(Sent, detail)) == None && CategoryOf(Returned(SendError, detail)) == Some(TRANSIENT)
    ensures CategoryOf(Returned(NotOnWhatsapp, detail)) == Some(PERMANENT)
    ensures CategoryOf(Returned(SendSkipped, detail)) == Some(VALIDATION)
    ensures status.Other? ==> CategoryOf(Returned(status, detail)) == Some(UNKNOWN)
    ensures RecordedStatus(Returned(status, detail)) == status
    ensures forall notReady :: RecordedStatus(Threw(notReady, message)) == SendError
    ensures forall notReady :: DetailOf(Threw(notReady, message)) == Some(message)
    ensures DetailOf(Returned(status, detail)) == if detail == None || detail == Some("") then None else detail
    ensures forall category :: IsRetryable(category) <==> category in {TRANSIENT, UNKNOWN}
  {
  }
}
