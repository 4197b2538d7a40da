/** The status column of a durable event (app/db/models.py, `EventStatus`). */
module EventStatus {
  datatype Status = Pending | Processing | Processed | Failed | DeadLetter
}
