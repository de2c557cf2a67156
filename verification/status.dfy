/** The status strings the services write into their jobs, and the life cycle
    they are meant to follow. `set_status` accepts any string, so a status is a
    string here too; the life cycle is a property of the callers. */
module JobStatus {

  type Status = string

  const Created: Status := "created"
  const Processing: Status := "processing"
  /** Terminal status written by the chat and embedding workers. */
  const Finished: Status := "finished"
  /** Terminal status written when the queue refuses a job. */
  const Failed: Status := "failed"
  /** Terminal status written by the vector worker (not "finished"). */
  const Completed: Status := "completed"

  /** Position of a status along created -> processing -> terminal. */
  function Rank(s: Status): (r: nat)
    ensures r <= 2
    ensures r == 0 <==> s == Created
    ensures r == 1 <==> s == Processing
  {
    if s == Created then 0
    else if s == Processing then 1
    else 2
  }

  /** A terminal status: no worker or handler moves a job out of it. */
  predicate IsTerminal(s: Status) {
    s == Finished || s == Failed || s == Completed
  }

  /** `t` is `s` or a later point of the life cycle. */
  predicate NoRegress(s: Status, t: Status) {
    Rank(s) <= Rank(t) && (IsTerminal(s) ==> t == s)
  }
}
