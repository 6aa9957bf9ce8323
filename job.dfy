/**
 * The record the fair queue stores (app/queue/job.go).
 *
 * `time.Time` is replaced by an integer reading of a logical clock that the
 * queue advances on every reading, so "later" is simply "larger".
 */
module Jobs {

  /** Handle of the closure a job carries; the queue never looks inside it. */
  datatype Runnable = Runnable(id: nat)

  datatype Job = Job(runnable: Runnable, userID: int, priority: int, insertionTime: int)

  /** `newJob`: a job owned by `userID`, stamped with the clock reading `now`. */
  function NewJob(userID: int, priority: int, runnable: Runnable, now: int): (j: Job)
    ensures j.userID == userID
    ensures j.priority == priority
    ensures j.runnable == runnable
    ensures j.insertionTime == now
  {
    Job(runnable, userID, priority, now)
  }

  /** The closures that have been invoked, in order: the only effect `Run` has. */
  class Invocations {
    var log: seq<Runnable>

    constructor ()
      ensures log == []
    {
      log := [];
    }
  }

  /** `Job.Run`: invokes the stored closure exactly once and does nothing else. */
  method Run(j: Job, effects: Invocations)
    modifies effects
    ensures effects.log == old(effects.log) + [j.runnable]
  {
    effects.log := effects.log + [j.runnable];
  }
}
