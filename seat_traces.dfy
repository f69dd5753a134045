/**
 * Runs of the server: any sequence of route calls and worker runs, and the
 * properties that hold over every such run.
 */
module SeatTraces {
  import opened Wrappers
  import opened SeatModel

  /** One thing that can happen to the server. */
  datatype Event =
    | Start(env: Option<nat>, setReply: StoreReply)   // the listen callback at startup
    | Reserve(throws: bool)                           // a request to /reserve_seat
    | Register                                        // a request to /process
    | Work(getReply: StoreReply, setReply: StoreReply) // the worker runs once

  function Apply(s: State, e: Event): State {
    match e
    case Start(env, setReply) => Listen(s, env, setReply)
    case Reserve(throws) => ReserveSeat(s, throws).state
    case Register => Process(s)
    case Work(getReply, setReply) => WorkerStep(s, getReply, setReply)
  }

  function Run(s: State, t: seq<Event>): State
    decreases |t|
  {
    if t == [] then s else Run(Apply(s, t[0]), t[1..])
  }

  /** The event that opens the gate: a startup whose write to the store succeeded. */
  predicate Opens(e: Event) {
    e.Start? && e.setReply.Ok?
  }

  /** Every run keeps the queue FIFO: finished jobs first, waiting jobs after. */
  lemma {:induction false} RunValid(s: State, t: seq<Event>)
    requires Valid(s)
    ensures Valid(Run(s, t))
    decreases |t|
  {
    if t != [] {
      RunValid(Apply(s, t[0]), t[1..]);
    }
  }

  /** From a non-negative count, no run ever makes the count negative. */
  lemma {:induction false} RunSeatsNonNegative(s: State, t: seq<Event>)
    requires SeatsOf(s.stored) >= 0
    ensures SeatsOf(Run(s, t).stored) >= 0
    decreases |t|
  {
    if t != [] {
      RunSeatsNonNegative(Apply(s, t[0]), t[1..]);
    }
  }

  /** Apart from a successful startup, nothing ever raises the count: only the worker lowers it. */
  lemma {:induction false} RunSeatsNonIncreasing(s: State, t: seq<Event>)
    requires forall i :: 0 <= i < |t| ==> !Opens(t[i])
    ensures SeatsOf(Run(s, t).stored) <= SeatsOf(s.stored)
    decreases |t|
  {
    if t != [] {
      RunSeatsNonIncreasing(Apply(s, t[0]), t[1..]);
    }
  }

  /** If the gate is open at the end of a run, it was open at the start or a startup opened it. */
  lemma {:induction false} GateOpensOnlyAtStart(s: State, t: seq<Event>)
    ensures Run(s, t).enabled ==> s.enabled || exists i :: 0 <= i < |t| && Opens(t[i])
    decreases |t|
  {
    if t != [] {
      GateOpensOnlyAtStart(Apply(s, t[0]), t[1..]);
      if Run(s, t).enabled && !s.enabled && !Opens(t[0]) {
        var i :| 0 <= i < |t[1..]| && Opens(t[1..][i]);
        assert Opens(t[i + 1]);
      }
    }
  }

  /**
   * Once the gate is closed, and no startup reopens it, no request creates a
   * job: the job list only changes by settling the jobs already in it.
   */
  lemma {:induction false} ClosedGateCreatesNoJob(s: State, t: seq<Event>)
    requires !s.enabled
    requires forall i :: 0 <= i < |t| ==> !Opens(t[i])
    ensures |Run(s, t).jobs| == |s.jobs| && !Run(s, t).enabled
    decreases |t|
  {
    if t != [] {
      ClosedGateCreatesNoJob(Apply(s, t[0]), t[1..]);
    }
  }

  /**
   * Start with 2 seats, reserve three times, register the worker and let it
   * run three times: two jobs complete, the second closes the gate, the third
   * fails, and no seat is left.
   */
  lemma TwoSeatsThreeRequests()
    ensures var r := Run(Boot(None), [Start(Some(2), Ok), Reserve(false), Reserve(false), Reserve(false),
                                     Register, Work(Ok, Ok), Work(Ok, Ok), Work(Ok, Ok)]);
      r == State(Some(0), false, [Completed, Completed, Failed(NotEnoughSeats)], 3, true)
  {
  }

  /**
   * Start with 0 seats: the gate still opens, so one request is admitted; the
   * worker then closes the gate and fails the job, and the count stays 0.
   */
  lemma ZeroSeats()
    ensures var r := Run(Boot(None), [Start(Some(0), Ok), Reserve(false), Register, Work(Ok, Ok), Reserve(false)]);
      r == State(Some(0), false, [Failed(NotEnoughSeats)], 1, true)
  {
  }
}
