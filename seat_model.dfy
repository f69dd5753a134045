/**
 * The seat-reservation state machine of the queuing-system server, as values.
 *
 * The server keeps three pieces of state: the store key `available_seats`
 * (absent until first written), the process-wide admission gate
 * `reservationEnabled`, and the `reserve_seat` job queue. Every route and the
 * queue's worker is one transition function on `State` below; the class in
 * module SeatService is proved to perform exactly these transitions.
 */
module SeatModel {
  import opened Wrappers

  /** Seat count used when the environment gives none. */
  const InitialSeatsCount: nat := 50

  const ReservationBlocked := "Reservation are blocked"
  const ReservationInProcess := "Reservation in process"
  const ReservationFailed := "Reservation failed"
  const QueueProcessing := "Queue processing"
  const NotEnoughSeats := "Not enough seats available"
  const RetrieveFailed := "Failed to retrieve available seats"

  /** What one call to the external store answers: done, or an error with its message. */
  datatype StoreReply = Ok | Error(message: string)

  /** The state of one `reserve_seat` job; a failed job keeps the reason it failed with. */
  datatype JobState = Queued | Completed | Failed(reason: string)

  /**
   * The whole server state.
   * - `stored`: the value under `available_seats`, `None` while unset;
   * - `enabled`: the admission gate;
   * - `jobs`: every job ever created, oldest first (a job's index is its id);
   * - `head`: how many of them the worker has taken off the queue;
   * - `processing`: whether a worker is registered for `reserve_seat`.
   */
  datatype State = State(stored: Option<int>, enabled: bool, jobs: seq<JobState>, head: nat, processing: bool)

  /** The seat count as every reader sees it: an unset key reads as 0. */
  function SeatsOf(stored: Option<int>): int {
    stored.GetOr(0)
  }

  /** The seat count the server starts with: the configured one, or 50. */
  function InitialCount(env: Option<nat>): nat {
    env.GetOr(InitialSeatsCount)
  }

  function Max(a: int, b: int): int {
    if a < b then b else a
  }

  /**
   * The queue is FIFO: the jobs the worker has taken are all finished, and the
   * jobs after them are all still waiting.
   */
  predicate Valid(s: State) {
    && s.head <= |s.jobs|
    && (forall i :: 0 <= i < s.head ==> s.jobs[i] != Queued)
    && (forall i :: s.head <= i < |s.jobs| ==> s.jobs[i] == Queued)
  }

  /** The state when the module is loaded: gate closed, no jobs, no worker. */
  function Boot(persisted: Option<int>): (r: State)
    ensures Valid(r) && !r.enabled && !r.processing && r.jobs == []
    ensures r.stored == persisted
  {
    State(persisted, false, [], 0, false)
  }

  /**
   * Startup: write the initial count to the store and, only once that write
   * succeeded, open the gate. A failed write leaves everything as it was.
   */
  function Listen(s: State, env: Option<nat>, setReply: StoreReply): (r: State)
    ensures r.enabled <==> s.enabled || setReply.Ok?
    ensures setReply.Ok? ==> r.enabled && SeatsOf(r.stored) == InitialCount(env) && r.stored.Some?
    ensures env.None? && setReply.Ok? ==> SeatsOf(r.stored) == 50
    ensures setReply.Error? ==> r == s
    ensures r.jobs == s.jobs && r.head == s.head && r.processing == s.processing
    ensures Valid(s) ==> Valid(r)
  {
    if setReply.Ok? then s.(stored := Some(InitialCount(env)), enabled := true) else s
  }

  /** The state after a reservation request, and the status it answers. */
  datatype Submission = Submission(state: State, status: string)

  /**
   * A reservation request. With the gate closed it is blocked and creates
   * nothing; otherwise one waiting job joins the tail of the queue, unless
   * creating it throws. The seat count is never touched here.
   */
  function ReserveSeat(s: State, throws: bool): (r: Submission)
    ensures !s.enabled ==> r.status == ReservationBlocked && r.state == s
    ensures s.enabled && !throws ==> r.status == ReservationInProcess && r.state.jobs == s.jobs + [Queued]
    ensures s.enabled && throws ==> r.status == ReservationFailed && r.state == s
    ensures r.state.jobs[..|s.jobs|] == s.jobs
    ensures |r.state.jobs| == |s.jobs| + (if r.status == ReservationInProcess then 1 else 0)
    ensures r.state.stored == s.stored && r.state.enabled == s.enabled
    ensures r.state.head == s.head && r.state.processing == s.processing
    ensures Valid(s) ==> Valid(r.state)
  {
    if !s.enabled then Submission(s, ReservationBlocked)
    else if throws then Submission(s, ReservationFailed)
    else Submission(s.(jobs := s.jobs + [Queued]), ReservationInProcess)
  }

  /** Registering the worker; registering it again changes nothing. */
  function Process(s: State): (r: State)
    ensures r.processing
    ensures s.processing ==> r == s
    ensures r.stored == s.stored && r.enabled == s.enabled && r.jobs == s.jobs && r.head == s.head
  {
    s.(processing := true)
  }

  /** Finishes the job at the head of the queue with `outcome`. */
  function Finish(s: State, stored: Option<int>, enabled: bool, outcome: JobState): State
    requires s.head < |s.jobs|
  {
    s.(stored := stored, enabled := enabled, jobs := s.jobs[s.head := outcome], head := s.head + 1)
  }

  /**
   * One run of the worker on the oldest waiting job, given what the store's
   * GET and SET answer. It reads the count, closes the gate when that count is
   * at most 1, and then either writes the count minus one and completes the
   * job or, with no seat left, fails it.
   */
  function WorkerStep(s: State, getReply: StoreReply, setReply: StoreReply): (r: State)
    // no worker or no waiting job: nothing happens
    ensures !s.processing || s.head >= |s.jobs| ==> r == s
    // the worker never opens the gate and never drives the counter below zero
    ensures r.enabled ==> s.enabled
    ensures SeatsOf(s.stored) >= 0 ==> SeatsOf(r.stored) >= 0
    ensures SeatsOf(r.stored) <= SeatsOf(s.stored)
    ensures Valid(s) ==> Valid(r)
    ensures r.processing == s.processing
    // exactly the head job is settled
    ensures s.processing && s.head < |s.jobs| ==>
      && r.head == s.head + 1 && |r.jobs| == |s.jobs|
      && r.jobs[s.head] != Queued
      && (forall i :: 0 <= i < |s.jobs| && i != s.head ==> r.jobs[i] == s.jobs[i])
    // a failed read fails the job and changes nothing else
    ensures s.processing && s.head < |s.jobs| && getReply.Error? ==>
      r.stored == s.stored && r.enabled == s.enabled && r.jobs[s.head] == Failed(getReply.message)
    // the gate closes exactly when the count read is at most 1
    ensures s.processing && s.head < |s.jobs| && getReply.Ok? ==>
      (r.enabled <==> s.enabled && SeatsOf(s.stored) >= 2)
    ensures s.processing && s.head < |s.jobs| && getReply.Ok? && SeatsOf(s.stored) > 0 && setReply.Ok? ==>
      r.stored == Some(SeatsOf(s.stored) - 1) && r.jobs[s.head] == Completed
    ensures s.processing && s.head < |s.jobs| && getReply.Ok? && SeatsOf(s.stored) > 0 && setReply.Error? ==>
      r.stored == s.stored && r.jobs[s.head] == Failed(setReply.message)
    ensures s.processing && s.head < |s.jobs| && getReply.Ok? && SeatsOf(s.stored) <= 0 ==>
      r.stored == s.stored && r.jobs[s.head] == Failed(NotEnoughSeats)
  {
    if !s.processing || s.head >= |s.jobs| then s
    else if getReply.Error? then Finish(s, s.stored, s.enabled, Failed(getReply.message))
    else
      var current := SeatsOf(s.stored);
      var enabled := if current <= 1 then false else s.enabled;
      if current > 0 then
        if setReply.Ok? then Finish(s, Some(current - 1), enabled, Completed)
        else Finish(s, s.stored, enabled, Failed(setReply.message))
      else Finish(s, s.stored, enabled, Failed(NotEnoughSeats))
  }

  /** The worker applied to every waiting job in turn, the store always answering. */
  function DrainAll(s: State): State
    decreases |s.jobs| - s.head
  {
    if !s.processing || s.head >= |s.jobs| then s
    else DrainAll(WorkerStep(s, Ok, Ok))
  }

  /**
   * Draining N waiting jobs from K >= 0 seats: the first min(N, K) jobs
   * complete, the rest fail for want of seats, the count ends at max(K - N, 0),
   * and the gate stays open only if no job ran or every job left a seat behind.
   */
  lemma {:induction false} DrainOutcome(s: State)
    requires Valid(s) && s.processing && SeatsOf(s.stored) >= 0
    ensures var r := DrainAll(s);
      && Valid(r) && r.processing
      && |r.jobs| == |s.jobs| && r.head == |s.jobs|
      && r.jobs[..s.head] == s.jobs[..s.head]
      && (forall j :: s.head <= j < |s.jobs| ==>
            r.jobs[j] == if j - s.head < SeatsOf(s.stored) then Completed else Failed(NotEnoughSeats))
      && SeatsOf(r.stored) == Max(SeatsOf(s.stored) - (|s.jobs| - s.head), 0)
      && (r.enabled <==> s.enabled && (s.head == |s.jobs| || |s.jobs| - s.head < SeatsOf(s.stored)))
    decreases |s.jobs| - s.head
  {
    if s.head < |s.jobs| {
      var s1 := WorkerStep(s, Ok, Ok);
      DrainOutcome(s1);
      assert s1.jobs[..s.head] == s.jobs[..s.head];
      var r := DrainAll(s1);
      assert r.jobs[..s.head] == r.jobs[..s1.head][..s.head];
    }
  }
}
