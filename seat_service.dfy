/**
 * The reservation server as an object: the store key, the admission gate and
 * the job queue are fields that its routes and its worker update in place.
 * Each method is proved to make exactly the transition that module SeatModel
 * specifies, so every property proved there holds of this object.
 */
module SeatService {
  import opened Wrappers
  import opened SeatModel

  class ReservationService {
    var stored: Option<int>
    var enabled: bool
    var jobs: seq<JobState>
    var head: nat
    var processing: bool

    /** The abstract state these fields stand for. */
    function Snapshot(): State
      reads this
    {
      State(stored, enabled, jobs, head, processing)
    }

    ghost predicate Valid()
      reads this
    {
      SeatModel.Valid(Snapshot())
    }

    /** Module load: whatever the store already holds, the gate closed, no worker. */
    constructor (persisted: Option<int>)
      ensures Valid() && Snapshot() == Boot(persisted)
    {
      stored := persisted;
      enabled := false;
      jobs := [];
      head := 0;
      processing := false;
    }

    /** The listen callback: reset the seat count, then open the gate. */
    method Start(env: Option<nat>, setReply: StoreReply)
      requires Valid()
      modifies this
      ensures Valid() && Snapshot() == Listen(old(Snapshot()), env, setReply)
    {
      if setReply.Ok? {
        stored := Some(InitialCount(env));
        enabled := true;
      }
    }

    /** GET /available_seats: the count, 0 while unset, or the error answer. */
    method AvailableSeats(getReply: StoreReply) returns (r: Result<int, string>)
      ensures getReply.Error? ==> r == Failure(RetrieveFailed)
      ensures getReply.Ok? && stored.None? ==> r == Success(0)
      ensures getReply.Ok? && stored.Some? ==> r == Success(stored.value)
    {
      if getReply.Error? {
        return Failure(RetrieveFailed);
      }
      var numberOfAvailableSeats := SeatsOf(stored);
      r := Success(numberOfAvailableSeats);
    }

    /** GET /reserve_seat: enqueue a job unless the gate is closed. */
    method Reserve(throws: bool) returns (status: string)
      requires Valid()
      modifies this
      ensures Valid()
      ensures Snapshot() == ReserveSeat(old(Snapshot()), throws).state
      ensures status == ReserveSeat(old(Snapshot()), throws).status
    {
      if !enabled {
        status := ReservationBlocked;
        return;
      }
      if throws {
        status := ReservationFailed;
        return;
      }
      jobs := jobs + [Queued];
      status := ReservationInProcess;
    }

    /** GET /process: register the worker; a second registration adds none. */
    method Register() returns (status: string)
      requires Valid()
      modifies this
      ensures Valid() && Snapshot() == Process(old(Snapshot()))
      ensures status == QueueProcessing
    {
      status := QueueProcessing;
      processing := true;
    }

    /** The worker callback, run on the oldest waiting job when there is one. */
    method Work(getReply: StoreReply, setReply: StoreReply) returns (ran: bool)
      requires Valid()
      modifies this
      ensures Valid() && Snapshot() == WorkerStep(old(Snapshot()), getReply, setReply)
      ensures ran <==> old(processing) && old(head) < old(|jobs|)
    {
      if !processing || head >= |jobs| {
        return false;
      }
      ran := true;
      if getReply.Error? {
        jobs := jobs[head := Failed(getReply.message)];
        head := head + 1;
        return;
      }
      var currentAvailableSeats := SeatsOf(stored);
      if currentAvailableSeats <= 1 {
        enabled := false;
      }
      if currentAvailableSeats > 0 {
        if setReply.Ok? {
          stored := Some(currentAvailableSeats - 1);
          jobs := jobs[head := Completed];
        } else {
          jobs := jobs[head := Failed(setReply.message)];
        }
      } else {
        jobs := jobs[head := Failed(NotEnoughSeats)];
      }
      head := head + 1;
    }

    /** The queue handing every waiting job to the registered worker, one at a time. */
    method Drain()
      requires Valid()
      modifies this
      ensures Valid() && Snapshot() == DrainAll(old(Snapshot()))
      ensures old(processing) ==> head == |jobs|
      // from K >= 0 seats and N waiting jobs: the first min(N, K) complete, the rest fail
      ensures old(processing) && SeatsOf(old(stored)) >= 0 ==>
        && (forall j :: old(head) <= j < |jobs| ==>
              jobs[j] == if j - old(head) < SeatsOf(old(stored)) then Completed else Failed(NotEnoughSeats))
        && SeatsOf(stored) == Max(SeatsOf(old(stored)) - (old(|jobs|) - old(head)), 0)
    {
      ghost var before := Snapshot();
      while processing && head < |jobs|
        invariant Valid() && processing == old(processing)
        invariant DrainAll(Snapshot()) == DrainAll(old(Snapshot()))
        decreases |jobs| - head
      {
        var ran := Work(Ok, Ok);
      }
      if before.processing && SeatsOf(before.stored) >= 0 {
        DrainOutcome(before);
      }
    }
  }
}
