# Seat reservation server, modelled in Dafny

The queuing-system server `0x03-queuing_system_in_js/100-seat.js` sells a fixed
number of seats. It keeps the number of seats left under the store key
`available_seats` and has a process-wide admission gate, `reservationEnabled`.
It also has a `reserve_seat` job queue served by one worker. The routes are:

- startup, in the `listen` callback: write the initial count (the configured
  one, or 50), then open the gate;
- `/available_seats`: read the count (an unset key reads as 0);
- `/reserve_seat`: if the gate is open, enqueue a job; if closed, answer
  "Reservation are blocked";
- `/process`: register the worker. For each job the worker reads the count,
  closes the gate when that count is at most 1, and then either writes
  count − 1 and completes the job, or fails it with
  "Not enough seats available".

The project has four modules:

- `Wrappers` (`wrappers.dfy`): `Option` and `Result`.
- `SeatModel` (`seat_model.dfy`): the server state as a value (`State`).
  It has one transition function per state-changing route and one for the worker
  (`WorkerStep`), the FIFO invariant `Valid`, the drain of a whole queue
  (`DrainAll`), and the lemma fixing the outcome of a drain.
- `SeatTraces` (`seat_traces.dfy`): arbitrary runs (sequences of events) and
  the properties that hold over every run. It also holds two worked scenarios.
- `SeatService` (`seat_service.dfy`): class `ReservationService`. Its fields are
  the store key, the gate, the job list, the queue cursor and the "worker
  registered" flag. Each state-changing method updates them in place and is
  proved to make exactly the matching `SeatModel` transition. The read route,
  `AvailableSeats`, is a method with no `modifies` clause whose contract states
  its answer directly.

The store is not modelled; the outcome of each store call is a `StoreReply`
parameter: `Ok`, or `Error(message)`. This way every error path of the source is modelled as a
failure that the caller of the model picks. A throwing
`queue.create` is the `throws` parameter of the reservation route.

Two behaviours of the code worth noting:
- Startup opens the gate even when the initial count is 0.
- A failed write in the worker comes after the gate check. So it can leave the
  gate closed while the count is unchanged and the job fails.

## Model

| member | source | states |
|---|---|---|
| SeatModel.Boot | 0x03-queuing_system_in_js/100-seat.js:9-11 | at load the gate is closed, no job exists, no worker is registered, and the store holds whatever it held before |
| SeatModel.Listen | 0x03-queuing_system_in_js/100-seat.js:94-108 | the gate ends open iff it was open or the reset write succeeded; a successful write stores the configured count, 50 when none is configured; a failed write changes nothing; jobs and worker untouched |
| SeatModel.ReserveSeat | 0x03-queuing_system_in_js/100-seat.js:44-67 | gate closed: "Reservation are blocked" and the state is unchanged; gate open: exactly one waiting job appended at the tail and "Reservation in process", or "Reservation failed" and no change when creating the job throws; the count, gate and cursor are never touched; the FIFO invariant is kept |
| SeatModel.Process | 0x03-queuing_system_in_js/100-seat.js:69-73 | a worker is registered afterwards, registering again changes nothing, and the count, gate and jobs are untouched |
| SeatModel.WorkerStep | 0x03-queuing_system_in_js/100-seat.js:73-91 | with no worker or no waiting job nothing changes; otherwise only the head job is settled; the gate closes exactly when the count read is at most 1 and is never reopened; a count above 0 is written back minus one and the job completes; a count of 0 or less is left alone and the job fails with "Not enough seats available"; a failed read or write fails the job with the store's message and leaves the count; the count never rises and never goes below zero from a non-negative start; the FIFO invariant is kept |
| SeatModel.DrainOutcome | 0x03-queuing_system_in_js/100-seat.js:73-91 | `DrainAll`, the worker applied to every waiting job in turn, is fixed by this lemma: draining N waiting jobs from K >= 0 seats completes the first min(N, K), fails the rest with "Not enough seats available", leaves max(K − N, 0) seats, earlier jobs untouched, and leaves the gate open iff it was open and N = 0 or N < K |
| SeatTraces.RunValid | 0x03-queuing_system_in_js/100-seat.js:45-91 | over every run the queue stays FIFO: jobs before the cursor are finished, jobs after it still wait |
| SeatTraces.RunSeatsNonNegative | 0x03-queuing_system_in_js/100-seat.js:82-86 | from a non-negative count, no run makes the count negative |
| SeatTraces.RunSeatsNonIncreasing | 0x03-queuing_system_in_js/100-seat.js:82-84 | in a run without a successful startup the count never rises; only the worker writes it, and only lower |
| SeatTraces.GateOpensOnlyAtStart | 0x03-queuing_system_in_js/100-seat.js:100-103 | a gate open at the end of a run was open at its start or was opened by a startup whose write succeeded |
| SeatTraces.ClosedGateCreatesNoJob | 0x03-queuing_system_in_js/100-seat.js:45-49 | once the gate is closed and no startup reopens it, no request creates a job and the gate stays closed |
| SeatTraces.TwoSeatsThreeRequests | 0x03-queuing_system_in_js/100-seat.js:45-103 | start with 2 seats and reserve three times, then run the worker three times: two jobs complete, the third fails, the gate is closed and no seat is left |
| SeatTraces.ZeroSeats | 0x03-queuing_system_in_js/100-seat.js:73-103 | start with 0 seats: the gate still opens, one job is admitted and fails, the gate closes, a later request creates no job, and the count stays 0 |
| SeatService.ReservationService.constructor | 0x03-queuing_system_in_js/100-seat.js:9-11 | the object starts in the load state `Boot` |
| SeatService.ReservationService.Start | 0x03-queuing_system_in_js/100-seat.js:100-107 | performs exactly `Listen`: write the count first, then open the gate |
| SeatService.ReservationService.AvailableSeats | 0x03-queuing_system_in_js/100-seat.js:35-42 | returns the stored count, 0 when the key is unset, or the retrieval error when the read fails; changes nothing |
| SeatService.ReservationService.Reserve | 0x03-queuing_system_in_js/100-seat.js:45-67 | performs exactly `ReserveSeat` and returns its status |
| SeatService.ReservationService.Register | 0x03-queuing_system_in_js/100-seat.js:70-73 | performs exactly `Process` and answers "Queue processing" |
| SeatService.ReservationService.Work | 0x03-queuing_system_in_js/100-seat.js:73-91 | performs exactly `WorkerStep` and reports whether a job was taken |
| SeatService.ReservationService.Drain | 0x03-queuing_system_in_js/100-seat.js:73-91 | performs exactly `DrainAll`: with a worker registered, every waiting job is settled, the first min(N, K) complete, the rest fail, and max(K − N, 0) seats remain |

## Left out

- Express routing, JSON responses and port listening: only the status strings are kept, as results.
- Redis client creation, connection and error logging, and the `promisify` wrappers: the store is the field `stored`. Each call's success or failure is a `StoreReply` parameter.
- Kue persistence, job ids and the `failed`/`complete` console logging: the queue is a sequence of job states, and a job's index stands for its id. Jobs left over from an earlier process are not modelled; the queue starts empty.
- The asynchronous `job.save()`, which can fail after "Reservation in process" was answered: a job that is answered for is queued.
- Kue's intermediate "active" job state: one worker run is one atomic step.
- Registering the worker more than once and interleaving awaits inside the worker: the model has a single sequential consumer, so a second `/process` only keeps the flag set.
- `Number.parseInt` on environment strings and on stored strings: the configured count is an `Option<nat>`, with `None` for an unset or empty variable, and the stored value is an `int`. Non-numeric values (NaN) and negative configured counts are not modelled.
- `0x03-queuing_system_in_js/0-redis_client.js`: it only connects to the store and logs; it has no logic.
