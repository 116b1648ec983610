/** Leases over time: priority of claims, keep-alive by heartbeats, and the failure budget. */
module Leases {
  import opened Sequences
  import opened Tables
  import opened Transactions
  import opened JobMoves
  import opened QueueInvariant
  import opened QueueProperties

  // ---- Claims form a priority queue -----------------------------------------------------

  function EligibleJobs(jobs: map<JobId, Job>, lane: Lane, now: real): set<JobId> {
    set id | id in jobs && Eligible(jobs[id], lane, now)
  }

  lemma {:induction false} FirstOf(jobs: map<JobId, Job>, ids: set<JobId>) returns (first: JobId)
    requires ids != {} && ids <= jobs.Keys
    ensures first in ids && forall other | other in ids :: Before(jobs[first], jobs[other])
  {
    var id :| id in ids;
    if ids == {id} {
      first := id;
    } else {
      var best := FirstOf(jobs, ids - {id});
      first := if Before(jobs[best], jobs[id]) then best else id;
    }
  }

  /** A claim can be granted exactly when some job of the lane is eligible. */
  lemma ClaimGrantedIffEligible(jobs: map<JobId, Job>, lane: Lane, now: real)
    ensures (exists id :: ClaimAnswer(jobs, lane, now, id)) <==> EligibleJobs(jobs, lane, now) != {}
  {
    if EligibleJobs(jobs, lane, now) != {} {
      var first := FirstOf(jobs, EligibleJobs(jobs, lane, now));
      assert ClaimAnswer(jobs, lane, now, first);
    }
    forall id | ClaimAnswer(jobs, lane, now, id) ensures EligibleJobs(jobs, lane, now) != {} {
      assert id in EligibleJobs(jobs, lane, now);
    }
  }

  /** The two lanes split the eligible jobs, so no backlog of one is ever granted on the other. */
  lemma LanesPartition(jobs: map<JobId, Job>, now: real)
    ensures EligibleJobs(jobs, Interactive, now) !! EligibleJobs(jobs, Batch, now)
    ensures EligibleJobs(jobs, Interactive, now) + EligibleJobs(jobs, Batch, now)
            == EligibleJobs(jobs, Unrestricted, now)
  {}

  /** While a single note waits, only single notes are granted outside the batch lane, oldest first. */
  lemma SingleNotesGoFirst(jobs: map<JobId, Job>, lane: Lane, now: real, granted: JobId, waiting: JobId)
    requires lane != Batch && ClaimAnswer(jobs, lane, now, granted)
    requires waiting in jobs && Eligible(jobs[waiting], lane, now) && jobs[waiting].kind == SingleNote
    ensures jobs[granted].kind == SingleNote && jobs[granted].created <= jobs[waiting].created
  {
    assert Before(jobs[granted], jobs[waiting]);
  }

  // ---- Claims, column by column ---------------------------------------------------------

  /** Waiting and due, or in progress with a lease that ran out; single notes are the interactive lane. */
  predicate Takeable(job: Job, lane: Lane, now: real) {
    && (job.status == Pending ==> job.available <= now)
    && (job.status != Pending ==> job.status == Processing && job.leaseUntil.Some? && job.leaseUntil.value < now)
    && (lane == Interactive ==> job.kind == SingleNote)
    && (lane == Batch ==> job.kind != SingleNote)
  }

  predicate GoesFirst(a: Job, b: Job) {
    || (a.kind == SingleNote && b.kind != SingleNote)
    || ((a.kind == SingleNote <==> b.kind == SingleNote) && a.created <= b.created)
  }

  /** The claim grants the job exactly when it can be taken and goes before all that can. */
  lemma ClaimGrantsIff(db: Db, lane: Lane, now: real, id: JobId)
    ensures Issues(db, ClaimEvent(lane, now, id), id)
            <==> && id in db.jobs && Takeable(db.jobs[id], lane, now)
                 && forall other | other in db.jobs && Takeable(db.jobs[other], lane, now) ::
                      GoesFirst(db.jobs[id], db.jobs[other])
  {
    forall other | other in db.jobs ensures Takeable(db.jobs[other], lane, now) <==> Eligible(db.jobs[other], lane, now) {}
    if id in db.jobs {
      forall other | other in db.jobs ensures GoesFirst(db.jobs[id], db.jobs[other]) <==> Before(db.jobs[id], db.jobs[other]) {}
    }
  }

  /** What a granted claim writes, and that a claim granting nothing writes nothing. */
  lemma ClaimWrites(db: Db, lane: Lane, now: real, id: JobId)
    ensures var b := Next(db, ClaimEvent(lane, now, id));
            if Issues(db, ClaimEvent(lane, now, id), id) then
              && id in db.jobs
              && b.jobs == db.jobs[id := db.jobs[id].(status := Processing, lease := Some(db.nextToken),
                                                      leaseUntil := Some(now + 180.0), attempts := db.jobs[id].attempts + 1)]
              && b.nextToken == db.nextToken + 1 && b == db.(jobs := b.jobs, nextToken := b.nextToken)
            else b == db
  {}

  /** A waiting job that is due and alone in its lane is granted at once. */
  lemma AloneIsGranted(db: Db, lane: Lane, now: real, id: JobId)
    requires JobAt(db, id, Pending) && db.jobs[id].available <= now
    requires lane == Unrestricted || (lane == Interactive <==> db.jobs[id].kind == SingleNote)
    requires forall other | other in db.jobs && other != id :: !Takeable(db.jobs[other], lane, now)
    ensures Issues(db, ClaimEvent(lane, now, id), id)
  {
    ClaimGrantsIff(db, lane, now, id);
  }

  // ---- Keep-alive -----------------------------------------------------------------------

  /** At every instant a job in progress belongs to its holder or to the queue, never to both. */
  lemma HeldOrClaimable(db: Db, id: JobId, now: real)
    requires Inv(db) && JobAt(db, id, Processing)
    ensures db.jobs[id].lease.Some?
    ensures Holds(db, id, db.jobs[id].lease.value, now) <==> !Eligible(db.jobs[id], Unrestricted, now)
  {
    assert ShapeAt(db, id);
  }

  function ClockOf(e: Event): Option<real> {
    match e
    case ClaimEvent(_, now, _) => Some(now)
    case HeartbeatEvent(_, _, now) => Some(now)
    case CompleteEvent(_, _, _, now) => Some(now)
    case FailEvent(_, _, now) => Some(now)
    case _ => None
  }

  predicate Beats(e: Event, id: JobId, token: nat) { e.HeartbeatEvent? && e.id == id && e.token == token }

  /** When the holder was last heard of: at its last heartbeat in the run, else at `since`. */
  function LastHeard(run: seq<Event>, id: JobId, token: nat, since: real): real {
    if run == [] then since
    else if Beats(run[|run| - 1], id, token) then run[|run| - 1].now
    else LastHeard(run[..|run| - 1], id, token, since)
  }

  /** Every clock reading comes at most a lease after the holder was last heard of. */
  predicate Punctual(run: seq<Event>, id: JobId, token: nat, since: real) {
    forall i | 0 <= i < |run| && ClockOf(run[i]).Some? ::
      ClockOf(run[i]).value <= LastHeard(run[..i], id, token, since) + LEASE_SECONDS
  }

  /** The holder itself neither completes nor gives up during the run. */
  predicate StillWorking(run: seq<Event>, id: JobId, token: nat) {
    forall i | 0 <= i < |run| :: !((run[i].CompleteEvent? || run[i].FailEvent?) && run[i].id == id && run[i].token == token)
  }

  predicate HeldSince(db: Db, id: JobId, token: nat, heard: real) {
    JobAt(db, id, Processing) && db.jobs[id].lease == Some(token) && db.jobs[id].leaseUntil == Some(heard + LEASE_SECONDS)
  }

  lemma StepKeepsHold(db: Db, e: Event, id: JobId, token: nat, heard: real)
    requires Inv(db) && HeldSince(db, id, token, heard)
    requires ClockOf(e).Some? ==> ClockOf(e).value <= heard + LEASE_SECONDS
    requires !((e.CompleteEvent? || e.FailEvent?) && e.id == id && e.token == token)
    ensures HeldSince(Next(db, e), id, token, if Beats(e, id, token) then e.now else heard)
  {
    assert ShapeAt(db, id);
    if Beats(e, id, token) {
      assert Holds(db, id, token, e.now);
    } else {
      EveryMove(db, e, id);
    }
  }

  /**
   A holder heard of at least once per lease keeps the job: nobody else is granted it, and its own
   completion at the next such moment still finds the lease in force. Nothing is asked of the clock
   readings among themselves.
   */
  lemma {:induction false} HeartbeatsKeepTheJob(db: Db, run: seq<Event>, id: JobId, token: nat, since: real)
    requires Inv(db) && HeldSince(db, id, token, since)
    requires Punctual(run, id, token, since) && StillWorking(run, id, token)
    ensures HeldSince(After(db, run), id, token, LastHeard(run, id, token, since))
    ensures forall now | now <= LastHeard(run, id, token, since) + LEASE_SECONDS :: Holds(After(db, run), id, token, now)
    ensures forall i | 0 <= i < |run| :: !Issues(After(db, run[..i]), run[i], id)
  {
    if run != [] {
      var front, e := run[..|run| - 1], run[|run| - 1];
      assert forall i | 0 <= i < |front| :: run[..i] == front[..i];
      HeartbeatsKeepTheJob(db, front, id, token, since);
      RunKeeps(db, front);
      assert ClockOf(e).Some? ==> ClockOf(e).value <= LastHeard(front, id, token, since) + LEASE_SECONDS;
      StepKeepsHold(After(db, front), e, id, token, LastHeard(front, id, token, since));
      forall i | 0 <= i < |run| ensures !Issues(After(db, run[..i]), run[i], id) {
        if i < |front| { assert run[..i] == front[..i]; } else { assert run[..i] == front; }
      }
    }
  }

  /** The worker beats every third of the lease it was granted, within 10 and 60 seconds. */
  function BeatInterval(leaseSeconds: nat): (interval: nat)
    ensures interval >= 10 && 2.0 * interval as real <= LEASE_SECONDS
    ensures leaseSeconds >= 20 ==> 2 * interval <= leaseSeconds
  {
    var third := (if leaseSeconds == 0 then 180 else leaseSeconds) / 3;
    var capped := if third < 60 then third else 60;
    if capped > 10 then capped else 10
  }

  // ---- The failure budget ---------------------------------------------------------------

  predicate FailsJob(db: Db, e: Event, id: JobId) {
    e.FailEvent? && e.id == id && FailAccepted(db, id, e.token)
  }

  /** A retry, or a renewed request for a failed single note, starts a new budget. */
  predicate ResetsJob(db: Db, e: Event, id: JobId) {
    JobAt(db, id, Failed)
    && ((e.RetryJobEvent? && e.id == id) || (e.RetryFilterEvent? && Filter(e.run) == id)
        || (e.EnqueueSingleEvent? && Single(e.note.revision) == id))
  }

  function FailuresSinceReset(run: seq<Event>, id: JobId): nat {
    if run == [] then 0
    else
      var front, e := run[..|run| - 1], run[|run| - 1];
      if ResetsJob(Reached(front), e, id) then 0
      else FailuresSinceReset(front, id) + if FailsJob(Reached(front), e, id) then 1 else 0
  }

  /** Recorded failures never outnumber the claims counted in `attempts`, and leave room for one more. */
  predicate WithinBudget(db: Db, id: JobId, failures: nat) {
    if id !in db.jobs then failures == 0
    else
      && failures <= db.jobs[id].attempts
      && (db.jobs[id].status == Failed ==> failures <= MAX_ATTEMPTS)
      && (db.jobs[id].status == Processing ==> failures < db.jobs[id].attempts)
      && (db.jobs[id].status != Failed ==> failures < MAX_ATTEMPTS)
  }

  lemma BudgetMove(a: Db, e: Event, b: Db, id: JobId, failures: nat)
    requires WithinBudget(a, id, failures) && Moved(a, e, b, id)
    requires id in a.jobs ==> JobShape(id, a.jobs[id], a.nextToken)
    ensures WithinBudget(b, id, if ResetsJob(a, e, id) then 0 else failures + if FailsJob(a, e, id) then 1 else 0)
  {}

  lemma BudgetStep(db: Db, e: Event, id: JobId, failures: nat)
    requires Inv(db) && WithinBudget(db, id, failures)
    ensures WithinBudget(Next(db, e), id,
                         if ResetsJob(db, e, id) then 0 else failures + if FailsJob(db, e, id) then 1 else 0)
  {
    if id in db.jobs { assert ShapeAt(db, id); }
    EveryMove(db, e, id);
    BudgetMove(db, e, Next(db, e), id, failures);
  }

  /** Between two resets at most five failures of a job are accepted, whatever leases run out. */
  lemma {:induction false} AtMostFiveFailures(run: seq<Event>, id: JobId)
    ensures FailuresSinceReset(run, id) <= MAX_ATTEMPTS
    ensures WithinBudget(Reached(run), id, FailuresSinceReset(run, id))
  {
    if run != [] {
      var front := run[..|run| - 1];
      AtMostFiveFailures(front, id);
      ReachedInv(front);
      BudgetStep(Reached(front), run[|run| - 1], id, FailuresSinceReset(front, id));
    }
  }

  /** A failure that leaves the job pending delays it by 120, 240, 480 or 960 seconds; the cap never bites. */
  lemma BackoffRange(db: Db, id: JobId, token: nat, now: real)
    requires Inv(db) && FailAccepted(db, id, token) && db.jobs[id].attempts < MAX_ATTEMPTS
    ensures var job := Fail(db, id, token, now).jobs[id];
            && job.status == Pending
            && job.available - now in {120.0, 240.0, 480.0, 960.0}
            && job.available - now == (60 * Power2(db.jobs[id].attempts)) as real
  {
    assert ShapeAt(db, id);
    assert Power2(1) == 2 && Power2(2) == 4 && Power2(3) == 8 && Power2(4) == 16;
  }

  // ---- Budget and delay over runs -------------------------------------------------------

  /** Claims granted on the job since it appeared or was last reset. */
  function ClaimsSinceReset(run: seq<Event>, id: JobId): nat {
    if run == [] then 0
    else
      var front, e := run[..|run| - 1], run[|run| - 1];
      if ResetsJob(Reached(front), e, id) then 0
      else ClaimsSinceReset(front, id) + if Issues(Reached(front), e, id) then 1 else 0
  }

  lemma AttemptsStep(db: Db, e: Event, id: JobId)
    requires id in db.jobs
    ensures id in Next(db, e).jobs
    ensures Next(db, e).jobs[id].attempts
            == if ResetsJob(db, e, id) then 0 else db.jobs[id].attempts + if Issues(db, e, id) then 1 else 0
  {
    EveryMove(db, e, id);
  }

  /** `attempts` counts exactly these claims. */
  lemma {:induction false} AttemptsAreClaims(run: seq<Event>, id: JobId)
    ensures if id in Reached(run).jobs then Reached(run).jobs[id].attempts == ClaimsSinceReset(run, id)
            else ClaimsSinceReset(run, id) == 0
  {
    if run != [] {
      var front, e := run[..|run| - 1], run[|run| - 1];
      AttemptsAreClaims(front, id);
      if id in Reached(front).jobs { AttemptsStep(Reached(front), e, id); } else { EveryMove(Reached(front), e, id); }
    }
  }

  lemma FailureStatus(db: Db, id: JobId, token: nat, now: real)
    requires FailAccepted(db, id, token)
    ensures id in Next(db, FailEvent(id, token, now)).jobs
    ensures Next(db, FailEvent(id, token, now)).jobs[id].status == if db.jobs[id].attempts >= 5 then Failed else Pending
  {
    EveryMove(db, FailEvent(id, token, now), id);
  }

  /** An accepted failure ends the job exactly when it has been claimed five times since its last reset. */
  lemma FifthClaimIsTheLast(run: seq<Event>, id: JobId, token: nat, now: real)
    requires FailAccepted(Reached(run), id, token)
    ensures var b := Next(Reached(run), FailEvent(id, token, now));
            && id in b.jobs
            && b.jobs[id].status == (if ClaimsSinceReset(run, id) >= 5 then Failed else Pending)
  {
    AttemptsAreClaims(run, id);
    FailureStatus(Reached(run), id, token, now);
  }

  /** A retry, or a renewed request, leaves a failed job as good as new: due at once, with all five claims. */
  lemma ResetStartsAfresh(db: Db, e: Event, id: JobId)
    requires ResetsJob(db, e, id)
    ensures JobAt(Next(db, e), id, Pending)
    ensures var before, after := db.jobs[id], Next(db, e).jobs[id];
            && after.attempts == 0 && after.available == 0.0 && after.created == before.created
            && after.result == before.result
            && (if e.RetryJobEvent? then after.lease == before.lease else after.lease.None?)
            && (!e.EnqueueSingleEvent? ==> after.payload == before.payload)
  {
    EveryMove(db, e, id);
  }

  function Delay(claims: nat): real {
    match claims
    case 1 => 120.0
    case 2 => 240.0
    case 3 => 480.0
    case _ => 960.0
  }

  predicate WaitsUntil(db: Db, id: JobId, due: real) { JobAt(db, id, Pending) && db.jobs[id].available == due }

  lemma PendingWaits(db: Db, e: Event, id: JobId, due: real)
    requires WaitsUntil(db, id, due) && !Issues(db, e, id)
    ensures WaitsUntil(Next(db, e), id, due)
  {
    EveryMove(db, e, id);
  }

  lemma FailureDelays(db: Db, id: JobId, token: nat, now: real)
    requires Inv(db) && FailAccepted(db, id, token) && JobAt(Next(db, FailEvent(id, token, now)), id, Pending)
    ensures 1 <= db.jobs[id].attempts <= 4
    ensures Next(db, FailEvent(id, token, now)).jobs[id].available == now + Delay(db.jobs[id].attempts)
  {
    assert ShapeAt(db, id);
    BackoffRange(db, id, token, now);
    assert Power2(1) == 2 && Power2(2) == 4 && Power2(3) == 8 && Power2(4) == 16;
  }

  lemma ReachedStep(run: seq<Event>, k: nat)
    requires k < |run|
    ensures Reached(run[..k + 1]) == Next(Reached(run[..k]), run[k])
  {
    assert run[..k + 1][..k] == run[..k];
  }

  predicate IssuedAt(run: seq<Event>, j: nat, id: JobId)
    requires j < |run|
  {
    Issues(Reached(run[..j]), run[j], id)
  }

  /** A waiting job waits until it is claimed. */
  lemma {:induction false} WaitsUntilClaimed(run: seq<Event>, i: nat, k: nat, id: JobId, due: real)
    requires i <= k <= |run| && WaitsUntil(Reached(run[..i]), id, due)
    requires forall j | i <= j < k :: !IssuedAt(run, j, id)
    ensures WaitsUntil(Reached(run[..k]), id, due)
    decreases k
  {
    if k > i {
      WaitsUntilClaimed(run, i, k - 1, id, due);
      ReachedStep(run, k - 1);
      assert !IssuedAt(run, k - 1, id);
      PendingWaits(Reached(run[..k - 1]), run[k - 1], id, due);
    }
  }

  lemma GrantedIsDue(db: Db, e: Event, id: JobId)
    requires JobAt(db, id, Pending) && Issues(db, e, id)
    ensures e.ClaimEvent? && db.jobs[id].available <= e.now
  {
    ClaimGrantsIff(db, e.lane, e.now, id);
  }

  /**
   After an accepted failure that leaves the job pending, whatever happens in between and whatever the
   clocks read: the next claim granted on the job reads a time at least 120, 240, 480 or 960 seconds
   after the failure, by how often the job had been claimed.
   */
  lemma BackoffIsRespected(run: seq<Event>, i: nat, k: nat, id: JobId)
    requires i < k < |run| && FailsJob(Reached(run[..i]), run[i], id) && JobAt(Reached(run[..i + 1]), id, Pending)
    requires forall j | i < j < k :: !IssuedAt(run, j, id)
    ensures 1 <= ClaimsSinceReset(run[..i], id) <= 4
    ensures IssuedAt(run, k, id) ==> run[k].now >= run[i].now + Delay(ClaimsSinceReset(run[..i], id))
  {
    ReachedInv(run[..i]);
    AttemptsAreClaims(run[..i], id);
    ReachedStep(run, i);
    FailureDelays(Reached(run[..i]), id, run[i].token, run[i].now);
    var due := run[i].now + Delay(ClaimsSinceReset(run[..i], id));
    assert WaitsUntil(Reached(run[..i + 1]), id, due);
    WaitsUntilClaimed(run, i + 1, k, id, due);
    if IssuedAt(run, k, id) { GrantedIsDue(Reached(run[..k]), run[k], id); }
  }
}
