/** The life of one job: everything a single transaction can do to it. */
module JobMoves {
  import opened Sequences
  import opened Tables
  import opened Transactions

  /** Which transaction brings a job into being. */
  predicate Maker(a: Db, e: Event, id: JobId) {
    match id
    case Watch(_) | Screen(_) => e.EnqueuePendingEvent?
    case Single(revision) => e.EnqueueSingleEvent? && e.note.revision == revision
    case Filter(run) => e.QueueFilterEvent? && e.run == run
    case RunSummary(run) =>
      e.CompleteEvent? && e.id in a.jobs && a.jobs[e.id].kind == ClassifyRecommendations && a.jobs[e.id].run == Some(run)
    case Screened(parent) => e.CompleteEvent? && e.id == parent
    case ProfileFilter(_) => e.QueueProfilesEvent?
    case DigestOf(_) => e.QueueDigestEvent?
    case Dashboard(_) | Command(_) => e.QueueTextEvent?
  }

  /** When the transaction of a maker reads the clock. */
  function Stamp(e: Event): real {
    match e
    case EnqueuePendingEvent(_, _, now) => now
    case EnqueueSingleEvent(_, _, _, now) => now
    case QueueFilterEvent(_, _, now) => now
    case CompleteEvent(_, _, _, now) => now
    case QueueProfilesEvent(_, now) => now
    case QueueDigestEvent(_, _, _, now) => now
    case QueueTextEvent(_, _, now) => now
    case _ => 0.0
  }

  /** A job appears unleased, unattempted and undelayed; only messages that need no worker appear ready. */
  predicate Born(a: Db, e: Event, id: JobId, job: Job) {
    && Maker(a, e, id)
    && job.attempts == 0 && job.lease.None? && job.leaseUntil.None?
    && job.available == 0.0 && job.created == Stamp(e)
    && job.status == (if e.QueueTextEvent? then Ready else Pending)
    && (id.Single? ==> job.payload.deliver == e.deliver)
  }

  /** The one change each transaction makes to a job that is there. */
  predicate Worked(a: Db, e: Event, id: JobId, after: Job)
    requires id in a.jobs
  {
    var before := a.jobs[id];
    match e
    case ClaimEvent(lane, now, claimed) =>
      && claimed == id && Eligible(before, lane, now)
      && after == before.(status := Processing, lease := Some(a.nextToken), leaseUntil := Some(now + LEASE_SECONDS),
                          attempts := before.attempts + 1)
    case HeartbeatEvent(held, token, now) =>
      held == id && Holds(a, id, token, now) && after == before.(leaseUntil := Some(now + LEASE_SECONDS))
    case FailEvent(failed, token, _) =>
      && failed == id && FailAccepted(a, id, token)
      && after == before.(status := if before.attempts >= MAX_ATTEMPTS then Failed else Pending,
                          available := after.available)
    case CompleteEvent(closed, token, result, _) =>
      && closed == id && before.status == Processing && before.lease == Some(token)
      && after.status in {Completed, Ready} && after == before.(status := after.status, result := Some(result))
    case RetryJobEvent(reopened) => reopened == id && before.status == Failed && after == Requeued(before, false)
    case RetryFilterEvent(run) => id == Filter(run) && before.status == Failed && after == Requeued(before, true)
    case EnqueueSingleEvent(note, deliver, live, _) =>
      id == Single(note.revision) && after == Reuse(before, note, deliver, live)
    case DeliveredEvent(sent) => sent == id && before.status == Ready && after == before.(status := Sent)
    case _ => false
  }

  predicate Moved(a: Db, e: Event, b: Db, id: JobId) {
    if id in a.jobs then
      && id in b.jobs && (b.jobs[id] == a.jobs[id] || Worked(a, e, id, b.jobs[id]))
      && (e.FailEvent? && e.id == id && FailAccepted(a, id, e.token) ==> Worked(a, e, id, b.jobs[id]))
    else id in b.jobs ==> Born(a, e, id, b.jobs[id])
  }

  lemma FilterMoves(db: Db, closed: JobId, token: nat, r: Result, now: real, id: JobId)
    ensures Moved(db, CompleteEvent(closed, token, r, now), CompleteFilter(db, closed, token, r, now).0, id)
  {}

  lemma NoteFilterMoves(db: Db, closed: JobId, token: nat, r: Result, now: real, id: JobId)
    ensures Moved(db, CompleteEvent(closed, token, r, now), CompleteNoteFilter(db, closed, token, r, now).0, id)
  {}

  lemma ProfileFilterMoves(db: Db, closed: JobId, token: nat, r: Result, now: real, id: JobId)
    ensures Moved(db, CompleteEvent(closed, token, r, now), CompleteProfileFilter(db, closed, token, r, now).0, id)
  {}

  lemma SummaryMoves(db: Db, closed: JobId, token: nat, r: Result, now: real, id: JobId)
    ensures Moved(db, CompleteEvent(closed, token, r, now), CompleteSummary(db, closed, token, r, now).0, id)
  {}

  lemma CompleteMoves(db: Db, closed: JobId, token: nat, r: Result, now: real, id: JobId)
    ensures Moved(db, CompleteEvent(closed, token, r, now), Complete(db, closed, token, r, now).0, id)
  {
    match ReadKind(db, closed)
    case Some(ClassifyRecommendations) => FilterMoves(db, closed, token, r, now, id);
    case Some(ClassifyProfiles) => ProfileFilterMoves(db, closed, token, r, now, id);
    case Some(ClassifyNotes) => NoteFilterMoves(db, closed, token, r, now, id);
    case _ => SummaryMoves(db, closed, token, r, now, id);
  }

  lemma FailMoves(db: Db, failed: JobId, token: nat, now: real, id: JobId)
    ensures Moved(db, FailEvent(failed, token, now), Fail(db, failed, token, now), id)
  {
    var b := Fail(db, failed, token, now);
    if FailAccepted(db, failed, token) { assert b.jobs == db.jobs[failed := b.jobs[failed]]; }
  }

  lemma ClaimMoves(db: Db, lane: Lane, now: real, claimed: JobId, id: JobId)
    ensures Moved(db, ClaimEvent(lane, now, claimed), Claim(db, lane, now, claimed), id)
  {}

  lemma HeartbeatMoves(db: Db, held: JobId, token: nat, now: real, id: JobId)
    ensures Moved(db, HeartbeatEvent(held, token, now), Heartbeat(db, held, token, now), id)
  {}

  lemma DeliveredMoves(db: Db, sent: JobId, id: JobId)
    ensures Moved(db, DeliveredEvent(sent), Delivered(db, sent), id)
  {}

  lemma RetryMoves(db: Db, e: Event, id: JobId)
    requires e.RetryFilterEvent? || e.RetryJobEvent?
    ensures Moved(db, e, Next(db, e), id)
  {}

  lemma NoteMoves(db: Db, e: Event, id: JobId)
    requires e.AddNoteEvent? || e.EnqueueSingleEvent? || e.EnqueuePendingEvent?
    ensures Moved(db, e, Next(db, e), id)
  {}

  lemma RunMoves(db: Db, e: Event, id: JobId)
    requires e.CreateRunEvent? || e.AddItemEvent? || e.FinishCollectionEvent? || e.QueueFilterEvent? || e.ReconcileEvent?
    ensures Moved(db, e, Next(db, e), id)
  {}

  lemma InsertMoves(db: Db, e: Event, added: JobId, job: Job, id: JobId)
    requires Born(db, e, added, job) && !e.FailEvent?
    ensures Moved(db, e, InsertOrIgnore(db, added, job), id)
  {}

  lemma QueueMoves(db: Db, e: Event, id: JobId)
    requires e.QueueProfilesEvent? || e.QueueDigestEvent?
    ensures Moved(db, e, Next(db, e), id)
  {
    match e
    case QueueProfilesEvent(users, now) =>
      InsertMoves(db, e, ProfileFilter(users), NewJob(ClassifyProfiles, Payload([], [], users, false, true), now,
                                                      Some(ProfileSweep(users))), id);
    case QueueDigestEvent(date, notes, deliver, now) =>
      InsertMoves(db, e, DigestOf(date), NewJob(DailyDigest, Payload(notes, [], [], deliver, true), now, None), id);
  }

  lemma QueueTextMoves(db: Db, queued: JobId, text: string, now: real, id: JobId)
    ensures Moved(db, QueueTextEvent(queued, text, now), QueueText(db, queued, text, now), id)
  {}

  /** Whatever the transaction, a job is left alone, born, or worked on as above. */
  lemma EveryMove(db: Db, e: Event, id: JobId)
    ensures Moved(db, e, Next(db, e), id)
  {
    match e
    case CompleteEvent(closed, token, r, now) => CompleteMoves(db, closed, token, r, now, id);
    case FailEvent(failed, token, now) => FailMoves(db, failed, token, now, id);
    case ClaimEvent(lane, now, claimed) => ClaimMoves(db, lane, now, claimed, id);
    case HeartbeatEvent(held, token, now) => HeartbeatMoves(db, held, token, now, id);
    case DeliveredEvent(sent) => DeliveredMoves(db, sent, id);
    case QueueTextEvent(queued, text, now) => QueueTextMoves(db, queued, text, now, id);
    case RecordPartEvent(_, _) =>
    case _ =>
      if e.RetryFilterEvent? || e.RetryJobEvent? { RetryMoves(db, e, id); }
      else if e.AddNoteEvent? || e.EnqueueSingleEvent? || e.EnqueuePendingEvent? { NoteMoves(db, e, id); }
      else if e.QueueProfilesEvent? || e.QueueDigestEvent? { QueueMoves(db, e, id); }
      else { RunMoves(db, e, id); }
  }

  // ---- Tokens and the delivery ledger ---------------------------------------------------

  predicate Framed(a: Db, e: Event, b: Db) {
    && (!e.ClaimEvent? ==> b.nextToken == a.nextToken)
    && (!e.RecordPartEvent? ==> b.parts == a.parts)
  }

  lemma CompleteFrames(db: Db, id: JobId, token: nat, r: Result, now: real)
    ensures Complete(db, id, token, r, now).0.nextToken == db.nextToken && Complete(db, id, token, r, now).0.parts == db.parts
  {
    match ReadKind(db, id)
    case Some(ClassifyRecommendations) =>
    case Some(ClassifyProfiles) =>
    case Some(ClassifyNotes) =>
    case _ =>
  }

  lemma QueuesFrame(db: Db, e: Event)
    requires e.QueueFilterEvent? || e.EnqueuePendingEvent? || e.EnqueueSingleEvent? || e.AddItemEvent?
    ensures Framed(db, e, Next(db, e))
  {}

  lemma RunsFrame(db: Db, e: Event)
    requires e.FailEvent? || e.RetryFilterEvent? || e.DeliveredEvent? || e.ReconcileEvent?
    ensures Framed(db, e, Next(db, e))
  {}

  /** Only claims issue tokens, and only the ledger's own transaction writes it. */
  lemma TokensAndParts(db: Db, e: Event)
    ensures Framed(db, e, Next(db, e))
  {
    if e.CompleteEvent? { CompleteFrames(db, e.id, e.token, e.result, e.now); }
    else if e.QueueFilterEvent? || e.EnqueuePendingEvent? || e.EnqueueSingleEvent? || e.AddItemEvent? { QueuesFrame(db, e); }
    else if e.FailEvent? || e.RetryFilterEvent? || e.DeliveredEvent? || e.ReconcileEvent? { RunsFrame(db, e); }
  }
}
