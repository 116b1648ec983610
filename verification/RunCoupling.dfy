/** Recommendation runs against the jobs they wait for. */
module RunCoupling {
  import opened Sequences
  import opened Tables
  import opened Transactions
  import opened JobMoves
  import opened QueueInvariant
  import opened QueueProperties

  /** Over every run, including collections repeated on finished runs: a waiting status has its job. */
  lemma WaitingRunsHaveTheirJob(run: seq<Event>, rid: RunId)
    requires rid in Reached(run).runs
    ensures var db := Reached(run);
            match db.runs[rid].status
            case FilterQueued => JobAt(db, Filter(rid), Pending) || JobAt(db, Filter(rid), Processing)
            case SummaryQueued =>
              && (JobAt(db, RunSummary(rid), Pending) || JobAt(db, RunSummary(rid), Processing)
                  || JobAt(db, RunSummary(rid), Failed))
              && JobAt(db, Filter(rid), Completed)
            case SummaryReady => JobAt(db, RunSummary(rid), Ready) && JobAt(db, Filter(rid), Completed)
            case RunSent => JobAt(db, RunSummary(rid), Sent) && JobAt(db, Filter(rid), Completed)
            case _ => true
    ensures forall id | id in Reached(run).jobs && Reached(run).jobs[id].kind == Summary
                        && Reached(run).jobs[id].run == Some(rid) :: id == RunSummary(rid)
  {
    var db := Reached(run);
    ReachedInv(run);
    assert RunAt(db, rid);
    if RunSummary(rid) in db.jobs { assert LinksAt(db, RunSummary(rid)); }
    forall id | id in db.jobs && db.jobs[id].kind == Summary && db.jobs[id].run == Some(rid)
      ensures id == RunSummary(rid)
    {
      assert ShapeAt(db, id);
    }
  }

  /** The start-up backfill changes nothing that this code can have written. */
  lemma BackfillIsIdentity(run: seq<Event>)
    ensures Reconcile(Reached(run)) == Reached(run)
  {
    ReachedInv(run);
    ReconcileIsIdentity(Reached(run));
  }

  /** On any database at all, running it twice is running it once. */
  lemma BackfillIsIdempotent(db: Db)
    ensures Reconcile(Reconcile(db)) == Reconcile(db)
  {
    assert Reconcile(Reconcile(db)).runs == Reconcile(db).runs;
  }

  /** The status of a run that waits for its summary, or has sent it, agrees with the summary job. */
  predicate Agrees(db: Db, rid: RunId, sid: JobId)
    requires rid in db.runs
  {
    && (db.runs[rid].status == SummaryQueued ==> OpenJob(db, sid))
    && (db.runs[rid].status == SummaryReady ==> JobAt(db, sid, Ready))
    && (db.runs[rid].status == RunSent ==> JobAt(db, sid, Sent))
  }

  /** A run marked ready or sent ahead of its job, or waiting for one that completed undelivered. */
  predicate BeyondRepair(db: Db, rid: RunId, sid: JobId)
    requires rid in db.runs
  {
    match db.runs[rid].status
    case SummaryQueued => JobAt(db, sid, Completed)
    case SummaryReady => OpenJob(db, sid) || JobAt(db, sid, Completed)
    case RunSent => !JobAt(db, sid, Sent)
    case _ => false
  }

  /** On any legacy database with one summary job for the run: exactly what the backfill repairs. */
  lemma BackfillRepairs(db: Db, rid: RunId, sid: JobId)
    requires rid in db.runs && sid in db.jobs
    requires forall id | id in db.jobs :: db.jobs[id].kind == Summary && db.jobs[id].run == Some(rid) <==> id == sid
    ensures Agrees(Reconcile(db), rid, sid) <==> !BeyondRepair(db, rid, sid)
  {
    var status := db.jobs[sid].status;
    assert forall s :: SummaryAt(db.jobs, rid, s) <==> s == status;
  }

  /** A legacy row that stays wrong: a ready run over a pending summary. */
  lemma BackfillLeavesReadyRun(rid: RunId) returns (db: Db)
    ensures rid in db.runs && db.runs[rid].status == SummaryReady && JobAt(db, RunSummary(rid), Pending)
    ensures Reconcile(db) == db && !Agrees(db, rid, RunSummary(rid))
  {
    var job := NewJob(Summary, Payload([], [], [], false, true), 0.0, Some(rid));
    db := EMPTY.(jobs := map[RunSummary(rid) := job], runs := map[rid := RunRow(SummaryReady, 0, 0, 0, 0)]);
    assert forall s :: SummaryAt(db.jobs, rid, s) ==> s == Pending;
  }

  // ---- The converse, and when it holds ---------------------------------------------------

  /** A run's status and the statuses of its filter and summary jobs, where they exist. */
  datatype View = View(run: Option<RunStatus>, filter: Option<Status>, summary: Option<Status>)

  function StatusOf(db: Db, id: JobId): Option<Status> {
    if id in db.jobs then Some(db.jobs[id].status) else None
  }

  function ViewOf(db: Db, rid: RunId): View {
    View(if rid in db.runs then Some(db.runs[rid].status) else None,
         StatusOf(db, Filter(rid)), StatusOf(db, RunSummary(rid)))
  }

  /** The run has the one status that its jobs determine. */
  predicate Determined(v: View) {
    match v.run
    case None => v.filter.None? && v.summary.None?
    case Some(status) =>
      match v.summary {
        case Some(Ready) => status == SummaryReady
        case Some(Sent) => status == RunSent
        case Some(_) => status == SummaryQueued
        case None =>
          match v.filter {
            case Some(Failed) => status == FilterFailed
            case Some(Completed) => status == Filtered
            case Some(_) => status == FilterQueued
            case None => status in {Running, Collected, CollectFailed}
          }
      }
  }

  ghost predicate AllDetermined(db: Db) {
    forall rid {:trigger ViewOf(db, rid)} :: Determined(ViewOf(db, rid))
  }

  /** No collection ends on a run that has its filter, and failed filters are retried through their run. */
  predicate Disciplined(db: Db, e: Event) {
    && (e.FinishCollectionEvent? && e.run in db.runs ==> Filter(e.run) !in db.jobs)
    && (e.RetryJobEvent? && e.id.Filter? ==> !JobAt(db, e.id, Failed))
  }

  ghost predicate DisciplinedRun(run: seq<Event>) {
    forall i | 0 <= i < |run| :: Disciplined(Reached(run[..i]), run[i])
  }

  /** Facts about a run that its transactions rely on. */
  lemma RunFacts(db: Db, rid: RunId)
    requires Inv(db)
    ensures ViewOf(db, rid).summary.Some? ==> ViewOf(db, rid).filter == Some(Completed)
    ensures ViewOf(db, rid).summary != Some(Completed)
    ensures ViewOf(db, rid).filter !in {Some(Ready), Some(Sent)}
  {
    if RunSummary(rid) in db.jobs { assert LinksAt(db, RunSummary(rid)) && ShapeAt(db, RunSummary(rid)); }
    if Filter(rid) in db.jobs { assert ShapeAt(db, Filter(rid)); }
  }

  lemma ClaimDetermined(db: Db, lane: Lane, now: real, id: JobId, rid: RunId)
    requires Determined(ViewOf(db, rid))
    ensures Determined(ViewOf(Claim(db, lane, now, id), rid))
  {}

  lemma HeartbeatDetermined(db: Db, id: JobId, token: nat, now: real, rid: RunId)
    requires Determined(ViewOf(db, rid))
    ensures Determined(ViewOf(Heartbeat(db, id, token, now), rid))
  {}

  lemma FailDetermined(db: Db, b: Db, id: JobId, terminal: bool, rid: RunId)
    requires Inv(db) && Determined(ViewOf(db, rid))
    requires JobAt(db, id, Processing) && id in b.jobs && b.jobs == db.jobs[id := b.jobs[id]]
    requires b.jobs[id].status == if terminal then Failed else Pending
    requires b.runs == if terminal && id.Filter? then SetRun(db.runs, id.run, {FilterQueued}, FilterFailed) else db.runs
    ensures Determined(ViewOf(b, rid))
  {
    RunFacts(db, rid);
  }

  lemma SentDetermined(db: Db, b: Db, id: JobId, rid: RunId)
    requires Inv(db) && Determined(ViewOf(db, rid)) && JobAt(db, id, Ready) && JobAt(b, id, Sent)
    requires !id.Filter? && b.jobs == db.jobs[id := b.jobs[id]]
    requires b.runs == if id.RunSummary? then SetRun(db.runs, id.run, {SummaryReady, SummaryQueued}, RunSent) else db.runs
    ensures Determined(ViewOf(b, rid))
  {
    RunFacts(db, rid);
  }

  lemma DeliveredDetermined(db: Db, id: JobId, rid: RunId)
    requires Inv(db) && Determined(ViewOf(db, rid))
    ensures Determined(ViewOf(Delivered(db, id), rid))
  {
    var b := Delivered(db, id);
    if b != db {
      assert ShapeAt(db, id);
      SentDetermined(db, b, id, rid);
    }
  }

  /** A failed filter is reopened together with its run. */
  lemma FilterReopens(db: Db, b: Db, run: RunId, rid: RunId)
    requires Inv(db) && Determined(ViewOf(db, rid)) && JobAt(db, Filter(run), Failed) && JobAt(b, Filter(run), Pending)
    requires b.jobs == db.jobs[Filter(run) := b.jobs[Filter(run)]]
    requires b.runs == SetRun(db.runs, run, {FilterFailed}, FilterQueued)
    ensures Determined(ViewOf(b, rid))
  {
    RunFacts(db, rid);
  }

  lemma RetryFilterDetermined(db: Db, e: Event, rid: RunId)
    requires Inv(db) && Determined(ViewOf(db, rid)) && e.RetryFilterEvent?
    ensures Determined(ViewOf(Next(db, e), rid))
  {
    if JobAt(db, Filter(e.run), Failed) { FilterReopens(db, Next(db, e), e.run, rid); }
  }

  lemma RetryJobDetermined(db: Db, id: JobId, rid: RunId)
    requires Determined(ViewOf(db, rid)) && (id.Filter? ==> !JobAt(db, id, Failed))
    ensures Determined(ViewOf(RetryJob(db, id), rid))
  {}

  lemma SummaryDetermined(db: Db, b: Db, id: JobId, rid: RunId)
    requires Inv(db) && Determined(ViewOf(db, rid))
    requires JobAt(db, id, Processing) && id in b.jobs && b.jobs == db.jobs[id := b.jobs[id]]
    requires !id.Filter? && (id.RunSummary? ==> b.jobs[id].status == Ready)
    requires b.runs == if id.RunSummary? then SetRun(db.runs, id.run, {SummaryQueued}, SummaryReady) else db.runs
    ensures Determined(ViewOf(b, rid))
  {
    RunFacts(db, rid);
  }

  lemma CompleteSummaryDetermined(db: Db, id: JobId, token: nat, r: Result, now: real, rid: RunId)
    requires Inv(db) && Determined(ViewOf(db, rid)) && (id in db.jobs ==> !Classifies(db.jobs[id].kind))
    ensures Determined(ViewOf(CompleteSummary(db, id, token, r, now).0, rid))
  {
    var b := CompleteSummary(db, id, token, r, now).0;
    if b != db {
      assert ShapeAt(db, id);
      SummaryDetermined(db, b, id, rid);
    }
  }

  /** A closed filter, with the summary it queued if anything was chosen. */
  lemma FilterClosed(db: Db, b: Db, id: JobId, chosen: bool, rid: RunId)
    requires Inv(db) && Determined(ViewOf(db, rid)) && id.Filter? && JobAt(db, id, Processing) && JobAt(b, id, Completed)
    requires RunSummary(id.run) !in db.jobs
    requires if chosen then JobAt(b, RunSummary(id.run), Pending) else RunSummary(id.run) !in b.jobs
    requires forall other | other in db.jobs && other != id :: other in b.jobs && b.jobs[other] == db.jobs[other]
    requires b.jobs.Keys <= db.jobs.Keys + {RunSummary(id.run)}
    requires b.runs.Keys == db.runs.Keys
    requires forall run | run in db.runs && run != id.run :: b.runs[run] == db.runs[run]
    requires id.run in db.runs ==> b.runs[id.run].status == if chosen then SummaryQueued else Filtered
    ensures Determined(ViewOf(b, rid))
  {
    RunFacts(db, rid);
  }

  lemma CompleteFilterDetermined(db: Db, id: JobId, token: nat, r: Result, now: real, rid: RunId)
    requires Inv(db) && Determined(ViewOf(db, rid))
    ensures Determined(ViewOf(CompleteFilter(db, id, token, r, now).0, rid))
  {
    var b := CompleteFilter(db, id, token, r, now).0;
    if b != db {
      assert ShapeAt(db, id);
      FreshSummary(db, id, RunSummary(id.run));
      FilterClosed(db, b, id, SelectedItems(db, id.run, Rulings(r.items, true)) != [], rid);
    }
  }

  /** Screenings of notes and profiles touch neither runs nor their jobs. */
  lemma ScreeningKeepsView(db: Db, id: JobId, token: nat, r: Result, now: real, rid: RunId)
    requires JobAt(db, id, Processing) ==> ShapeAt(db, id)
    ensures ViewOf(CompleteNoteFilter(db, id, token, r, now).0, rid) == ViewOf(db, rid)
    ensures ViewOf(CompleteProfileFilter(db, id, token, r, now).0, rid) == ViewOf(db, rid)
  {
    NoteFilterMoves(db, id, token, r, now, Filter(rid));
    NoteFilterMoves(db, id, token, r, now, RunSummary(rid));
    ProfileFilterMoves(db, id, token, r, now, Filter(rid));
    ProfileFilterMoves(db, id, token, r, now, RunSummary(rid));
  }

  lemma CompleteDetermined(db: Db, id: JobId, token: nat, r: Result, now: real, rid: RunId)
    requires Inv(db) && Determined(ViewOf(db, rid))
    ensures Determined(ViewOf(Complete(db, id, token, r, now).0, rid))
  {
    match ReadKind(db, id)
    case Some(ClassifyRecommendations) => CompleteFilterDetermined(db, id, token, r, now, rid);
    case Some(ClassifyNotes) => assert ShapeAt(db, id); ScreeningKeepsView(db, id, token, r, now, rid);
    case Some(ClassifyProfiles) => assert ShapeAt(db, id); ScreeningKeepsView(db, id, token, r, now, rid);
    case _ => CompleteSummaryDetermined(db, id, token, r, now, rid);
  }

  lemma FilterAppears(db: Db, b: Db, run: RunId, rid: RunId)
    requires Inv(db) && Determined(ViewOf(db, rid)) && run in db.runs && Filter(run) !in db.jobs
    requires JobAt(b, Filter(run), Pending) && b.jobs == db.jobs[Filter(run) := b.jobs[Filter(run)]]
    requires run in b.runs && b.runs[run].status == FilterQueued && b.runs == db.runs[run := b.runs[run]]
    ensures Determined(ViewOf(b, rid))
  {
    RunFacts(db, rid);
  }

  lemma QueueFilterDetermined(db: Db, e: Event, rid: RunId)
    requires Inv(db) && Determined(ViewOf(db, rid)) && e.QueueFilterEvent?
    ensures Determined(ViewOf(Next(db, e), rid))
  {
    if Next(db, e) != db { FilterAppears(db, Next(db, e), e.run, rid); }
  }

  /** Transactions that touch neither runs nor their jobs. */
  predicate Unrelated(e: Event) {
    || e.AddNoteEvent? || e.EnqueuePendingEvent? || e.EnqueueSingleEvent? || e.RecordPartEvent?
    || e.AddItemEvent? || e.QueueProfilesEvent? || e.QueueDigestEvent? || e.QueueTextEvent?
  }

  lemma UnrelatedKeepsView(db: Db, e: Event, rid: RunId)
    requires Unrelated(e)
    ensures ViewOf(Next(db, e), rid) == ViewOf(db, rid)
  {
    EveryMove(db, e, Filter(rid));
    EveryMove(db, e, RunSummary(rid));
    UnrelatedKeepsRuns(db, e);
  }

  lemma UnrelatedKeepsRuns(db: Db, e: Event)
    requires Unrelated(e)
    ensures Next(db, e).runs == db.runs
  {}

  lemma FailEventDetermined(db: Db, id: JobId, token: nat, now: real, rid: RunId)
    requires Inv(db) && Determined(ViewOf(db, rid))
    ensures Determined(ViewOf(Fail(db, id, token, now), rid))
  {
    if FailAccepted(db, id, token) {
      assert ShapeAt(db, id);
      FailDetermined(db, Fail(db, id, token, now), id, db.jobs[id].attempts >= MAX_ATTEMPTS, rid);
    }
  }

  /** Transactions on the runs themselves. */
  predicate OnRuns(e: Event) {
    e.RetryFilterEvent? || e.QueueFilterEvent? || e.ReconcileEvent? || e.CreateRunEvent? || e.FinishCollectionEvent?
  }

  lemma CreateRunDetermined(db: Db, e: Event, rid: RunId)
    requires Determined(ViewOf(db, rid)) && e.CreateRunEvent?
    ensures Determined(ViewOf(Next(db, e), rid))
  {}

  lemma FinishCollectionDetermined(db: Db, e: Event, rid: RunId)
    requires Inv(db) && Determined(ViewOf(db, rid)) && e.FinishCollectionEvent? && Disciplined(db, e)
    ensures Determined(ViewOf(Next(db, e), rid))
  {
    RunFacts(db, rid);
  }

  lemma RunEventDetermined(db: Db, e: Event, rid: RunId)
    requires Inv(db) && Determined(ViewOf(db, rid)) && Disciplined(db, e) && OnRuns(e)
    ensures Determined(ViewOf(Next(db, e), rid))
  {
    match e
    case RetryFilterEvent(_) => RetryFilterDetermined(db, e, rid);
    case QueueFilterEvent(_, _, _) => QueueFilterDetermined(db, e, rid);
    case ReconcileEvent => ReconcileIsIdentity(db);
    case CreateRunEvent(_) => CreateRunDetermined(db, e, rid);
    case FinishCollectionEvent(_, _) => FinishCollectionDetermined(db, e, rid);
  }

  lemma StepDetermined(db: Db, e: Event, rid: RunId)
    requires Inv(db) && Determined(ViewOf(db, rid)) && Disciplined(db, e)
    ensures Determined(ViewOf(Next(db, e), rid))
  {
    if Unrelated(e) {
      UnrelatedKeepsView(db, e, rid);
    } else if OnRuns(e) {
      RunEventDetermined(db, e, rid);
    } else {
      match e
      case ClaimEvent(lane, now, id) => ClaimDetermined(db, lane, now, id, rid);
      case HeartbeatEvent(id, token, now) => HeartbeatDetermined(db, id, token, now, rid);
      case CompleteEvent(id, token, result, now) => CompleteDetermined(db, id, token, result, now, rid);
      case FailEvent(id, token, now) => FailEventDetermined(db, id, token, now, rid);
      case DeliveredEvent(id) => DeliveredDetermined(db, id, rid);
      case RetryJobEvent(id) => RetryJobDetermined(db, id, rid);
    }
  }

  /** The exact condition for one transaction. */
  lemma StepIsDeterminedIff(db: Db, e: Event)
    requires Inv(db) && AllDetermined(db)
    ensures AllDetermined(Next(db, e)) <==> Disciplined(db, e)
  {
    if Disciplined(db, e) {
      forall rid ensures Determined(ViewOf(Next(db, e), rid)) {
        assert Determined(ViewOf(db, rid));
        StepDetermined(db, e, rid);
      }
    } else {
      var rid := if e.FinishCollectionEvent? then e.run else e.id.run;
      assert Determined(ViewOf(db, rid));
      RunFacts(db, rid);
      assert !Determined(ViewOf(Next(db, e), rid));
    }
  }

  ghost predicate DeterminedThroughout(run: seq<Event>) {
    forall i | 0 <= i <= |run| :: AllDetermined(Reached(run[..i]))
  }

  lemma ThroughoutSplits(run: seq<Event>)
    requires run != []
    ensures DeterminedThroughout(run) <==> DeterminedThroughout(run[..|run| - 1]) && AllDetermined(Reached(run))
  {
    var front := run[..|run| - 1];
    assert forall i | 0 <= i <= |front| :: run[..i] == front[..i];
    assert run[..|run|] == run;
    if DeterminedThroughout(front) && AllDetermined(Reached(run)) {
      forall i | 0 <= i <= |run| ensures AllDetermined(Reached(run[..i])) {
        if i <= |front| { assert AllDetermined(Reached(front[..i])); }
      }
    }
  }

  lemma DisciplineSplits(run: seq<Event>)
    requires run != []
    ensures DisciplinedRun(run)
            <==> DisciplinedRun(run[..|run| - 1]) && Disciplined(Reached(run[..|run| - 1]), run[|run| - 1])
  {
    var front := run[..|run| - 1];
    assert forall i | 0 <= i <= |front| :: run[..i] == front[..i];
    if DisciplinedRun(run) { assert Disciplined(Reached(run[..|front|]), run[|front|]); }
  }

  lemma ThroughoutEnds(run: seq<Event>)
    requires DeterminedThroughout(run)
    ensures AllDetermined(Reached(run))
  {
    assert run[..|run|] == run;
  }

  /** A run of transactions keeps every status the one that its jobs determine exactly when it is disciplined. */
  lemma {:induction false} RunsAreDetermined(run: seq<Event>)
    ensures DeterminedThroughout(run) <==> DisciplinedRun(run)
  {
    if run != [] {
      var front, last := run[..|run| - 1], run[|run| - 1];
      RunsAreDetermined(front);
      ThroughoutSplits(run);
      DisciplineSplits(run);
      if DeterminedThroughout(front) {
        ReachedInv(front);
        ThroughoutEnds(front);
        StepIsDeterminedIff(Reached(front), last);
      }
    }
  }

  /** A run with one collected note. */
  lemma Collects(rid: RunId, n: Note) returns (run: seq<Event>)
    ensures var b := Reached(run);
            && rid in b.runs && n.revision in b.notes && b.jobs == map[]
            && b.items == map[(rid, n.revision) := ItemRow(ItemPending, 1)]
  {
    var first := Extend(Extend([], CreateRunEvent(rid)), AddNoteEvent(n, 0.0));
    var a := Reached(first);
    assert rid in a.runs && n.revision in a.notes && a.jobs == map[] && a.items == map[];
    run := Extend(Extend(first, AddItemEvent(rid, n.revision, 1)), FinishCollectionEvent(rid, true));
  }

  lemma QueueFilterQueues(b: Db, rid: RunId, r: Revision)
    requires rid in b.runs && r in b.notes && b.jobs == map[] && b.items == map[(rid, r) := ItemRow(ItemPending, 1)]
    ensures rid in QueueFilter(b, rid, [r], 0.0).runs && JobAt(QueueFilter(b, rid, [r], 0.0), Filter(rid), Pending)
  {
    assert RankedItems(b, rid, [r]);
  }

  /** Without that discipline the converse fails: a second collection hides a waiting filter. */
  lemma RecollectionHidesTheFilter(rid: RunId, n: Note) returns (run: seq<Event>)
    ensures rid in Reached(run).runs && Reached(run).runs[rid].status == Collected
    ensures JobAt(Reached(run), Filter(rid), Pending)
  {
    var collected := Collects(rid, n);
    QueueFilterQueues(Reached(collected), rid, n.revision);
    var queued := Extend(collected, QueueFilterEvent(rid, [n.revision], 0.0));
    run := Extend(queued, FinishCollectionEvent(rid, true));
  }

  function Extend(run: seq<Event>, e: Event): (longer: seq<Event>)
    ensures Reached(longer) == Next(Reached(run), e)
  {
    assert (run + [e])[..|run|] == run;
    run + [e]
  }
}
