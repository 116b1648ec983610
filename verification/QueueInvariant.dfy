/** The inductive invariant of the store, and what no transaction ever takes back. */
module QueueInvariant {
  import opened Sequences
  import opened Tables
  import opened Transactions

  // ---- The invariant --------------------------------------------------------------------

  predicate StatusFits(job: Job) {
    match job.kind
    case Summary | ManualMessage => job.status != Completed
    case ClassifyRecommendations | ClassifyNotes | ClassifyProfiles => Rank(job.status) <= 1
    case SingleNote | DailyDigest =>
      (job.status == Completed ==> !job.payload.deliver) && (Rank(job.status) >= 2 ==> job.payload.deliver)
  }

  predicate Classifies(kind: Kind) { kind in {ClassifyRecommendations, ClassifyNotes, ClassifyProfiles} }

  /** What a row of the jobs table satisfies by itself. */
  predicate JobShape(id: JobId, job: Job, nextToken: nat) {
    && job.kind == KindOf(id) && job.run == RunOf(id)
    && (job.result.Some? <==> Rank(job.status) >= 1)
    && (job.result.Some? && !Classifies(job.kind) ==> job.result.value.Text? && job.result.value.summary.Some?)
    && StatusFits(job)
    && (job.lease.Some? ==> job.lease.value < nextToken)
    && (job.status == Processing ==> job.lease.Some? && job.leaseUntil.Some? && job.attempts >= 1)
    && (id.Single? ==> |job.payload.notes| == 1 && job.payload.notes[0].revision == id.revision)
  }

  predicate ShapeAt(db: Db, id: JobId)
    requires id in db.jobs
  {
    JobShape(id, db.jobs[id], db.nextToken)
  }

  predicate JobAt(db: Db, id: JobId, status: Status) { id in db.jobs && db.jobs[id].status == status }

  ghost predicate BatchOk(db: Db, id: JobId, revisions: seq<Revision>)
    requires id in db.jobs
  {
    && revisions != [] && Distinct(revisions)
    && (forall r | r in revisions :: r in db.notes && db.notes[r].owner == Some(OwnedBy(id)))
    && db.jobs[id].payload.notes == Bodies(db.notes, revisions)
  }

  predicate IncludedIn(db: Db, run: RunId, n: Note) {
    (run, n.revision) in db.screenings && db.screenings[(run, n.revision)] == Include
  }

  predicate IncludedTopic(db: Db, n: Note) {
    n.revision in db.topics && db.topics[n.revision] == Include
  }

  predicate Collectable(db: Db, run: RunId, r: Revision) { (run, r) in db.items && r in db.notes }

  /** What a job says about the other tables, by the family it belongs to. */
  ghost predicate LinksAt(db: Db, id: JobId)
    requires id in db.jobs
  {
    var payload := db.jobs[id].payload;
    match id
    case Watch(revisions) => BatchOk(db, id, revisions) && forall n | n in payload.notes :: n.Watched()
    case Screen(revisions) =>
      && BatchOk(db, id, revisions) && payload.candidates == revisions
      && forall n | n in payload.notes :: !n.Watched()
    case Filter(run) =>
      run in db.runs && Distinct(payload.candidates) && forall c | c in payload.candidates :: Collectable(db, run, c)
    case RunSummary(run) =>
      JobAt(db, Filter(run), Completed) && forall n | n in payload.notes :: IncludedIn(db, run, n)
    case Screened(parent) =>
      parent.Screen? && JobAt(db, parent, Completed) && forall n | n in payload.notes :: IncludedTopic(db, n)
    case Command(_) | Dashboard(_) => payload.notes == []
    case _ => true
  }

  predicate NoteAt(db: Db, r: Revision)
    requires r in db.notes
  {
    && db.notes[r].body.revision == r
    && match db.notes[r].owner
       case Some(OwnedBy(id)) => id in db.jobs && (id.Watch? || id.Screen? ==> r in id.revisions)
       case _ => true
  }

  predicate OpenJob(db: Db, id: JobId) { id in db.jobs && Rank(db.jobs[id].status) == 0 }

  /** A run's status agrees with the jobs it waits for. */
  predicate RunAt(db: Db, run: RunId)
    requires run in db.runs
  {
    match db.runs[run].status
    case FilterQueued => JobAt(db, Filter(run), Pending) || JobAt(db, Filter(run), Processing)
    case SummaryQueued => OpenJob(db, RunSummary(run))
    case SummaryReady => JobAt(db, RunSummary(run), Ready)
    case RunSent => JobAt(db, RunSummary(run), Sent)
    case _ => true
  }

  predicate ScreeningAt(db: Db, k: (RunId, Revision)) {
    JobAt(db, Filter(k.0), Completed) && k.1 in db.jobs[Filter(k.0)].payload.candidates
  }

  predicate TopicAt(db: Db, r: Revision) {
    && r in db.notes && db.notes[r].owner.Some? && db.notes[r].owner.value.OwnedBy?
    && db.notes[r].owner.value.job.Screen? && JobAt(db, db.notes[r].owner.value.job, Completed)
  }

  predicate SameLease(db: Db, a: JobId, b: JobId) {
    a in db.jobs && b in db.jobs && db.jobs[a].lease.Some? && db.jobs[a].lease == db.jobs[b].lease
  }

  ghost predicate Shapes(db: Db) { forall id {:trigger ShapeAt(db, id)} | id in db.jobs :: ShapeAt(db, id) }
  ghost predicate Links(db: Db) { forall id {:trigger LinksAt(db, id)} | id in db.jobs :: LinksAt(db, id) }
  ghost predicate NotesOk(db: Db) { forall r {:trigger NoteAt(db, r)} | r in db.notes :: NoteAt(db, r) }
  ghost predicate RunsOk(db: Db) { forall run {:trigger RunAt(db, run)} | run in db.runs :: RunAt(db, run) }
  ghost predicate Verdicts(db: Db) {
    && (forall k {:trigger ScreeningAt(db, k)} | k in db.screenings :: ScreeningAt(db, k))
    && (forall r {:trigger TopicAt(db, r)} | r in db.topics :: TopicAt(db, r))
  }
  ghost predicate TokensUnique(db: Db) {
    forall a, b {:trigger SameLease(db, a, b)} | SameLease(db, a, b) :: a == b
  }

  ghost predicate Inv(db: Db) {
    Shapes(db) && Links(db) && NotesOk(db) && RunsOk(db) && Verdicts(db) && TokensUnique(db)
  }

  // ---- What is never taken back ---------------------------------------------------------

  predicate JobEvolves(before: Job, after: Job, nextToken: nat) {
    && before.kind == after.kind && before.run == after.run && before.created == after.created
    && Rank(before.status) <= Rank(after.status)
    && (before.result.Some? ==> after.result == before.result && after.lease == before.lease)
    && (before.kind != SingleNote ==> after.payload == before.payload)
    && (before.payload.deliver ==> after.payload.deliver)
    && (after.lease == before.lease || after.lease.None? || after.lease.value >= nextToken)
  }

  predicate JobGrows(a: Db, b: Db, id: JobId) {
    if id in a.jobs then id in b.jobs && JobEvolves(a.jobs[id], b.jobs[id], a.nextToken)
    else id in b.jobs && b.jobs[id].lease.Some? ==> b.jobs[id].lease.value >= a.nextToken
  }

  predicate NoteGrows(a: Db, b: Db, r: Revision) {
    r in a.notes ==> r in b.notes && b.notes[r].body == a.notes[r].body
                     && (a.notes[r].owner.Some? ==> b.notes[r].owner == a.notes[r].owner)
  }

  predicate ScreeningStays(a: Db, b: Db, k: (RunId, Revision)) {
    k in a.screenings ==> k in b.screenings && b.screenings[k] == a.screenings[k]
  }

  predicate TopicStays(a: Db, b: Db, r: Revision) {
    r in a.topics ==> r in b.topics && b.topics[r] == a.topics[r]
  }

  ghost predicate Evolves(a: Db, b: Db) {
    && a.nextToken <= b.nextToken
    && (forall id {:trigger JobGrows(a, b, id)} :: JobGrows(a, b, id))
    && (forall r {:trigger NoteGrows(a, b, r)} :: NoteGrows(a, b, r))
    && a.runs.Keys <= b.runs.Keys
    && a.items.Keys <= b.items.Keys
    && (forall k {:trigger ScreeningStays(a, b, k)} :: ScreeningStays(a, b, k))
    && (forall r {:trigger TopicStays(a, b, r)} :: TopicStays(a, b, r))
    && a.parts <= b.parts
  }

  lemma EvolvesTransitive(a: Db, b: Db, c: Db)
    requires Evolves(a, b) && Evolves(b, c)
    ensures Evolves(a, c)
  {
    forall id ensures JobGrows(a, c, id) { assert JobGrows(a, b, id) && JobGrows(b, c, id); }
    forall r ensures NoteGrows(a, c, r) { assert NoteGrows(a, b, r) && NoteGrows(b, c, r); }
    forall k ensures ScreeningStays(a, c, k) {
      assert ScreeningStays(a, b, k) && ScreeningStays(b, c, k);
    }
    forall r ensures TopicStays(a, c, r) {
      assert TopicStays(a, b, r) && TopicStays(b, c, r);
    }
  }

  lemma EvolvesReflexive(db: Db)
    ensures Evolves(db, db)
  {}

  ghost predicate Keeps(a: Db, b: Db) { Inv(b) && Evolves(a, b) }

  // ---- What monotone growth preserves ---------------------------------------------------

  lemma ClosedStays(a: Db, b: Db, id: JobId)
    requires Shapes(b) && Evolves(a, b) && JobAt(a, id, Completed)
    requires KindOf(id) in {ClassifyRecommendations, ClassifyNotes} && a.jobs[id].kind == KindOf(id)
    ensures JobAt(b, id, Completed) && b.jobs[id].payload == a.jobs[id].payload
  {
    assert JobGrows(a, b, id);
    assert ShapeAt(b, id);
  }

  lemma BatchStays(a: Db, b: Db, id: JobId, revisions: seq<Revision>)
    requires Evolves(a, b) && id in a.jobs && a.jobs[id].kind != SingleNote
    requires BatchOk(a, id, revisions)
    ensures JobGrows(a, b, id) && id in b.jobs && BatchOk(b, id, revisions)
  {
    assert JobGrows(a, b, id);
    forall r | r in revisions ensures r in b.notes && b.notes[r].owner == Some(OwnedBy(id))
                                      && b.notes[r].body == a.notes[r].body
    {
      assert NoteGrows(a, b, r);
    }
    assert Bodies(a.notes, revisions) == Bodies(b.notes, revisions);
  }

  lemma LinksStay(a: Db, b: Db, id: JobId)
    requires Inv(a) && Shapes(b) && Evolves(a, b) && id in a.jobs
    ensures id in b.jobs && LinksAt(b, id)
  {
    assert JobGrows(a, b, id) && ShapeAt(a, id) && LinksAt(a, id);
    match id
    case Watch(revisions) => BatchStays(a, b, id, revisions);
    case Screen(revisions) => BatchStays(a, b, id, revisions);
    case Filter(run) =>
      forall c | c in a.jobs[id].payload.candidates ensures Collectable(b, run, c) {
        assert Collectable(a, run, c) && NoteGrows(a, b, c);
      }
    case RunSummary(run) =>
      assert ShapeAt(a, Filter(run));
      ClosedStays(a, b, Filter(run));
      forall n | n in a.jobs[id].payload.notes ensures IncludedIn(b, run, n) {
        assert IncludedIn(a, run, n) && ScreeningStays(a, b, (run, n.revision));
      }
    case Screened(parent) =>
      assert ShapeAt(a, parent);
      ClosedStays(a, b, parent);
      forall n | n in a.jobs[id].payload.notes ensures IncludedTopic(b, n) {
        assert IncludedTopic(a, n) && TopicStays(a, b, n.revision);
      }
    case _ =>
  }

  /** Rows that are new or change their owner. */
  ghost predicate NewRowsOk(a: Db, b: Db) {
    && (forall id {:trigger LinksAt(b, id)} | id in b.jobs && id !in a.jobs :: LinksAt(b, id))
    && (forall r {:trigger NoteAt(b, r)} |
          r in b.notes && (r !in a.notes || b.notes[r].owner != a.notes[r].owner) :: NoteAt(b, r))
    && (forall k {:trigger ScreeningAt(b, k)} | k in b.screenings && k !in a.screenings :: ScreeningAt(b, k))
    && (forall r {:trigger TopicAt(b, r)} | r in b.topics && r !in a.topics :: TopicAt(b, r))
  }

  /** Growth keeps the invariant once the changed rows, the run states and the tokens are seen to. */
  lemma GrowthKeeps(a: Db, b: Db)
    requires Inv(a) && Evolves(a, b)
    requires Shapes(b) && RunsOk(b) && TokensUnique(b) && NewRowsOk(a, b)
    ensures Keeps(a, b)
  {
    forall id | id in b.jobs ensures LinksAt(b, id) {
      if id in a.jobs { LinksStay(a, b, id); }
    }
    forall r | r in b.notes ensures NoteAt(b, r) {
      if r in a.notes && b.notes[r].owner == a.notes[r].owner {
        assert NoteAt(a, r) && NoteGrows(a, b, r);
        if a.notes[r].owner.Some? && a.notes[r].owner.value.OwnedBy? {
          assert JobGrows(a, b, a.notes[r].owner.value.job);
        }
      }
    }
    forall k | k in b.screenings ensures ScreeningAt(b, k) {
      if k in a.screenings {
        assert ScreeningAt(a, k) && ShapeAt(a, Filter(k.0));
        ClosedStays(a, b, Filter(k.0));
      }
    }
    forall r | r in b.topics ensures TopicAt(b, r) {
      if r in a.topics {
        assert TopicAt(a, r) && NoteGrows(a, b, r) && ShapeAt(a, a.notes[r].owner.value.job);
        ClosedStays(a, b, a.notes[r].owner.value.job);
      }
    }
  }

  // ---- Preservation, transaction by transaction -----------------------------------------

  /** The database after one job row changed, with what changed beside it. */
  function WithJob(db: Db, id: JobId, job: Job, nextToken: nat, runs: map<RunId, RunRow>,
                   items: map<(RunId, Revision), ItemRow>): Db
  {
    db.(jobs := db.jobs[id := job], nextToken := nextToken, runs := runs, items := items)
  }

  /** One job row changes to a legal successor; nothing else is asked about the other tables. */
  lemma JobsWithOneChange(a: Db, b: Db, id: JobId)
    requires Inv(a) && id in a.jobs && id in b.jobs && b.jobs == a.jobs[id := b.jobs[id]]
    requires a.nextToken <= b.nextToken
    requires JobShape(id, b.jobs[id], b.nextToken) && JobEvolves(a.jobs[id], b.jobs[id], a.nextToken)
    ensures Shapes(b) && TokensUnique(b)
    ensures forall other {:trigger JobGrows(a, b, other)} :: JobGrows(a, b, other)
  {
    forall other | other in b.jobs ensures ShapeAt(b, other) {
      if other != id { assert ShapeAt(a, other); }
    }
    forall x, y | SameLease(b, x, y) ensures x == y {
      assert ShapeAt(a, x) && ShapeAt(a, y);
      assert SameLease(a, x, y) ==> x == y;
    }
  }

  lemma JobChangeKeeps(db: Db, id: JobId, job: Job, nextToken: nat, runs: map<RunId, RunRow>,
                       items: map<(RunId, Revision), ItemRow>)
    requires Inv(db) && id in db.jobs && db.nextToken <= nextToken
    requires JobShape(id, job, nextToken) && JobEvolves(db.jobs[id], job, db.nextToken)
    requires runs.Keys == db.runs.Keys && items.Keys == db.items.Keys
    requires RunsOk(WithJob(db, id, job, nextToken, runs, items))
    ensures Keeps(db, WithJob(db, id, job, nextToken, runs, items))
  {
    JobsWithOneChange(db, WithJob(db, id, job, nextToken, runs, items), id);
    GrowthKeeps(db, WithJob(db, id, job, nextToken, runs, items));
  }

  /** Changes that leave the jobs alone keep what is only about jobs. */
  lemma SameJobs(a: Db, b: Db)
    requires Inv(a) && b.jobs == a.jobs && b.nextToken == a.nextToken
    ensures Shapes(b) && TokensUnique(b)
    ensures forall id {:trigger JobGrows(a, b, id)} :: JobGrows(a, b, id)
  {
    forall id | id in b.jobs ensures ShapeAt(b, id) { assert ShapeAt(a, id); }
    forall x, y | SameLease(b, x, y) ensures x == y { assert SameLease(a, x, y); }
  }

  lemma SameRuns(a: Db, b: Db)
    requires Inv(a) && b.jobs == a.jobs && b.runs == a.runs
    ensures RunsOk(b)
  {
    forall run | run in b.runs ensures RunAt(b, run) { assert RunAt(a, run); }
  }

  lemma AddNoteKeeps(db: Db, note: Note, now: real)
    requires Inv(db)
    ensures Keeps(db, AddNote(db, note, now))
  {
    var b := AddNote(db, note, now);
    if b == db {
      EvolvesReflexive(db);
    } else {
      SameJobs(db, b);
      SameRuns(db, b);
      GrowthKeeps(db, b);
    }
  }

  lemma ClaimKeeps(db: Db, lane: Lane, now: real, id: JobId)
    requires Inv(db)
    ensures Keeps(db, Claim(db, lane, now, id))
  {
    var b := Claim(db, lane, now, id);
    if b == db {
      EvolvesReflexive(db);
    } else {
      assert ShapeAt(db, id);
      forall run | run in b.runs ensures RunAt(b, run) { assert RunAt(db, run); }
      JobChangeKeeps(db, id, b.jobs[id], b.nextToken, b.runs, b.items);
    }
  }

  lemma HeartbeatKeeps(db: Db, id: JobId, token: nat, now: real)
    requires Inv(db)
    ensures Keeps(db, Heartbeat(db, id, token, now))
  {
    var b := Heartbeat(db, id, token, now);
    if b == db {
      EvolvesReflexive(db);
    } else {
      assert ShapeAt(db, id);
      forall run | run in b.runs ensures RunAt(b, run) { assert RunAt(db, run); }
      JobChangeKeeps(db, id, b.jobs[id], b.nextToken, b.runs, b.items);
    }
  }

  /** A failed attempt moves the run along only when the filter's budget is spent. */
  lemma FailRuns(db: Db, b: Db, id: JobId, terminal: bool)
    requires Inv(db) && JobAt(db, id, Processing) && id in b.jobs && b.jobs == db.jobs[id := b.jobs[id]]
    requires b.jobs[id].status == if terminal then Failed else Pending
    requires b.runs == if terminal && id.Filter? then SetRun(db.runs, id.run, {FilterQueued}, FilterFailed) else db.runs
    ensures RunsOk(b) && b.runs.Keys == db.runs.Keys
  {
    forall run | run in b.runs ensures RunAt(b, run) { assert RunAt(db, run); }
  }

  lemma FailKeeps(db: Db, id: JobId, token: nat, now: real)
    requires Inv(db)
    ensures Keeps(db, Fail(db, id, token, now))
  {
    if !FailAccepted(db, id, token) {
      EvolvesReflexive(db);
    } else {
      var b := Fail(db, id, token, now);
      assert ShapeAt(db, id);
      FailRuns(db, b, id, db.jobs[id].attempts >= MAX_ATTEMPTS);
      JobChangeKeeps(db, id, b.jobs[id], b.nextToken, b.runs, b.items);
    }
  }

  lemma CompleteSummaryKeeps(db: Db, id: JobId, token: nat, r: Result, now: real)
    requires Inv(db)
    requires id in db.jobs ==> !Classifies(db.jobs[id].kind)
    ensures Keeps(db, CompleteSummary(db, id, token, r, now).0)
  {
    var b := CompleteSummary(db, id, token, r, now).0;
    if b == db {
      EvolvesReflexive(db);
    } else {
      assert ShapeAt(db, id);
      forall run | run in b.runs ensures RunAt(b, run) { assert RunAt(db, run); }
      JobChangeKeeps(db, id, b.jobs[id], b.nextToken, b.runs, b.items);
    }
  }

  lemma DeliveredKeeps(db: Db, id: JobId)
    requires Inv(db)
    ensures Keeps(db, Delivered(db, id))
  {
    var b := Delivered(db, id);
    if b == db {
      EvolvesReflexive(db);
    } else {
      assert ShapeAt(db, id);
      forall run | run in b.runs ensures RunAt(b, run) { assert RunAt(db, run); }
      JobChangeKeeps(db, id, b.jobs[id], b.nextToken, b.runs, b.items);
    }
  }

  lemma RetryFilterKeeps(db: Db, run: RunId)
    requires Inv(db)
    ensures Keeps(db, RetryFilter(db, run))
  {
    var b := RetryFilter(db, run);
    if b == db {
      EvolvesReflexive(db);
    } else {
      var id := Filter(run);
      assert ShapeAt(db, id);
      forall other | other in b.runs ensures RunAt(b, other) { assert RunAt(db, other); }
      JobChangeKeeps(db, id, b.jobs[id], b.nextToken, b.runs, b.items);
    }
  }

  lemma RetryJobKeeps(db: Db, id: JobId)
    requires Inv(db)
    ensures Keeps(db, RetryJob(db, id))
  {
    var b := RetryJob(db, id);
    if b == db {
      EvolvesReflexive(db);
    } else {
      assert ShapeAt(db, id);
      forall run | run in b.runs ensures RunAt(b, run) { assert RunAt(db, run); }
      JobChangeKeeps(db, id, b.jobs[id], b.nextToken, b.runs, b.items);
    }
  }

  lemma CreateRunKeeps(db: Db, run: RunId)
    requires Inv(db)
    ensures Keeps(db, CreateRun(db, run))
  {
    var b := CreateRun(db, run);
    if b == db {
      EvolvesReflexive(db);
    } else {
      SameJobs(db, b);
      forall other | other in b.runs ensures RunAt(b, other) {
        if other in db.runs { assert RunAt(db, other); }
      }
      GrowthKeeps(db, b);
    }
  }

  lemma FinishCollectionKeeps(db: Db, run: RunId, ok: bool)
    requires Inv(db)
    ensures Keeps(db, FinishCollection(db, run, ok))
  {
    var b := FinishCollection(db, run, ok);
    if b == db {
      EvolvesReflexive(db);
    } else {
      SameJobs(db, b);
      forall other | other in b.runs ensures RunAt(b, other) { assert RunAt(db, other); }
      GrowthKeeps(db, b);
    }
  }

  lemma AddItemKeeps(db: Db, run: RunId, r: Revision, rank: int)
    requires Inv(db)
    ensures Keeps(db, AddItem(db, run, r, rank))
  {
    var b := AddItem(db, run, r, rank);
    SameJobs(db, b);
    SameRuns(db, b);
    if r in db.notes { assert NoteAt(db, r); }
    GrowthKeeps(db, b);
  }

  lemma RecordPartKeeps(db: Db, id: JobId, part: nat)
    requires Inv(db)
    ensures Keeps(db, RecordPart(db, id, part))
  {
    var b := RecordPart(db, id, part);
    SameJobs(db, b);
    SameRuns(db, b);
    GrowthKeeps(db, b);
  }

  /** In every state that satisfies the invariant the start-up backfill changes nothing. */
  lemma ReconcileIsIdentity(db: Db)
    requires Inv(db)
    ensures Reconcile(db) == db
  {
    forall run | run in db.runs ensures Reconciled(db.jobs, run, db.runs[run]) == db.runs[run] {
      assert RunAt(db, run);
      forall id | id in db.jobs && db.jobs[id].kind == Summary && db.jobs[id].run == Some(run)
        ensures id == RunSummary(run)
      {
        assert ShapeAt(db, id);
      }
    }
    assert Reconcile(db).runs == db.runs;
  }

  /** A job row that was not there before, never leased. */
  lemma InsertedJob(a: Db, b: Db, id: JobId, job: Job)
    requires Inv(a) && id !in a.jobs && b.jobs == a.jobs[id := job] && b.nextToken == a.nextToken
    requires JobShape(id, job, a.nextToken) && job.lease.None?
    ensures Shapes(b) && TokensUnique(b)
    ensures forall other {:trigger JobGrows(a, b, other)} :: JobGrows(a, b, other)
    ensures b.runs == a.runs ==> RunsOk(b)
  {
    forall other | other in b.jobs ensures ShapeAt(b, other) {
      if other != id { assert ShapeAt(a, other); }
    }
    forall x, y | SameLease(b, x, y) ensures x == y { assert SameLease(a, x, y); }
    if b.runs == a.runs {
      forall run | run in b.runs ensures RunAt(b, run) { assert RunAt(a, run); }
    }
  }

  lemma InsertKeeps(db: Db, id: JobId, job: Job)
    requires Inv(db) && JobShape(id, job, db.nextToken) && job.lease.None?
    requires id.ProfileFilter? || id.DigestOf? || ((id.Command? || id.Dashboard?) && job.payload.notes == [])
    ensures Keeps(db, InsertOrIgnore(db, id, job))
  {
    if id in db.jobs {
      EvolvesReflexive(db);
    } else {
      var b := InsertOrIgnore(db, id, job);
      InsertedJob(db, b, id, job);
      GrowthKeeps(db, b);
    }
  }

  lemma PendingBatchOk(db: Db, rows: seq<Revision>, limit: nat, now: real)
    requires Inv(db) && EnqueuePending(db, rows, limit, now) != db
    ensures var id := PendingBatch(db.notes, rows);
            var b := EnqueuePending(db, rows, limit, now);
            && id !in db.jobs && id in b.jobs && LinksAt(b, id)
            && (forall r {:trigger NoteGrows(db, b, r)} :: NoteGrows(db, b, r))
            && (forall r {:trigger NoteAt(b, r)} | r in b.notes && b.notes[r].owner != db.notes[r].owner :: NoteAt(b, r))
  {
    var b := EnqueuePending(db, rows, limit, now);
    var id := PendingBatch(db.notes, rows);
    KeepInDistinct(rows, WatchedNotes(db.notes));
    forall i | 0 <= i < |id.revisions|
      ensures Bodies(db.notes, id.revisions)[i] == Bodies(b.notes, id.revisions)[i]
      ensures Bodies(db.notes, id.revisions)[i].Watched() == id.Watch?
    {}
    assert BatchOk(b, id, id.revisions);
    forall r | r in b.notes && b.notes[r].owner != db.notes[r].owner ensures NoteAt(b, r) {
      assert NoteAt(db, r);
    }
  }

  lemma EnqueuePendingKeeps(db: Db, rows: seq<Revision>, limit: nat, now: real)
    requires Inv(db)
    ensures Keeps(db, EnqueuePending(db, rows, limit, now))
  {
    var b := EnqueuePending(db, rows, limit, now);
    if b == db {
      EvolvesReflexive(db);
    } else {
      var id := PendingBatch(db.notes, rows);
      PendingBatchOk(db, rows, limit, now);
      InsertedJob(db, b, id, b.jobs[id]);
      GrowthKeeps(db, b);
    }
  }

  lemma ReuseKeepsShape(db: Db, note: Note, deliver: bool, live: bool)
    requires Single(note.revision) in db.jobs && ShapeAt(db, Single(note.revision))
    ensures JobShape(Single(note.revision), Reuse(db.jobs[Single(note.revision)], note, deliver, live), db.nextToken)
    ensures JobEvolves(db.jobs[Single(note.revision)], Reuse(db.jobs[Single(note.revision)], note, deliver, live),
                       db.nextToken)
  {}

  lemma ClaimNoteGrows(a: Db, b: Db, note: Note, owner: Owner, now: real)
    requires b.notes == ClaimNote(a.notes, note, owner, now)
    ensures forall r {:trigger NoteGrows(a, b, r)} :: NoteGrows(a, b, r)
  {}

  lemma EnqueueSingleKeeps(db: Db, note: Note, deliver: bool, live: bool, now: real)
    requires Inv(db)
    ensures Keeps(db, EnqueueSingle(db, note, deliver, live, now))
  {
    var b := EnqueueSingle(db, note, deliver, live, now);
    var id := Single(note.revision);
    ClaimNoteGrows(db, b, note, OwnedBy(id), now);
    if id in db.jobs {
      assert ShapeAt(db, id);
      ReuseKeepsShape(db, note, deliver, live);
      JobsWithOneChange(db, b, id);
      forall run | run in b.runs ensures RunAt(b, run) { assert RunAt(db, run); }
    } else {
      InsertedJob(db, b, id, b.jobs[id]);
    }
    ClaimedNoteAt(db, b, note, id, now);
    GrowthKeeps(db, b);
  }

  /** A note claimed for a single-note job points at that job. */
  lemma ClaimedNoteAt(a: Db, b: Db, note: Note, id: JobId, now: real)
    requires NotesOk(a) && id.Single? && id in b.jobs && b.notes == ClaimNote(a.notes, note, OwnedBy(id), now)
    ensures forall r | r in b.notes && (r !in a.notes || b.notes[r].owner != a.notes[r].owner) :: NoteAt(b, r)
  {
    forall r | r in b.notes && (r !in a.notes || b.notes[r].owner != a.notes[r].owner) ensures NoteAt(b, r) {
      if r in a.notes { assert NoteAt(a, r); }
    }
  }

  lemma QueueFilterKeeps(db: Db, run: RunId, rows: seq<Revision>, now: real)
    requires Inv(db)
    ensures Keeps(db, QueueFilter(db, run, rows, now))
  {
    var b := QueueFilter(db, run, rows, now);
    if b == db {
      EvolvesReflexive(db);
    } else {
      InsertedJob(db, b, Filter(run), b.jobs[Filter(run)]);
      forall other | other in b.runs ensures RunAt(b, other) { assert RunAt(db, other); }
      forall c | c in rows ensures Collectable(b, run, c) {}
      GrowthKeeps(db, b);
    }
  }

  // ---- Screening answers ----------------------------------------------------------------

  /** As many entries as distinct ids leaves no room for a malformed or repeated entry. */
  lemma {:induction false} NamedBound<Id>(items: seq<Decision<Id>>, fallback: bool)
    ensures |NamedIds(items, fallback)| <= |items|
    ensures |NamedIds(items, fallback)| == |items| ==>
              && (forall i | 0 <= i < |items| :: items[i].Decision?)
              && (forall i, j | 0 <= i < j < |items| && items[i].Decision? && items[j].Decision? ::
                    IdOf(items[i], fallback) != IdOf(items[j], fallback))
  {
    if items != [] {
      var front, last := items[..|items| - 1], items[|items| - 1];
      NamedBound(front, fallback);
      assert items == front + [last];
      var names := NamedIds(front, fallback);
      if last.Decision? {
        assert NamedIds(items, fallback) == names + {IdOf(last, fallback)};
        if IdOf(last, fallback) in names { assert NamedIds(items, fallback) == names; }
      } else {
        assert NamedIds(items, fallback) == names;
      }
    }
  }

  lemma SomesSize<Id>(allowed: seq<Id>)
    ensures |(set a | a in allowed :: Some(a))| == |Elements(allowed)|
  {
    SomesSizeOf(Elements(allowed));
    assert (set a | a in allowed :: Some(a)) == (set a | a in Elements(allowed) :: Some(a));
  }

  lemma {:induction false} SomesSizeOf<Id>(s: set<Id>)
    ensures |(set a | a in s :: Some(a))| == |s|
  {
    if a :| a in s {
      SomesSizeOf(s - {a});
      assert (set b | b in s :: Some(b)) == (set b | b in s - {a} :: Some(b)) + {Some(a)};
    }
  }

  /** The store's test makes the decisions a bijection onto the candidates. */
  lemma CoverageIsBijection<Id>(items: seq<Decision<Id>>, fallback: bool, allowed: seq<Id>)
    requires Covers(items, fallback, allowed)
    ensures forall i | 0 <= i < |items| :: items[i].Decision? && IdOf(items[i], fallback).Some?
                                           && IdOf(items[i], fallback).value in allowed
    ensures forall i, j | 0 <= i < j < |items| :: IdOf(items[i], fallback) != IdOf(items[j], fallback)
    ensures forall a | a in allowed :: exists i :: 0 <= i < |items| && IdOf(items[i], fallback) == Some(a)
  {
    SomesSize(allowed);
    NamedBound(items, fallback);
    forall i | 0 <= i < |items|
      ensures items[i].Decision? && IdOf(items[i], fallback).Some? && IdOf(items[i], fallback).value in allowed
    {
      assert IdOf(items[i], fallback) in NamedIds(items, fallback);
    }
    forall a | a in allowed ensures exists i :: 0 <= i < |items| && IdOf(items[i], fallback) == Some(a) {
      assert Some(a) in NamedIds(items, fallback);
    }
  }

  // ---- Completed screenings -------------------------------------------------------------

  /** A screening job closes and at most one fresh summary job appears. */
  lemma ClosedWithSummary(a: Db, b: Db, id: JobId, r: Result, sid: JobId, notes: seq<Note>, now: real)
    requires Inv(a) && id in a.jobs && a.jobs[id].status == Processing && Classifies(a.jobs[id].kind)
    requires sid !in a.jobs && KindOf(sid) == Summary && !sid.Command?
    requires b.jobs == WithSummary(a.jobs, sid, notes, now)[id := Closed(a.jobs[id], r)] && b.nextToken == a.nextToken
    ensures Shapes(b) && TokensUnique(b)
    ensures forall other {:trigger JobGrows(a, b, other)} :: JobGrows(a, b, other)
  {
    forall other | other in b.jobs ensures ShapeAt(b, other) {
      if other in a.jobs { assert ShapeAt(a, other); }
    }
    forall x, y | SameLease(b, x, y) ensures x == y { assert SameLease(a, x, y); }
    assert ShapeAt(a, id);
  }

  /** The summary of a screening in progress does not exist yet. */
  lemma FreshSummary(db: Db, id: JobId, sid: JobId)
    requires Inv(db) && JobAt(db, id, Processing)
    requires (id.Filter? && sid == RunSummary(id.run)) || (id.Screen? && sid == Screened(id))
    ensures sid !in db.jobs
  {
    assert sid in db.jobs ==> LinksAt(db, sid);
  }

  lemma {:induction false} SelectedItemsIncluded(db: Db, run: RunId, rulings: seq<Ruling<Revision>>, n: Note)
    returns (i: nat)
    requires n in SelectedItems(db, run, rulings)
    ensures i < |rulings| && rulings[i].verdict == Include && rulings[i].id in db.notes
    ensures n == db.notes[rulings[i].id].body
  {
    var front := SelectedItems(db, run, rulings[..|rulings| - 1]);
    if n in front {
      i := SelectedItemsIncluded(db, run, rulings[..|rulings| - 1], n);
    } else {
      i := |rulings| - 1;
    }
  }

  lemma {:induction false} FoundNote(notes: seq<Note>, r: Revision)
    ensures FindNote(notes, r).Some? ==> FindNote(notes, r).value in notes && FindNote(notes, r).value.revision == r
    ensures FindNote(notes, r).None? <==> forall n | n in notes :: n.revision != r
  {
    if notes != [] {
      assert notes == notes[..|notes| - 1] + [notes[|notes| - 1]];
      FoundNote(notes[..|notes| - 1], r);
    }
  }

  lemma {:induction false} SelectedNotesIncluded(notes: seq<Note>, rulings: seq<Ruling<Revision>>, n: Note)
    returns (i: nat)
    requires n in SelectedNotes(notes, rulings)
    ensures i < |rulings| && rulings[i].verdict == Include && n.revision == rulings[i].id && n in notes
  {
    var front := SelectedNotes(notes, rulings[..|rulings| - 1]);
    FoundNote(notes, rulings[|rulings| - 1].id);
    if n in front {
      i := SelectedNotesIncluded(notes, rulings[..|rulings| - 1], n);
    } else {
      i := |rulings| - 1;
    }
  }

  lemma {:induction false} DecideItemsKeys(items: map<(RunId, Revision), ItemRow>, run: RunId,
                                           rulings: seq<Ruling<Revision>>)
    ensures DecideItems(items, run, rulings).Keys == items.Keys
  {
    if rulings != [] { DecideItemsKeys(items, run, rulings[..|rulings| - 1]); }
  }

  lemma FilterVerdicts(db: Db, b: Db, id: JobId, r: Result)
    requires Inv(db) && JobAt(db, id, Processing) && id.Filter? && r.Decisions?
    requires Answers(r.items, true, db.jobs[id].payload.candidates)
    requires b.screenings == Upserts(db.screenings, Keyed(id.run, Rulings(r.items, true)))
    requires JobAt(b, id, Completed) && b.jobs[id].payload == db.jobs[id].payload
    ensures forall k {:trigger ScreeningStays(db, b, k)} :: ScreeningStays(db, b, k)
    ensures forall k {:trigger ScreeningAt(b, k)} | k in b.screenings && k !in db.screenings :: ScreeningAt(b, k)
    ensures forall i | 0 <= i < |r.items| ::
              var ruling := RulingOf(r.items[i], true);
              (id.run, ruling.id) in b.screenings && b.screenings[(id.run, ruling.id)] == ruling.verdict
  {
    var rulings := Rulings(r.items, true);
    var rows := Keyed(id.run, rulings);
    CoverageIsBijection(r.items, true, db.jobs[id].payload.candidates);
    UpsertsKeys(db.screenings, rows);
    assert DistinctKeys(rows);
    forall k | k in db.screenings ensures forall i | 0 <= i < |rows| :: rows[i].0 != k {
      assert ScreeningAt(db, k);
    }
    forall k | k in b.screenings && k !in db.screenings ensures ScreeningAt(b, k) {
      var i :| 0 <= i < |rows| && rows[i].0 == k;
      assert rulings[i] == RulingOf(r.items[i], true);
    }
    forall i | 0 <= i < |r.items|
      ensures var ruling := RulingOf(r.items[i], true);
              (id.run, ruling.id) in b.screenings && b.screenings[(id.run, ruling.id)] == ruling.verdict
    {
      UpsertsValue(db.screenings, rows, i);
    }
  }

  lemma ChosenAreIncluded(db: Db, b: Db, run: RunId, items: seq<Decision<Revision>>)
    requires Inv(db) && forall i | 0 <= i < |items| :: Acceptable(items[i], true)
    requires forall i | 0 <= i < |items| ::
               var ruling := RulingOf(items[i], true);
               (run, ruling.id) in b.screenings && b.screenings[(run, ruling.id)] == ruling.verdict
    ensures forall n | n in SelectedItems(db, run, Rulings(items, true)) :: IncludedIn(b, run, n)
  {
    var rulings := Rulings(items, true);
    forall n | n in SelectedItems(db, run, rulings) ensures IncludedIn(b, run, n) {
      var i := SelectedItemsIncluded(db, run, rulings, n);
      assert rulings[i] == RulingOf(items[i], true);
      assert NoteAt(db, rulings[i].id);
    }
  }

  lemma CompleteFilterKeeps(db: Db, id: JobId, token: nat, r: Result, now: real)
    requires Inv(db)
    ensures Keeps(db, CompleteFilter(db, id, token, r, now).0)
  {
    var b := CompleteFilter(db, id, token, r, now).0;
    if b == db {
      EvolvesReflexive(db);
    } else {
      assert ShapeAt(db, id);
      var run, rulings := id.run, Rulings(r.items, true);
      var sid := RunSummary(run);
      var chosen := SelectedItems(db, run, rulings);
      FreshSummary(db, id, sid);
      ClosedWithSummary(db, b, id, r, sid, chosen, now);
      FilterVerdicts(db, b, id, r);
      DecideItemsKeys(db.items, run, rulings);
      ChosenAreIncluded(db, b, run, r.items);
      if sid in b.jobs { assert LinksAt(b, sid); }
      forall other | other in b.runs ensures RunAt(b, other) {
        if other != run { assert RunAt(db, other); }
      }
      GrowthKeeps(db, b);
    }
  }

  lemma TopicVerdicts(db: Db, b: Db, id: JobId, r: Result)
    requires Inv(db) && JobAt(db, id, Processing) && id.Screen? && r.Decisions?
    requires Answers(r.items, false, db.jobs[id].payload.candidates)
    requires b.topics == Upserts(db.topics, TopicRows(Rulings(r.items, false))) && b.notes == db.notes
    requires JobAt(b, id, Completed)
    ensures forall k {:trigger TopicStays(db, b, k)} :: TopicStays(db, b, k)
    ensures forall k {:trigger TopicAt(b, k)} | k in b.topics && k !in db.topics :: TopicAt(b, k)
    ensures forall i | 0 <= i < |r.items| ::
              var ruling := RulingOf(r.items[i], false);
              ruling.id in b.topics && b.topics[ruling.id] == ruling.verdict
  {
    var rulings := Rulings(r.items, false);
    var rows := TopicRows(rulings);
    assert LinksAt(db, id);
    CoverageIsBijection(r.items, false, db.jobs[id].payload.candidates);
    UpsertsKeys(db.topics, rows);
    assert DistinctKeys(rows);
    forall i | 0 <= i < |rows| ensures rows[i].0 in id.revisions {
      assert rulings[i] == RulingOf(r.items[i], false);
    }
    forall k | k in db.topics ensures forall i | 0 <= i < |rows| :: rows[i].0 != k {
      assert TopicAt(db, k);
    }
    forall k | k in b.topics && k !in db.topics ensures TopicAt(b, k) {
      var i :| 0 <= i < |rows| && rows[i].0 == k;
    }
    forall i | 0 <= i < |r.items|
      ensures var ruling := RulingOf(r.items[i], false);
              ruling.id in b.topics && b.topics[ruling.id] == ruling.verdict
    {
      UpsertsValue(db.topics, rows, i);
    }
  }

  lemma ChosenAreIncludedTopics(notes: seq<Note>, b: Db, items: seq<Decision<Revision>>)
    requires forall i | 0 <= i < |items| :: Acceptable(items[i], false)
    requires forall i | 0 <= i < |items| ::
               var ruling := RulingOf(items[i], false);
               ruling.id in b.topics && b.topics[ruling.id] == ruling.verdict
    ensures forall n | n in SelectedNotes(notes, Rulings(items, false)) :: IncludedTopic(b, n)
  {
    var rulings := Rulings(items, false);
    forall n | n in SelectedNotes(notes, rulings) ensures IncludedTopic(b, n) {
      var i := SelectedNotesIncluded(notes, rulings, n);
      assert rulings[i] == RulingOf(items[i], false);
    }
  }

  lemma CompleteNoteFilterKeeps(db: Db, id: JobId, token: nat, r: Result, now: real)
    requires Inv(db)
    ensures Keeps(db, CompleteNoteFilter(db, id, token, r, now).0)
  {
    var b := CompleteNoteFilter(db, id, token, r, now).0;
    if b == db {
      EvolvesReflexive(db);
    } else {
      assert ShapeAt(db, id);
      var rulings := Rulings(r.items, false);
      var sid := Screened(id);
      var chosen := SelectedNotes(db.jobs[id].payload.notes, rulings);
      FreshSummary(db, id, sid);
      ClosedWithSummary(db, b, id, r, sid, chosen, now);
      TopicVerdicts(db, b, id, r);
      ChosenAreIncludedTopics(db.jobs[id].payload.notes, b, r.items);
      if sid in b.jobs { assert LinksAt(b, sid); }
      forall run | run in b.runs ensures RunAt(b, run) { assert RunAt(db, run); }
      GrowthKeeps(db, b);
    }
  }

  lemma CompleteProfileFilterKeeps(db: Db, id: JobId, token: nat, r: Result, now: real)
    requires Inv(db)
    ensures Keeps(db, CompleteProfileFilter(db, id, token, r, now).0)
  {
    var b := CompleteProfileFilter(db, id, token, r, now).0;
    if b == db {
      EvolvesReflexive(db);
    } else {
      assert ShapeAt(db, id);
      JobsWithOneChange(db, b, id);
      forall run | run in b.runs ensures RunAt(b, run) { assert RunAt(db, run); }
      GrowthKeeps(db, b);
    }
  }

  // ---- Every transaction, every run -----------------------------------------------------

  predicate RunEvent(e: Event) {
    || e.CreateRunEvent? || e.AddItemEvent? || e.FinishCollectionEvent? || e.QueueFilterEvent? || e.RetryFilterEvent?
    || e.ReconcileEvent?
  }

  lemma RunEventKeeps(db: Db, e: Event)
    requires Inv(db) && RunEvent(e)
    ensures Keeps(db, Next(db, e))
  {
    match e
    case CreateRunEvent(run) => CreateRunKeeps(db, run);
    case AddItemEvent(run, revision, rank) => AddItemKeeps(db, run, revision, rank);
    case FinishCollectionEvent(run, ok) => FinishCollectionKeeps(db, run, ok);
    case QueueFilterEvent(run, rows, now) => QueueFilterKeeps(db, run, rows, now);
    case RetryFilterEvent(run) => RetryFilterKeeps(db, run);
    case ReconcileEvent => ReconcileIsIdentity(db); EvolvesReflexive(db);
  }

  /** No transaction breaks the invariant or takes anything back. */
  lemma NextKeeps(db: Db, e: Event)
    requires Inv(db)
    ensures Keeps(db, Next(db, e))
  {
    match e
    case AddNoteEvent(note, now) => AddNoteKeeps(db, note, now);
    case EnqueuePendingEvent(rows, limit, now) => EnqueuePendingKeeps(db, rows, limit, now);
    case EnqueueSingleEvent(note, deliver, live, now) => EnqueueSingleKeeps(db, note, deliver, live, now);
    case ClaimEvent(lane, now, id) => ClaimKeeps(db, lane, now, id);
    case HeartbeatEvent(id, token, now) => HeartbeatKeeps(db, id, token, now);
    case CompleteEvent(id, token, result, now) => CompleteKeeps(db, id, token, result, now);
    case FailEvent(id, token, now) => FailKeeps(db, id, token, now);
    case RecordPartEvent(id, part) => RecordPartKeeps(db, id, part);
    case DeliveredEvent(id) => DeliveredKeeps(db, id);
    case RetryJobEvent(id) => RetryJobKeeps(db, id);
    case QueueProfilesEvent(users, now) => QueueProfilesKeeps(db, users, now);
    case QueueDigestEvent(date, notes, deliver, now) => QueueDigestKeeps(db, date, notes, deliver, now);
    case QueueTextEvent(id, text, now) => QueueTextKeeps(db, id, text, now);
    case _ => RunEventKeeps(db, e);
  }

  lemma CompleteKeeps(db: Db, id: JobId, token: nat, r: Result, now: real)
    requires Inv(db)
    ensures Keeps(db, Complete(db, id, token, r, now).0)
  {
    match ReadKind(db, id)
    case Some(ClassifyRecommendations) => CompleteFilterKeeps(db, id, token, r, now);
    case Some(ClassifyProfiles) => CompleteProfileFilterKeeps(db, id, token, r, now);
    case Some(ClassifyNotes) => CompleteNoteFilterKeeps(db, id, token, r, now);
    case _ => CompleteSummaryKeeps(db, id, token, r, now);
  }

  lemma QueueProfilesKeeps(db: Db, users: seq<string>, now: real)
    requires Inv(db)
    ensures Keeps(db, QueueProfiles(db, users, now))
  {
    EvolvesReflexive(db);
    InsertKeeps(db, ProfileFilter(users),
                NewJob(ClassifyProfiles, Payload([], [], users, false, true), now, Some(ProfileSweep(users))));
  }

  lemma QueueDigestKeeps(db: Db, date: string, notes: seq<Note>, deliver: bool, now: real)
    requires Inv(db)
    ensures Keeps(db, QueueDigest(db, date, notes, deliver, now))
  {
    EvolvesReflexive(db);
    InsertKeeps(db, DigestOf(date), NewJob(DailyDigest, Payload(notes, [], [], deliver, true), now, None));
  }

  lemma QueueTextKeeps(db: Db, id: JobId, text: string, now: real)
    requires Inv(db)
    ensures Keeps(db, QueueText(db, id, text, now))
  {
    EvolvesReflexive(db);
    if id.Command? || id.Dashboard? {
      var b := QueueText(db, id, text, now);
      if id !in db.jobs { InsertKeeps(db, id, b.jobs[id]); }
    }
  }

  lemma {:induction false} RunKeeps(db: Db, run: seq<Event>)
    requires Inv(db)
    ensures Keeps(db, After(db, run))
  {
    EvolvesReflexive(db);
    if run != [] {
      var before := After(db, run[..|run| - 1]);
      RunKeeps(db, run[..|run| - 1]);
      NextKeeps(before, run[|run| - 1]);
      EvolvesTransitive(db, before, After(db, run));
    }
  }

  lemma EmptyIsFine()
    ensures Inv(EMPTY)
  {}

  /** A later state of a run grew out of every earlier one. */
  lemma {:induction false} LaterGrows(db: Db, run: seq<Event>, i: nat, j: nat)
    requires Inv(db) && i <= j <= |run|
    ensures Inv(After(db, run[..i])) && Keeps(After(db, run[..i]), After(db, run[..j]))
  {
    RunKeeps(db, run[..i]);
    if i == j {
      EvolvesReflexive(After(db, run[..i]));
    } else {
      LaterGrows(db, run, i, j - 1);
      assert run[..j][..j - 1] == run[..j - 1];
      NextKeeps(After(db, run[..j - 1]), run[j - 1]);
      EvolvesTransitive(After(db, run[..i]), After(db, run[..j - 1]), After(db, run[..j]));
    }
  }
}
