/**
 Each transaction of the store as a function on the database. Answers of SELECT statements whose
 order the database chooses are arguments; an argument the query could not have returned leaves
 the database alone. Clock readings are arguments and need not be monotone.
 */
module Transactions {
  import opened Sequences
  import opened Tables

  datatype Reply = Done | Duplicate | Conflict | Invalid

  const LEASE_SECONDS := 180.0
  const MAX_ATTEMPTS := 5
  const PENDING_LIMIT := 12

  // ---- Rows -----------------------------------------------------------------------------

  function NewJob(kind: Kind, payload: Payload, now: real, run: Option<RunId>): Job {
    Job(Pending, kind, payload, now, 0.0, 0, None, None, None, run)
  }

  function NotesPayload(notes: seq<Note>, candidates: seq<Revision>): Payload {
    Payload(notes, candidates, [], false, true)
  }

  /** Status pending again with a fresh attempt budget; `clearLease` also forgets the last lease. */
  function Requeued(job: Job, clearLease: bool): Job {
    var open := job.(status := Pending, available := 0.0, attempts := 0);
    if clearLease then open.(lease := None, leaseUntil := None) else open
  }

  function SetRun(runs: map<RunId, RunRow>, run: RunId, from: set<RunStatus>, to: RunStatus): map<RunId, RunRow> {
    if run in runs && runs[run].status in from then runs[run := runs[run].(status := to)] else runs
  }

  function SetItems(items: map<(RunId, Revision), ItemRow>, run: RunId, from: set<ItemState>, to: ItemState)
    : map<(RunId, Revision), ItemRow>
  {
    map k | k in items :: if k.0 == run && items[k].state in from then items[k].(state := to) else items[k]
  }

  // ---- Notes ----------------------------------------------------------------------------

  function AddNote(db: Db, note: Note, now: real): Db {
    if note.revision in db.notes then db
    else db.(notes := db.notes[note.revision := NoteRow(note, now, None)])
  }

  predicate Unassigned(notes: map<Revision, NoteRow>, r: Revision) {
    r in notes && notes[r].owner.None?
  }

  /** `rows` answers: unassigned notes, oldest first, at most `limit` of them. */
  predicate OldestUnassigned(notes: map<Revision, NoteRow>, rows: seq<Revision>, limit: nat) {
    && Distinct(rows)
    && |rows| <= limit
    && (forall r | r in rows :: Unassigned(notes, r))
    && (forall i, j | 0 <= i < j < |rows| && rows[i] in notes && rows[j] in notes ::
          notes[rows[i]].firstSeen <= notes[rows[j]].firstSeen)
    && (forall r | r in notes && Unassigned(notes, r) && r !in rows ::
          |rows| == limit && forall q | q in rows && q in notes :: notes[q].firstSeen <= notes[r].firstSeen)
  }

  function WatchedNotes(notes: map<Revision, NoteRow>): set<Revision> {
    set r | r in notes && notes[r].body.Watched()
  }

  function Bodies(notes: map<Revision, NoteRow>, rows: seq<Revision>): (bodies: seq<Note>)
    requires forall r | r in rows :: r in notes
    ensures |bodies| == |rows|
    ensures forall i | 0 <= i < |rows| :: bodies[i] == notes[rows[i]].body
  {
    seq(|rows|, i requires 0 <= i < |rows| => notes[rows[i]].body)
  }

  function Assign(notes: map<Revision, NoteRow>, rows: set<Revision>, owner: Owner): map<Revision, NoteRow> {
    map r | r in notes :: if r in rows then notes[r].(owner := Some(owner)) else notes[r]
  }

  /** The batch that one call takes: the watched notes among `rows` if any, else all of `rows`. */
  function PendingBatch(notes: map<Revision, NoteRow>, rows: seq<Revision>): JobId {
    var watched := KeepIn(rows, WatchedNotes(notes));
    if watched != [] then Watch(watched) else Screen(rows)
  }

  function PendingJob(notes: map<Revision, NoteRow>, id: JobId, now: real): Job
    requires id.Watch? || id.Screen?
    requires forall r | r in id.revisions :: r in notes
  {
    NewJob(KindOf(id),
           NotesPayload(Bodies(notes, id.revisions), if id.Screen? then id.revisions else []), now, None)
  }

  /** A job id already present makes the INSERT fail and the transaction roll back. */
  function EnqueuePending(db: Db, rows: seq<Revision>, limit: nat, now: real): Db {
    if rows == [] || !OldestUnassigned(db.notes, rows, limit) || PendingBatch(db.notes, rows) in db.jobs then db
    else
      var id := PendingBatch(db.notes, rows);
      db.(jobs := db.jobs[id := PendingJob(db.notes, id, now)],
          notes := Assign(db.notes, Elements(id.revisions), OwnedBy(id)))
  }

  function ReusedPayload(current: Payload, note: Note, deliver: bool, live: bool): Payload {
    var flagged := current.(deliver := deliver || current.deliver);
    if live && !current.live then flagged.(live := true, notes := [note]) else flagged
  }

  /** An existing single-note job after another request for the same revision. */
  function Reuse(job: Job, note: Note, deliver: bool, live: bool): Job {
    var next := job.(payload := ReusedPayload(job.payload, note, deliver, live));
    if job.status == Failed then Requeued(next, true)
    else if job.status == Completed && next.payload.deliver then next.(status := Ready)
    else next
  }

  function ClaimNote(notes: map<Revision, NoteRow>, note: Note, owner: Owner, now: real): map<Revision, NoteRow> {
    var r := note.revision;
    if r !in notes then notes[r := NoteRow(note, now, Some(owner))]
    else if notes[r].owner.None? then notes[r := notes[r].(owner := Some(owner))]
    else notes
  }

  function EnqueueSingle(db: Db, note: Note, deliver: bool, live: bool, now: real): Db {
    var id := Single(note.revision);
    var job := if id in db.jobs then Reuse(db.jobs[id], note, deliver, live)
               else NewJob(SingleNote, Payload([note], [], [], deliver, live), now, None);
    db.(jobs := db.jobs[id := job], notes := ClaimNote(db.notes, note, OwnedBy(id), now))
  }

  // ---- Leases ---------------------------------------------------------------------------

  datatype Lane = Unrestricted | Interactive | Batch

  predicate InLane(kind: Kind, lane: Lane) {
    match lane
    case Unrestricted => true
    case Interactive => kind == SingleNote
    case Batch => kind != SingleNote
  }

  predicate Expired(job: Job, now: real) {
    job.leaseUntil.Some? && job.leaseUntil.value < now
  }

  predicate Eligible(job: Job, lane: Lane, now: real) {
    && ((job.status == Pending && job.available <= now) || (job.status == Processing && Expired(job, now)))
    && InLane(job.kind, lane)
  }

  /** ORDER BY: single notes first, then the oldest job. */
  predicate Before(a: Job, b: Job) {
    if (a.kind == SingleNote) != (b.kind == SingleNote) then a.kind == SingleNote else a.created <= b.created
  }

  predicate ClaimAnswer(jobs: map<JobId, Job>, lane: Lane, now: real, id: JobId) {
    && id in jobs
    && Eligible(jobs[id], lane, now)
    && forall other | other in jobs && Eligible(jobs[other], lane, now) :: Before(jobs[id], jobs[other])
  }

  function Claim(db: Db, lane: Lane, now: real, id: JobId): Db {
    if !ClaimAnswer(db.jobs, lane, now, id) then db
    else
      var job := db.jobs[id];
      db.(jobs := db.jobs[id := job.(status := Processing, lease := Some(db.nextToken),
                                     leaseUntil := Some(now + LEASE_SECONDS), attempts := job.attempts + 1)],
          nextToken := db.nextToken + 1)
  }

  /** The caller's token is the current lease of a job in progress and has not run out. */
  predicate Holds(db: Db, id: JobId, token: nat, now: real) {
    && id in db.jobs
    && db.jobs[id].lease == Some(token)
    && db.jobs[id].status == Processing
    && db.jobs[id].leaseUntil.Some?
    && !Expired(db.jobs[id], now)
  }

  function Heartbeat(db: Db, id: JobId, token: nat, now: real): Db {
    if Holds(db, id, token, now)
    then db.(jobs := db.jobs[id := db.jobs[id].(leaseUntil := Some(now + LEASE_SECONDS))])
    else db
  }

  predicate FailAccepted(db: Db, id: JobId, token: nat) {
    id in db.jobs && db.jobs[id].status == Processing && db.jobs[id].lease == Some(token)
  }

  function Power2(n: nat): nat { if n == 0 then 1 else 2 * Power2(n - 1) }

  function Min(a: nat, b: nat): nat { if a <= b then a else b }

  function Backoff(attempts: nat): nat { Min(3600, 60 * Power2(Min(attempts, 6))) }

  function Fail(db: Db, id: JobId, token: nat, now: real): Db {
    if !FailAccepted(db, id, token) then db
    else
      var job := db.jobs[id];
      var terminal := job.attempts >= MAX_ATTEMPTS;
      var failed := db.(jobs := db.jobs[id := job.(status := if terminal then Failed else Pending,
                                                   available := now + Backoff(job.attempts) as real)]);
      if terminal && job.kind == ClassifyRecommendations && job.run.Some? then
        failed.(runs := SetRun(db.runs, job.run.value, {FilterQueued}, FilterFailed),
                items := SetItems(db.items, job.run.value, {ItemQueued}, ItemFilterFailed))
      else failed
  }

  // ---- Completion -----------------------------------------------------------------------

  /** What str.strip removes. */
  predicate IsSpace(c: char) {
    var code := c as int;
    || 0x09 <= code <= 0x0d || 0x1c <= code <= 0x20 || code == 0x85 || code == 0xa0 || code == 0x1680
    || 0x2000 <= code <= 0x200a || code == 0x2028 || code == 0x2029 || code == 0x202f || code == 0x205f
    || code == 0x3000
  }

  predicate ValidSummary(r: Result) {
    && r.Text? && r.summary.Some?
    && (exists c | c in r.summary.value :: !IsSpace(c))
    && |r.summary.value| <= 20000
    && r.model != ""
  }

  function Finished(job: Job, result: Result): Job {
    var next := if job.kind in {SingleNote, DailyDigest} && !job.payload.deliver then Completed else Ready;
    job.(status := next, result := Some(result))
  }

  function CompleteSummary(db: Db, id: JobId, token: nat, r: Result, now: real): (Db, Reply) {
    if !ValidSummary(r) then (db, Invalid)
    else if id in db.jobs && db.jobs[id].lease == Some(token) && db.jobs[id].result == Some(r) then (db, Duplicate)
    else if !Holds(db, id, token, now) then (db, Conflict)
    else
      var job := db.jobs[id];
      (db.(jobs := db.jobs[id := Finished(job, r)],
           runs := if job.run.Some? && job.kind == Summary
                   then SetRun(db.runs, job.run.value, {SummaryQueued}, SummaryReady)
                   else db.runs),
       Done)
  }

  /** The id an entry speaks about: only recommendation filters fall back to note_id. */
  function IdOf<Id>(d: Decision<Id>, fallback: bool): Option<Id>
    requires d.Decision?
  {
    if d.candidateId.Some? || !fallback then d.candidateId else d.noteId
  }

  function NamedIds<Id(==)>(items: seq<Decision<Id>>, fallback: bool): set<Option<Id>> {
    set d | d in items && d.Decision? :: IdOf(d, fallback)
  }

  predicate Covers<Id(==)>(items: seq<Decision<Id>>, fallback: bool, allowed: seq<Id>) {
    && NamedIds(items, fallback) == (set a | a in allowed :: Some(a))
    && |items| == |Elements(allowed)|
  }

  predicate UnitScore(score: Option<real>) {
    score.Some? && 0.0 <= score.value <= 1.0
  }

  predicate Acceptable<Id>(d: Decision<Id>, fallback: bool) {
    d.Decision? && IdOf(d, fallback).Some? && d.verdict.Some? && UnitScore(d.score) && UnitScore(d.confidence)
  }

  datatype Ruling<+Id> = Ruling(id: Id, verdict: Verdict)

  function RulingOf<Id>(d: Decision<Id>, fallback: bool): Ruling<Id>
    requires Acceptable(d, fallback)
  {
    Ruling(IdOf(d, fallback).value, d.verdict.value)
  }

  function Rulings<Id>(items: seq<Decision<Id>>, fallback: bool): (rulings: seq<Ruling<Id>>)
    requires forall i | 0 <= i < |items| :: Acceptable(items[i], fallback)
    ensures |rulings| == |items|
    ensures forall i | 0 <= i < |items| :: rulings[i] == RulingOf(items[i], fallback)
  {
    seq(|items|, i requires 0 <= i < |items| => RulingOf(items[i], fallback))
  }

  function Count<Id>(rulings: seq<Ruling<Id>>, verdict: Verdict): nat {
    if rulings == [] then 0
    else Count(rulings[..|rulings| - 1], verdict) + if rulings[|rulings| - 1].verdict == verdict then 1 else 0
  }

  function Keyed<Id>(run: RunId, rulings: seq<Ruling<Id>>): (rows: seq<((RunId, Id), Verdict)>)
    ensures |rows| == |rulings|
    ensures forall i | 0 <= i < |rows| :: rows[i] == ((run, rulings[i].id), rulings[i].verdict)
  {
    seq(|rulings|, i requires 0 <= i < |rulings| => ((run, rulings[i].id), rulings[i].verdict))
  }

  function TopicRows(rulings: seq<Ruling<Revision>>): (rows: seq<(Revision, Verdict)>)
    ensures |rows| == |rulings|
    ensures forall i | 0 <= i < |rows| :: rows[i] == (rulings[i].id, rulings[i].verdict)
  {
    seq(|rulings|, i requires 0 <= i < |rulings| => (rulings[i].id, rulings[i].verdict))
  }

  /** UPDATE of the item a ruling names, ruling by ruling. */
  function DecideItems(items: map<(RunId, Revision), ItemRow>, run: RunId, rulings: seq<Ruling<Revision>>)
    : map<(RunId, Revision), ItemRow>
  {
    if rulings == [] then items
    else
      var done := DecideItems(items, run, rulings[..|rulings| - 1]);
      var last := rulings[|rulings| - 1];
      if (run, last.id) in done then done[(run, last.id) := done[(run, last.id)].(state := Decided(last.verdict))]
      else done
  }

  /** Bodies of the included items of a run, in the order of the rulings. */
  function SelectedItems(db: Db, run: RunId, rulings: seq<Ruling<Revision>>): seq<Note> {
    if rulings == [] then []
    else
      var chosen := SelectedItems(db, run, rulings[..|rulings| - 1]);
      var last := rulings[|rulings| - 1];
      if last.verdict == Include && (run, last.id) in db.items && last.id in db.notes
      then chosen + [db.notes[last.id].body]
      else chosen
  }

  /** The payload note of a candidate; a later note with the same id wins. */
  function FindNote(notes: seq<Note>, r: Revision): Option<Note> {
    if notes == [] then None
    else if notes[|notes| - 1].revision == r then Some(notes[|notes| - 1])
    else FindNote(notes[..|notes| - 1], r)
  }

  function SelectedNotes(notes: seq<Note>, rulings: seq<Ruling<Revision>>): seq<Note> {
    if rulings == [] then []
    else
      var chosen := SelectedNotes(notes, rulings[..|rulings| - 1]);
      var last := rulings[|rulings| - 1];
      var found := FindNote(notes, last.id);
      if last.verdict == Include && found.Some? then chosen + [found.value] else chosen
  }

  function Closed(job: Job, result: Result): Job {
    job.(status := Completed, result := Some(result))
  }

  function WithSummary(jobs: map<JobId, Job>, id: JobId, notes: seq<Note>, now: real): map<JobId, Job> {
    if notes == [] || id in jobs then jobs
    else jobs[id := NewJob(Summary, NotesPayload(notes, []), now, RunOf(id))]
  }

  predicate HoldsKind(db: Db, id: JobId, kind: Kind, token: nat, now: real) {
    Holds(db, id, token, now) && db.jobs[id].kind == kind
  }

  predicate Answers<Id(==)>(items: seq<Decision<Id>>, fallback: bool, allowed: seq<Id>) {
    Covers(items, fallback, allowed) && forall i | 0 <= i < |items| :: Acceptable(items[i], fallback)
  }

  function CompleteFilter(db: Db, id: JobId, token: nat, r: Result, now: real): (Db, Reply) {
    if !r.Decisions? then (db, Invalid)
    else if !HoldsKind(db, id, ClassifyRecommendations, token, now) || db.jobs[id].run.None? then (db, Conflict)
    else if !Answers(r.items, true, db.jobs[id].payload.candidates) then (db, Invalid)
    else
      var job := db.jobs[id];
      var run := job.run.value;
      var rulings := Rulings(r.items, true);
      var chosen := SelectedItems(db, run, rulings);
      (db.(screenings := Upserts(db.screenings, Keyed(run, rulings)),
           items := DecideItems(db.items, run, rulings),
           jobs := WithSummary(db.jobs, RunSummary(run), chosen, now)[id := Closed(job, r)],
           runs := if run !in db.runs then db.runs
                   else db.runs[run := RunRow(if chosen != [] then SummaryQueued else Filtered, |rulings|,
                                              Count(rulings, Include), Count(rulings, Review),
                                              Count(rulings, Exclude))]),
       Done)
  }

  function CompleteNoteFilter(db: Db, id: JobId, token: nat, r: Result, now: real): (Db, Reply) {
    if !r.Decisions? then (db, Invalid)
    else if !HoldsKind(db, id, ClassifyNotes, token, now) then (db, Conflict)
    else if !Answers(r.items, false, db.jobs[id].payload.candidates) then (db, Invalid)
    else
      var job := db.jobs[id];
      var rulings := Rulings(r.items, false);
      var chosen := SelectedNotes(job.payload.notes, rulings);
      (db.(topics := Upserts(db.topics, TopicRows(rulings)),
           jobs := WithSummary(db.jobs, Screened(id), chosen, now)[id := Closed(job, r)]),
       Done)
  }

  function CompleteProfileFilter(db: Db, id: JobId, token: nat, r: Result, now: real): (Db, Reply) {
    if !r.Profiles? then (db, Invalid)
    else if !HoldsKind(db, id, ClassifyProfiles, token, now) || db.jobs[id].run.None? then (db, Conflict)
    else if !Answers(r.profiles, false, db.jobs[id].payload.users) then (db, Invalid)
    else
      var job := db.jobs[id];
      (db.(profiles := Upserts(db.profiles, Keyed(job.run.value, Rulings(r.profiles, false))),
           jobs := db.jobs[id := Closed(job, r)]),
       Done)
  }

  /** The first transaction of `complete`: which kind of job the id names, if any. */
  function ReadKind(db: Db, id: JobId): Option<Kind> {
    if id in db.jobs then Some(db.jobs[id].kind) else None
  }

  /** The second transaction of `complete`, for the kind read by the first. */
  function CompleteAs(kind: Option<Kind>, db: Db, id: JobId, token: nat, r: Result, now: real): (Db, Reply) {
    match kind
    case Some(ClassifyRecommendations) => CompleteFilter(db, id, token, r, now)
    case Some(ClassifyProfiles) => CompleteProfileFilter(db, id, token, r, now)
    case Some(ClassifyNotes) => CompleteNoteFilter(db, id, token, r, now)
    case _ => CompleteSummary(db, id, token, r, now)
  }

  function Complete(db: Db, id: JobId, token: nat, r: Result, now: real): (Db, Reply) {
    CompleteAs(ReadKind(db, id), db, id, token, r, now)
  }

  // ---- Delivery -------------------------------------------------------------------------

  function RecordPart(db: Db, id: JobId, part: nat): Db {
    db.(parts := db.parts + {(id, part)})
  }

  function Delivered(db: Db, id: JobId): Db {
    if id !in db.jobs || db.jobs[id].status != Ready then db
    else
      var job := db.jobs[id];
      db.(jobs := db.jobs[id := job.(status := Sent)],
          runs := if job.run.Some? && job.kind == Summary
                  then SetRun(db.runs, job.run.value, {SummaryReady, SummaryQueued}, RunSent)
                  else db.runs)
  }

  // ---- Recommendation runs --------------------------------------------------------------

  function CreateRun(db: Db, run: RunId): Db {
    if run in db.runs then db else db.(runs := db.runs[run := RunRow(Running, 0, 0, 0, 0)])
  }

  function AddItem(db: Db, run: RunId, r: Revision, rank: int): Db {
    db.(items := if (run, r) in db.items then db.items else db.items[(run, r) := ItemRow(ItemPending, rank)],
        notes := if Unassigned(db.notes, r)
                 then db.notes[r := db.notes[r].(owner := Some(ReservedFor(run)))]
                 else db.notes)
  }

  function FinishCollection(db: Db, run: RunId, ok: bool): Db {
    if run !in db.runs then db
    else db.(runs := db.runs[run := db.runs[run].(status := if ok then Collected else CollectFailed)])
  }

  /** `rows` answers: the items of the run that have a note, by source rank. */
  predicate RankedItems(db: Db, run: RunId, rows: seq<Revision>) {
    && Distinct(rows)
    && (forall r | r in rows :: (run, r) in db.items && r in db.notes)
    && (forall k | k in db.items && k.0 == run && k.1 in db.notes :: k.1 in rows)
    && (forall i, j | 0 <= i < j < |rows| && (run, rows[i]) in db.items && (run, rows[j]) in db.items ::
          db.items[(run, rows[i])].rank <= db.items[(run, rows[j])].rank)
  }

  function QueueFilter(db: Db, run: RunId, rows: seq<Revision>, now: real): Db {
    if run !in db.runs || rows == [] || !RankedItems(db, run, rows) || Filter(run) in db.jobs then db
    else
      db.(jobs := db.jobs[Filter(run) := NewJob(ClassifyRecommendations,
                                                NotesPayload(Bodies(db.notes, rows), rows), now, Some(run))],
          runs := db.runs[run := db.runs[run].(status := FilterQueued)],
          items := map k | k in db.items :: if k.0 == run then db.items[k].(state := ItemQueued) else db.items[k])
  }

  function RetryFilter(db: Db, run: RunId): Db {
    if Filter(run) !in db.jobs || db.jobs[Filter(run)].status != Failed then db
    else
      db.(jobs := db.jobs[Filter(run) := Requeued(db.jobs[Filter(run)], true)],
          runs := SetRun(db.runs, run, {FilterFailed}, FilterQueued),
          items := SetItems(db.items, run, {ItemFilterFailed}, ItemQueued))
  }

  function RetryJob(db: Db, id: JobId): Db {
    if id !in db.jobs || db.jobs[id].status != Failed then db
    else db.(jobs := db.jobs[id := Requeued(db.jobs[id], false)])
  }

  predicate SummaryAt(jobs: map<JobId, Job>, run: RunId, status: Status) {
    exists id | id in jobs :: jobs[id].kind == Summary && jobs[id].run == Some(run) && jobs[id].status == status
  }

  /** The start-up backfill of run states: two UPDATE statements in this order. */
  function Reconciled(jobs: map<JobId, Job>, run: RunId, row: RunRow): RunRow {
    var first := if row.status in {SummaryQueued, SummaryReady} && SummaryAt(jobs, run, Sent)
                 then row.(status := RunSent) else row;
    if first.status == SummaryQueued && SummaryAt(jobs, run, Ready) then first.(status := SummaryReady) else first
  }

  function Reconcile(db: Db): Db {
    db.(runs := map run | run in db.runs :: Reconciled(db.jobs, run, db.runs[run]))
  }

  // ---- Other producers of jobs ----------------------------------------------------------

  function InsertOrIgnore(db: Db, id: JobId, job: Job): Db {
    if id in db.jobs then db else db.(jobs := db.jobs[id := job])
  }

  function QueueProfiles(db: Db, users: seq<string>, now: real): Db {
    if users == [] then db
    else InsertOrIgnore(db, ProfileFilter(users),
                        NewJob(ClassifyProfiles, Payload([], [], users, false, true), now, Some(ProfileSweep(users))))
  }

  function QueueDigest(db: Db, date: string, notes: seq<Note>, deliver: bool, now: real): Db {
    if notes == [] then db
    else InsertOrIgnore(db, DigestOf(date), NewJob(DailyDigest, Payload(notes, [], [], deliver, true), now, None))
  }

  /** A message that needs no worker: it is born ready, with its text as the result. */
  function QueueText(db: Db, id: JobId, text: string, now: real): Db {
    if !id.Command? && !id.Dashboard? then db
    else InsertOrIgnore(db, id, NewJob(KindOf(id), NotesPayload([], []), now, None)
                                .(status := Ready, result := Some(Text(Some(text), if id.Command? then "command" else "xhs-dashboard"))))
  }

  // ---- Runs of the store ----------------------------------------------------------------

  datatype Event =
    | AddNoteEvent(note: Note, now: real)
    | EnqueuePendingEvent(rows: seq<Revision>, limit: nat, now: real)
    | EnqueueSingleEvent(note: Note, deliver: bool, live: bool, now: real)
    | ClaimEvent(lane: Lane, now: real, id: JobId)
    | HeartbeatEvent(id: JobId, token: nat, now: real)
    | CompleteEvent(id: JobId, token: nat, result: Result, now: real)
    | FailEvent(id: JobId, token: nat, now: real)
    | RecordPartEvent(id: JobId, part: nat)
    | DeliveredEvent(id: JobId)
    | CreateRunEvent(run: RunId)
    | AddItemEvent(run: RunId, revision: Revision, rank: int)
    | FinishCollectionEvent(run: RunId, ok: bool)
    | QueueFilterEvent(run: RunId, rows: seq<Revision>, now: real)
    | RetryFilterEvent(run: RunId)
    | RetryJobEvent(id: JobId)
    | ReconcileEvent
    | QueueProfilesEvent(users: seq<string>, now: real)
    | QueueDigestEvent(date: string, notes: seq<Note>, deliver: bool, now: real)
    | QueueTextEvent(id: JobId, text: string, now: real)

  function Next(db: Db, e: Event): Db {
    match e
    case AddNoteEvent(note, now) => AddNote(db, note, now)
    case EnqueuePendingEvent(rows, limit, now) => EnqueuePending(db, rows, limit, now)
    case EnqueueSingleEvent(note, deliver, live, now) => EnqueueSingle(db, note, deliver, live, now)
    case ClaimEvent(lane, now, id) => Claim(db, lane, now, id)
    case HeartbeatEvent(id, token, now) => Heartbeat(db, id, token, now)
    case CompleteEvent(id, token, result, now) => Complete(db, id, token, result, now).0
    case FailEvent(id, token, now) => Fail(db, id, token, now)
    case RecordPartEvent(id, part) => RecordPart(db, id, part)
    case DeliveredEvent(id) => Delivered(db, id)
    case CreateRunEvent(run) => CreateRun(db, run)
    case AddItemEvent(run, revision, rank) => AddItem(db, run, revision, rank)
    case FinishCollectionEvent(run, ok) => FinishCollection(db, run, ok)
    case QueueFilterEvent(run, rows, now) => QueueFilter(db, run, rows, now)
    case RetryFilterEvent(run) => RetryFilter(db, run)
    case RetryJobEvent(id) => RetryJob(db, id)
    case ReconcileEvent => Reconcile(db)
    case QueueProfilesEvent(users, now) => QueueProfiles(db, users, now)
    case QueueDigestEvent(date, notes, deliver, now) => QueueDigest(db, date, notes, deliver, now)
    case QueueTextEvent(id, text, now) => QueueText(db, id, text, now)
  }

  /** The database after a run of transactions, in commit order. */
  function After(db: Db, run: seq<Event>): Db {
    if run == [] then db else Next(After(db, run[..|run| - 1]), run[|run| - 1])
  }
}
