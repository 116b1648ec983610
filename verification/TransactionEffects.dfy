/**
 What the transactions that make, reopen and finish jobs do to the rows, column by column, and which
 rows they leave alone.
 */
module TransactionEffects {
  import opened Sequences
  import opened Tables
  import opened Transactions
  import opened QueueInvariant

  // ---- Batches of pending notes ---------------------------------------------------------

  /** The row waits to be routed. */
  predicate Waits(notes: map<Revision, NoteRow>, r: Revision) { r in notes && notes[r].owner == None }

  predicate SeenInOrder(notes: map<Revision, NoteRow>, a: Revision, b: Revision) {
    a in notes && b in notes && notes[a].firstSeen <= notes[b].firstSeen
  }

  /** A read of waiting notes: each once, oldest first, and none left out that should come before. */
  lemma OldestUnassignedIs(notes: map<Revision, NoteRow>, rows: seq<Revision>, limit: nat)
    requires OldestUnassigned(notes, rows, limit)
    ensures |rows| <= limit && forall i, j | 0 <= i < j < |rows| :: rows[i] != rows[j] && SeenInOrder(notes, rows[i], rows[j])
    ensures forall r | r in rows :: Waits(notes, r)
    ensures forall r | Waits(notes, r) && r !in rows :: |rows| == limit && forall q | q in rows :: SeenInOrder(notes, q, r)
  {
    forall i, j | 0 <= i < j < |rows| ensures rows[i] != rows[j] && SeenInOrder(notes, rows[i], rows[j]) {
      assert rows[i] in rows && rows[j] in rows && Unassigned(notes, rows[i]) && Unassigned(notes, rows[j]);
    }
  }

  predicate SomeWatched(notes: map<Revision, NoteRow>, rows: seq<Revision>) {
    exists r :: r in rows && r in notes && notes[r].body.watchUserId != ""
  }

  /** Watched notes go first; a batch without any takes everything read. */
  predicate Takes(notes: map<Revision, NoteRow>, rows: seq<Revision>, r: Revision) {
    r in rows && r in notes && (SomeWatched(notes, rows) ==> notes[r].body.watchUserId != "")
  }

  lemma {:induction false} KeepInOrder(rows: seq<Revision>, keep: set<Revision>, i: nat, j: nat) returns (p: nat, q: nat)
    requires i < j < |KeepIn(rows, keep)|
    ensures p < q < |rows| && rows[p] == KeepIn(rows, keep)[i] && rows[q] == KeepIn(rows, keep)[j]
  {
    var front := rows[..|rows| - 1];
    if j < |KeepIn(front, keep)| {
      p, q := KeepInOrder(front, keep, i, j);
    } else {
      q := |rows| - 1;
      assert KeepIn(front, keep)[i] in front;
      p :| 0 <= p < |front| && front[p] == KeepIn(front, keep)[i];
    }
  }

  lemma BatchTakes(notes: map<Revision, NoteRow>, rows: seq<Revision>)
    requires rows != [] && forall r | r in rows :: r in notes
    ensures var id := PendingBatch(notes, rows);
            && (if SomeWatched(notes, rows) then id.Watch? else id.Screen?)
            && forall r :: r in id.revisions <==> Takes(notes, rows, r)
  {
    var watched := KeepIn(rows, WatchedNotes(notes));
    if r :| r in rows && r in notes && notes[r].body.watchUserId != "" { assert r in watched; }
    if watched != [] { assert watched[0] in watched && watched[0] in rows; }
  }

  lemma BatchIsInOrder(notes: map<Revision, NoteRow>, rows: seq<Revision>, limit: nat, i: nat, j: nat)
    requires rows != [] && OldestUnassigned(notes, rows, limit) && i < j < |PendingBatch(notes, rows).revisions|
    ensures SeenInOrder(notes, PendingBatch(notes, rows).revisions[i], PendingBatch(notes, rows).revisions[j])
  {
    OldestUnassignedIs(notes, rows, limit);
    if PendingBatch(notes, rows).Watch? {
      var p, q := KeepInOrder(rows, WatchedNotes(notes), i, j);
    }
  }

  /**
   One call on waiting notes: a job appears that carries exactly the notes taken, oldest first and as
   they are stored; those notes now belong to it, and nothing else changes.
   */
  lemma BatchIsQueued(db: Db, rows: seq<Revision>, limit: nat, now: real)
    requires rows != [] && OldestUnassigned(db.notes, rows, limit) && PendingBatch(db.notes, rows) !in db.jobs
    ensures var b, id := Next(db, EnqueuePendingEvent(rows, limit, now)), PendingBatch(db.notes, rows);
            && id in b.jobs && b == db.(jobs := db.jobs[id := b.jobs[id]], notes := b.notes)
            && b.jobs[id].status == Pending && b.jobs[id].created == now
            && b.jobs[id].kind == (if SomeWatched(db.notes, rows) then Summary else ClassifyNotes)
            && (forall r :: r in id.revisions <==> Takes(db.notes, rows, r))
            && |b.jobs[id].payload.notes| == |id.revisions|
            && (forall i | 0 <= i < |id.revisions| ::
                  id.revisions[i] in db.notes && b.jobs[id].payload.notes[i] == db.notes[id.revisions[i]].body)
            && b.jobs[id].payload.candidates == (if id.Screen? then id.revisions else [])
            && b.notes.Keys == db.notes.Keys
            && (forall r | r in db.notes ::
                  b.notes[r] == if Takes(db.notes, rows, r) then db.notes[r].(owner := Some(OwnedBy(id))) else db.notes[r])
  {
    BatchTakes(db.notes, rows);
    var b, id := Next(db, EnqueuePendingEvent(rows, limit, now)), PendingBatch(db.notes, rows);
    assert forall r | r in id.revisions :: Takes(db.notes, rows, r);
    assert forall i | 0 <= i < |id.revisions| :: id.revisions[i] in id.revisions;
    assert b.notes == Assign(db.notes, Elements(id.revisions), OwnedBy(id));
  }

  // ---- Single notes ---------------------------------------------------------------------

  /** The row of a note that a request claims: it goes where it went before, or to the request's job. */
  predicate Routed(before: map<Revision, NoteRow>, after: map<Revision, NoteRow>, note: Note, now: real, owner: Owner) {
    var r := note.revision;
    && after.Keys == before.Keys + {r}
    && (r !in before ==> after[r] == NoteRow(note, now, Some(owner)))
    && (r in before ==> after[r] == if before[r].owner == None then before[r].(owner := Some(owner)) else before[r])
    && forall other | other in before && other != r :: after[other] == before[other]
  }

  /** What another request for the note does to its job. */
  predicate Renewed(before: Job, after: Job, note: Note, deliver: bool, live: bool) {
    && after.created == before.created && after.result == before.result && after.kind == before.kind
    && (after.payload.deliver <==> before.payload.deliver || deliver)
    && (if live && !before.payload.live then after.payload.live && after.payload.notes == [note]
        else after.payload.live == before.payload.live && after.payload.notes == before.payload.notes)
    && match before.status
       case Failed =>
         && after.status == Pending && after.attempts == 0 && after.available == 0.0
         && after.lease == None && after.leaseUntil == None
       case Completed => after == before.(payload := after.payload, status := if after.payload.deliver then Ready else Completed)
       case _ => after == before.(payload := after.payload)
  }

  /** A request for one note: its job appears with what was asked, or takes the request in. */
  lemma SingleIsRequested(db: Db, note: Note, deliver: bool, live: bool, now: real)
    ensures var b, id := Next(db, EnqueueSingleEvent(note, deliver, live, now)), Single(note.revision);
            && id in b.jobs && b == db.(jobs := db.jobs[id := b.jobs[id]], notes := b.notes)
            && Routed(db.notes, b.notes, note, now, OwnedBy(id))
            && (if id in db.jobs then Renewed(db.jobs[id], b.jobs[id], note, deliver, live)
                else b.jobs[id].status == Pending && b.jobs[id].kind == SingleNote && b.jobs[id].created == now
                     && b.jobs[id].payload == Payload([note], [], [], deliver, live))
  {}

  // ---- Recommendation runs --------------------------------------------------------------

  /** A collected note becomes an item of the run at its rank, once, and is kept from other queues. */
  lemma ItemIsAdded(db: Db, run: RunId, r: Revision, rank: int)
    ensures var b := Next(db, AddItemEvent(run, r, rank));
            && b == db.(items := b.items, notes := b.notes)
            && b.items.Keys == db.items.Keys + {(run, r)} && b.notes.Keys == db.notes.Keys
            && ((run, r) !in db.items ==> b.items[(run, r)] == ItemRow(ItemPending, rank))
            && (forall k | k in db.items :: b.items[k] == db.items[k])
            && (forall other | other in db.notes ::
                  b.notes[other] == if other == r && db.notes[r].owner == None
                                    then db.notes[r].(owner := Some(ReservedFor(run))) else db.notes[other])
  {}

  /** The item is one of the run and its note is stored. */
  predicate HasNote(db: Db, run: RunId, r: Revision) { (run, r) in db.items && r in db.notes }

  lemma RankedItemsAre(db: Db, run: RunId, rows: seq<Revision>)
    requires RankedItems(db, run, rows)
    ensures forall r :: r in rows <==> HasNote(db, run, r)
    ensures forall i, j | 0 <= i < j < |rows| ::
              rows[i] != rows[j] && HasNote(db, run, rows[i]) && HasNote(db, run, rows[j])
              && db.items[(run, rows[i])].rank <= db.items[(run, rows[j])].rank
  {
    forall r ensures r in rows <==> HasNote(db, run, r) {
      if HasNote(db, run, r) { assert (run, r).0 == run && (run, r).1 == r; }
    }
  }

  /** The filter asks about every item of the run that has a note, each once, by rank, with the notes as stored. */
  ghost predicate AsksAboutItems(db: Db, run: RunId, job: Job) {
    && (forall r :: r in job.payload.candidates <==> HasNote(db, run, r))
    && |job.payload.notes| == |job.payload.candidates|
    && (forall i | 0 <= i < |job.payload.candidates| ::
          HasNote(db, run, job.payload.candidates[i]) && job.payload.notes[i] == db.notes[job.payload.candidates[i]].body)
    && (forall i, j | 0 <= i < j < |job.payload.candidates| && HasNote(db, run, job.payload.candidates[i])
                      && HasNote(db, run, job.payload.candidates[j]) ::
          job.payload.candidates[i] != job.payload.candidates[j]
          && db.items[(run, job.payload.candidates[i])].rank <= db.items[(run, job.payload.candidates[j])].rank)
  }

  lemma AsksInOrder(db: Db, run: RunId, rows: seq<Revision>, now: real)
    requires RankedItems(db, run, rows)
    ensures AsksAboutItems(db, run, NewJob(ClassifyRecommendations, NotesPayload(Bodies(db.notes, rows), rows), now, Some(run)))
  {
    RankedItemsAre(db, run, rows);
    forall i | 0 <= i < |rows| ensures HasNote(db, run, rows[i]) { assert rows[i] in rows; }
  }

  /** Queueing the filter of a run that exists, has a stored note and has no filter yet. */
  lemma FilterIsQueued(db: Db, run: RunId, rows: seq<Revision>, now: real)
    requires run in db.runs && Filter(run) !in db.jobs && RankedItems(db, run, rows) && rows != []
    ensures var b := Next(db, QueueFilterEvent(run, rows, now));
            && Filter(run) in b.jobs && b.jobs == db.jobs[Filter(run) := b.jobs[Filter(run)]]
            && b.jobs[Filter(run)].status == Pending && b.jobs[Filter(run)].kind == ClassifyRecommendations
            && b.jobs[Filter(run)].run == Some(run) && b.jobs[Filter(run)].created == now
            && AsksAboutItems(db, run, b.jobs[Filter(run)])
            && b.runs == db.runs[run := db.runs[run].(status := FilterQueued)]
            && b.items.Keys == db.items.Keys
            && (forall k | k in db.items ::
                  b.items[k] == if k.0 == run then db.items[k].(state := ItemQueued) else db.items[k])
            && b == db.(jobs := b.jobs, runs := b.runs, items := b.items)
  {
    AsksInOrder(db, run, rows, now);
  }

  /** Items of the run move from one state to another; no other item changes. */
  predicate ItemsMoved(before: map<(RunId, Revision), ItemRow>, after: map<(RunId, Revision), ItemRow>,
                       run: RunId, from: ItemState, to: ItemState)
  {
    && after.Keys == before.Keys
    && forall k | k in before ::
         after[k] == if k.0 == run && before[k].state == from then before[k].(state := to) else before[k]
  }

  predicate RunMoved(before: map<RunId, RunRow>, after: map<RunId, RunRow>, run: RunId, from: set<RunStatus>, to: RunStatus) {
    && after.Keys == before.Keys
    && forall other | other in before ::
         after[other] == if other == run && before[other].status in from then before[other].(status := to) else before[other]
  }

  /** The failure that ends a filter fails its run and its queued items; any other touches only its job. */
  lemma FailureSpreads(db: Db, id: JobId, token: nat, now: real)
    requires Inv(db) && FailAccepted(db, id, token)
    ensures var b := Next(db, FailEvent(id, token, now));
            && b == db.(jobs := b.jobs, runs := b.runs, items := b.items) && id in b.jobs && b.jobs == db.jobs[id := b.jobs[id]]
            && (if id.Filter? && db.jobs[id].attempts >= 5
                then RunMoved(db.runs, b.runs, id.run, {FilterQueued}, FilterFailed)
                     && ItemsMoved(db.items, b.items, id.run, ItemQueued, ItemFilterFailed)
                else b.runs == db.runs && b.items == db.items)
  {
    assert ShapeAt(db, id);
  }

  /** Retrying a failed filter through its run takes the run and its failed items back to the queue. */
  lemma RetrySpreads(db: Db, run: RunId)
    requires JobAt(db, Filter(run), Failed)
    ensures var b := Next(db, RetryFilterEvent(run));
            && JobAt(b, Filter(run), Pending) && b.jobs == db.jobs[Filter(run) := b.jobs[Filter(run)]]
            && RunMoved(db.runs, b.runs, run, {FilterFailed}, FilterQueued)
            && ItemsMoved(db.items, b.items, run, ItemFilterFailed, ItemQueued)
            && b == db.(jobs := b.jobs, runs := b.runs, items := b.items)
  {}

  // ---- Summaries ------------------------------------------------------------------------

  /** A text with something to read, not too long, and the name of its model. */
  predicate Presentable(r: Result) {
    && r.Text? && r.summary.Some? && |r.summary.value| <= 20000 && r.model != ""
    && exists i | 0 <= i < |r.summary.value| :: !IsSpace(r.summary.value[i])
  }

  /** What counts as blank is at most what str.strip removes; every ASCII character from '!' to '~' does not. */
  lemma PrintableIsNoSpace(c: char)
    ensures '!' <= c <= '~' ==> !IsSpace(c)
    ensures c in {' ', '\t', '\n', '\r'} ==> IsSpace(c)
  {}

  /** The caller holds an unexpired lease. */
  predicate HeldBy(db: Db, id: JobId, token: nat, now: real) {
    && id in db.jobs && db.jobs[id].status == Processing && db.jobs[id].lease == Some(token)
    && db.jobs[id].leaseUntil.Some? && now <= db.jobs[id].leaseUntil.value
  }

  /**
   The reply to a summary, and what an accepted one leaves: the job is ready, or completed when nobody
   asked for delivery; its result is the answer, and a queued run becomes ready with it.
   */
  lemma SummaryIsAnswered(db: Db, id: JobId, token: nat, r: Result, now: real)
    requires Inv(db) && id in db.jobs && !Classifies(db.jobs[id].kind)
    ensures var (b, reply) := Complete(db, id, token, r, now);
            && (reply == Invalid <==> !Presentable(r))
            && (reply == Duplicate <==> Presentable(r) && db.jobs[id].lease == Some(token) && db.jobs[id].result == Some(r))
            && (reply == Done <==> Presentable(r) && HeldBy(db, id, token, now))
            && (reply != Done ==> b == db)
            && (reply == Done ==>
                  && id in b.jobs
                  && b.jobs[id] == db.jobs[id].(result := Some(r), status :=
                       if db.jobs[id].kind in {SingleNote, DailyDigest} && !db.jobs[id].payload.deliver then Completed else Ready)
                  && b.jobs == db.jobs[id := b.jobs[id]] && b == db.(jobs := b.jobs, runs := b.runs)
                  && (if id.RunSummary? then RunMoved(db.runs, b.runs, id.run, {SummaryQueued}, SummaryReady) else b.runs == db.runs))
  {
    assert ShapeAt(db, id);
    PresentableIsValid(r);
  }

  lemma PresentableIsValid(r: Result)
    ensures Presentable(r) <==> ValidSummary(r)
  {
    if Presentable(r) {
      var i :| 0 <= i < |r.summary.value| && !IsSpace(r.summary.value[i]);
      assert r.summary.value[i] in r.summary.value;
    }
    if ValidSummary(r) {
      var c :| c in r.summary.value && !IsSpace(c);
      var i :| 0 <= i < |r.summary.value| && r.summary.value[i] == c;
    }
  }

  /** A heartbeat from the holder moves the end of the lease to 180 seconds from now, and nothing else. */
  lemma HeartbeatExtends(db: Db, id: JobId, token: nat, now: real)
    ensures Next(db, HeartbeatEvent(id, token, now))
            == if HeldBy(db, id, token, now)
               then db.(jobs := db.jobs[id := db.jobs[id].(leaseUntil := Some(now + 180.0))]) else db
  {}

  /** Only a ready job is delivered, and the run of a summary with it. */
  lemma DeliverySpreads(db: Db, id: JobId)
    requires Inv(db)
    ensures var b := Next(db, DeliveredEvent(id));
            if JobAt(db, id, Ready) then
              && b.jobs == db.jobs[id := db.jobs[id].(status := Sent)] && b == db.(jobs := b.jobs, runs := b.runs)
              && (if id.RunSummary? then RunMoved(db.runs, b.runs, id.run, {SummaryQueued, SummaryReady}, RunSent)
                  else b.runs == db.runs)
            else b == db
  {
    if id in db.jobs { assert ShapeAt(db, id); }
  }

  // ---- Other makers ---------------------------------------------------------------------

  /** The job is there afterwards, and one that was there before is left alone. */
  predicate Added(a: Db, b: Db, id: JobId) {
    id in b.jobs && b == a.(jobs := a.jobs[id := b.jobs[id]]) && (id in a.jobs ==> b == a)
  }

  lemma ProfilesAreQueued(db: Db, users: seq<string>, now: real)
    requires users != []
    ensures var b, id := Next(db, QueueProfilesEvent(users, now)), ProfileFilter(users);
            && Added(db, b, id)
            && (id !in db.jobs ==> b.jobs[id].status == Pending && b.jobs[id].payload.users == users)
  {}

  lemma DigestIsQueued(db: Db, date: string, notes: seq<Note>, deliver: bool, now: real)
    requires notes != []
    ensures var b, id := Next(db, QueueDigestEvent(date, notes, deliver, now)), DigestOf(date);
            && Added(db, b, id)
            && (id !in db.jobs ==> b.jobs[id].status == Pending && b.jobs[id].payload == Payload(notes, [], [], deliver, true))
  {}

  /** A message that needs no worker is ready at once, with its own text as the result. */
  lemma TextIsReady(db: Db, id: JobId, text: string, now: real)
    requires id.Command? || id.Dashboard?
    ensures var b := Next(db, QueueTextEvent(id, text, now));
            && Added(db, b, id)
            && (id !in db.jobs ==> b.jobs[id].status == Ready && b.jobs[id].result.Some? && b.jobs[id].result.value.Text?
                                   && b.jobs[id].result.value.summary == Some(text))
  {}

  /** A new note waits with the body given; a new run is running; a collection ends as it went. */
  lemma RowsAppear(db: Db, note: Note, run: RunId, ok: bool, now: real)
    ensures Next(db, AddNoteEvent(note, now))
            == if note.revision in db.notes then db
               else db.(notes := db.notes[note.revision := NoteRow(note, now, None)])
    ensures Next(db, CreateRunEvent(run))
            == if run in db.runs then db else db.(runs := db.runs[run := RunRow(Running, 0, 0, 0, 0)])
    ensures run in db.runs ==>
              Next(db, FinishCollectionEvent(run, ok))
              == db.(runs := db.runs[run := db.runs[run].(status := if ok then Collected else CollectFailed)])
  {}
}
