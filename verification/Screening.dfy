/** Notes are routed once, and only watched or included notes are ever summarised. */
module Screening {
  import opened Sequences
  import opened Tables
  import opened Transactions
  import opened JobMoves
  import opened QueueInvariant
  import opened QueueProperties

  // ---- Note conservation ----------------------------------------------------------------

  /** Once a note is routed it stays routed to the same place, and its body never changes. */
  lemma RoutedOnce(run: seq<Event>, i: nat, j: nat, r: Revision)
    requires i <= j <= |run| && r in Reached(run[..i]).notes
    ensures r in Reached(run[..j]).notes
    ensures Reached(run[..j]).notes[r].body == Reached(run[..i]).notes[r].body
    ensures Reached(run[..i]).notes[r].owner.Some? ==>
              Reached(run[..j]).notes[r].owner == Reached(run[..i]).notes[r].owner
  {
    ReachedKeeps(run, i, j);
    assert NoteGrows(Reached(run[..i]), Reached(run[..j]), r);
  }

  /**
   A batch job carries exactly the notes routed to it, each once and in order: watched notes only
   in summaries, all others only in screenings.
   */
  lemma BatchesAreExact(run: seq<Event>, id: JobId)
    requires id in Reached(run).jobs && (id.Watch? || id.Screen?)
    ensures var db := Reached(run);
            && Distinct(id.revisions) && id.revisions != []
            && Elements(id.revisions) == (set r | r in db.notes && db.notes[r].owner == Some(OwnedBy(id)))
            && |db.jobs[id].payload.notes| == |id.revisions|
            && (forall i | 0 <= i < |id.revisions| ::
                  var n := db.jobs[id].payload.notes[i];
                  n.revision == id.revisions[i] && n.Watched() == id.Watch?)
            && db.jobs[id].kind == if id.Watch? then Summary else ClassifyNotes
  {
    var db := Reached(run);
    ReachedInv(run);
    assert LinksAt(db, id) && ShapeAt(db, id);
    forall r | r in db.notes && db.notes[r].owner == Some(OwnedBy(id)) ensures r in id.revisions {
      assert NoteAt(db, r);
    }
    forall i | 0 <= i < |id.revisions| ensures db.jobs[id].payload.notes[i].revision == id.revisions[i] {
      assert id.revisions[i] in id.revisions;
      assert NoteAt(db, id.revisions[i]);
    }
  }

  /** The insert of a batch never collides with an existing job, so every non-empty answer makes progress. */
  lemma BatchNeverCollides(run: seq<Event>, rows: seq<Revision>, limit: nat)
    requires rows != [] && OldestUnassigned(Reached(run).notes, rows, limit)
    ensures PendingBatch(Reached(run).notes, rows) !in Reached(run).jobs
  {
    var db := Reached(run);
    ReachedInv(run);
    NoCollision(db, rows, limit);
  }

  lemma NoCollision(db: Db, rows: seq<Revision>, limit: nat)
    requires Inv(db) && rows != [] && OldestUnassigned(db.notes, rows, limit)
    ensures PendingBatch(db.notes, rows) !in db.jobs
  {
    var id := PendingBatch(db.notes, rows);
    assert id.revisions[0] in id.revisions && id.revisions[0] in rows;
    BatchOwnsItsNotes(db, id);
  }

  lemma BatchOwnsItsNotes(db: Db, id: JobId)
    requires Inv(db)
    ensures id in db.jobs && (id.Watch? || id.Screen?) ==>
              forall r | r in id.revisions :: r in db.notes && db.notes[r].owner == Some(OwnedBy(id))
  {
    if id in db.jobs { assert LinksAt(db, id); }
  }

  function UnassignedNotes(notes: map<Revision, NoteRow>): set<Revision> {
    set r | r in notes && Unassigned(notes, r)
  }

  lemma AssignEmptiesPool(notes: map<Revision, NoteRow>, rows: set<Revision>, owner: Owner)
    ensures UnassignedNotes(Assign(notes, rows, owner)) == UnassignedNotes(notes) - rows
  {}

  /** Each batch takes its notes out of the pool and leaves the rest of the pool alone. */
  lemma BatchShrinksPool(db: Db, rows: seq<Revision>, limit: nat, now: real)
    requires Inv(db) && rows != [] && OldestUnassigned(db.notes, rows, limit)
    ensures var taken := Elements(PendingBatch(db.notes, rows).revisions);
            && UnassignedNotes(EnqueuePending(db, rows, limit, now).notes) == UnassignedNotes(db.notes) - taken
            && taken <= UnassignedNotes(db.notes) && taken != {}
  {
    NoCollision(db, rows, limit);
    var id := PendingBatch(db.notes, rows);
    AssignEmptiesPool(db.notes, Elements(id.revisions), OwnedBy(id));
    assert id.revisions[0] in Elements(id.revisions);
  }

  // ---- The screening gate ---------------------------------------------------------------

  /** Why a note may appear in a summary. */
  predicate Permitted(db: Db, id: JobId, n: Note) {
    match id
    case Watch(revisions) =>
      n.Watched() && n.revision in revisions && n.revision in db.notes && db.notes[n.revision].body == n
    case RunSummary(run) => IncludedIn(db, run, n)
    case Screened(_) => IncludedTopic(db, n)
    case _ => false
  }

  lemma SummariesArePermitted(db: Db, id: JobId, n: Note)
    requires Inv(db) && id in db.jobs && db.jobs[id].kind == Summary && n in db.jobs[id].payload.notes
    ensures Permitted(db, id, n)
  {
    assert ShapeAt(db, id) && LinksAt(db, id);
    if id.Watch? {
      var i :| 0 <= i < |id.revisions| && db.jobs[id].payload.notes[i] == n;
      assert id.revisions[i] in id.revisions && NoteAt(db, id.revisions[i]);
    }
  }

  /**
   Over every run: a note in a summary's payload was posted by a watched author or has a recorded
   include decision, and that justification still stands in every later state.
   */
  lemma OnlyPermittedNotesAreSummarised(run: seq<Event>, i: nat, j: nat, id: JobId, n: Note)
    requires i <= j <= |run| && id in Reached(run[..i]).jobs
    requires Reached(run[..i]).jobs[id].kind == Summary && n in Reached(run[..i]).jobs[id].payload.notes
    ensures id in Reached(run[..j]).jobs && n in Reached(run[..j]).jobs[id].payload.notes
    ensures Permitted(Reached(run[..i]), id, n) && Permitted(Reached(run[..j]), id, n)
  {
    var a, b := Reached(run[..i]), Reached(run[..j]);
    ReachedKeeps(run, i, j);
    assert JobGrows(a, b, id);
    SummariesArePermitted(a, id, n);
    SummariesArePermitted(b, id, n);
  }

  /** A recorded decision, of either screening, is never overwritten. */
  lemma DecisionsAreWriteOnce(run: seq<Event>, i: nat, j: nat)
    requires i <= j <= |run|
    ensures forall k | k in Reached(run[..i]).screenings ::
              k in Reached(run[..j]).screenings && Reached(run[..j]).screenings[k] == Reached(run[..i]).screenings[k]
    ensures forall r | r in Reached(run[..i]).topics ::
              r in Reached(run[..j]).topics && Reached(run[..j]).topics[r] == Reached(run[..i]).topics[r]
  {
    var a, b := Reached(run[..i]), Reached(run[..j]);
    ReachedKeeps(run, i, j);
    forall k | k in a.screenings ensures k in b.screenings && b.screenings[k] == a.screenings[k] {
      assert ScreeningStays(a, b, k);
    }
    forall r | r in a.topics ensures r in b.topics && b.topics[r] == a.topics[r] { assert TopicStays(a, b, r); }
  }

  // ---- Decisions cover the candidates ---------------------------------------------------

  lemma {:induction false} CountsAddUp<Id>(rulings: seq<Ruling<Id>>)
    ensures Count(rulings, Include) + Count(rulings, Review) + Count(rulings, Exclude) == |rulings|
  {
    if rulings != [] { CountsAddUp(rulings[..|rulings| - 1]); }
  }

  predicate DistinctIds(rulings: seq<Ruling<Revision>>) {
    forall i, j | 0 <= i < j < |rulings| :: rulings[i].id != rulings[j].id
  }

  function RuledAs(rulings: seq<Ruling<Revision>>, verdict: Verdict): set<Revision> {
    set i | 0 <= i < |rulings| && rulings[i].verdict == verdict :: rulings[i].id
  }

  lemma {:induction false} CountIsSize(rulings: seq<Ruling<Revision>>, verdict: Verdict)
    requires DistinctIds(rulings)
    ensures Count(rulings, verdict) == |RuledAs(rulings, verdict)|
  {
    if rulings != [] {
      var front, last := rulings[..|rulings| - 1], rulings[|rulings| - 1];
      CountIsSize(front, verdict);
      assert last.id !in RuledAs(front, verdict);
      RuledAsGrows(front, last, verdict);
      assert front + [last] == rulings;
    }
  }

  lemma RuledAsGrows(front: seq<Ruling<Revision>>, last: Ruling<Revision>, verdict: Verdict)
    ensures RuledAs(front + [last], verdict)
            == RuledAs(front, verdict) + (if last.verdict == verdict then {last.id} else {})
  {
    var all := front + [last];
    forall x | x in RuledAs(front, verdict) ensures x in RuledAs(all, verdict) {
      var i :| 0 <= i < |front| && front[i].verdict == verdict && front[i].id == x;
      assert all[i] == front[i];
    }
    assert all[|front|] == last;
  }

  lemma {:induction false} DecidedItem(items: map<(RunId, Revision), ItemRow>, run: RunId,
                                       rulings: seq<Ruling<Revision>>, k: (RunId, Revision))
    requires DistinctIds(rulings) && k in items
    ensures k in DecideItems(items, run, rulings)
    ensures forall i | 0 <= i < |rulings| && (run, rulings[i].id) == k ::
              DecideItems(items, run, rulings)[k].state == Decided(rulings[i].verdict)
    ensures (forall i | 0 <= i < |rulings| :: (run, rulings[i].id) != k) ==> DecideItems(items, run, rulings)[k] == items[k]
  {
    if rulings != [] {
      var front := rulings[..|rulings| - 1];
      DecidedItem(items, run, front, k);
      DecideItemsKeys(items, run, front);
    }
  }

  lemma {:induction false} AllIncludedSelected(db: Db, run: RunId, rulings: seq<Ruling<Revision>>)
    requires forall i | 0 <= i < |rulings| :: Collectable(db, run, rulings[i].id)
    ensures |SelectedItems(db, run, rulings)| == Count(rulings, Include)
  {
    if rulings != [] {
      assert Collectable(db, run, rulings[|rulings| - 1].id);
      assert forall i | 0 <= i < |rulings| - 1 :: rulings[..|rulings| - 1][i] == rulings[i];
      AllIncludedSelected(db, run, rulings[..|rulings| - 1]);
    }
  }

  /** The rulings of an accepted answer: one per candidate, none repeated. */
  lemma RulingsMatchCandidates(items: seq<Decision<Revision>>, fallback: bool, allowed: seq<Revision>)
    requires Answers(items, fallback, allowed)
    ensures DistinctIds(Rulings(items, fallback))
    ensures forall i | 0 <= i < |items| :: Rulings(items, fallback)[i].id in allowed
    ensures forall a | a in allowed :: exists i :: 0 <= i < |items| && Rulings(items, fallback)[i].id == a
  {
    CoverageIsBijection(items, fallback, allowed);
    forall a | a in allowed ensures exists i :: 0 <= i < |items| && Rulings(items, fallback)[i].id == a {
      var i :| 0 <= i < |items| && IdOf(items[i], fallback) == Some(a);
      assert Rulings(items, fallback)[i] == RulingOf(items[i], fallback);
    }
    forall i | 0 <= i < |items| ensures Rulings(items, fallback)[i].id in allowed {
      assert Rulings(items, fallback)[i] == RulingOf(items[i], fallback);
    }
  }

  /** The candidates of a run whose item stands at a verdict. */
  function StandingAt(db: Db, run: RunId, candidates: seq<Revision>, verdict: Verdict): set<Revision> {
    set c | c in candidates && (run, c) in db.items && db.items[(run, c)].state == Decided(verdict)
  }

  /**
   An accepted filter accounts for every candidate once: the run's three tallies add up to the number
   of candidates and each equals the number of candidates whose item stands at that verdict. A summary
   is queued exactly when something was included, with one note per inclusion.
   */
  lemma FilterAccountsForEveryCandidate(db: Db, id: JobId, token: nat, r: Result, now: real)
    requires Inv(db) && id.Filter? && CompleteFilter(db, id, token, r, now).1 == Done
    ensures id in db.jobs && id.run in CompleteFilter(db, id, token, r, now).0.runs
    ensures var b, run, candidates := CompleteFilter(db, id, token, r, now).0, id.run, db.jobs[id].payload.candidates;
            var row := b.runs[run];
            && row.classified == |candidates| == row.selected + row.review + row.rejected
            && row.selected == |StandingAt(b, run, candidates, Include)|
            && row.review == |StandingAt(b, run, candidates, Review)|
            && row.rejected == |StandingAt(b, run, candidates, Exclude)|
            && (RunSummary(run) in b.jobs <==> row.selected > 0)
            && (RunSummary(run) in b.jobs ==> |b.jobs[RunSummary(run)].payload.notes| == row.selected)
            && row.status == if row.selected > 0 then SummaryQueued else Filtered
  {
    var b, run, candidates := CompleteFilter(db, id, token, r, now).0, id.run, db.jobs[id].payload.candidates;
    assert ShapeAt(db, id) && LinksAt(db, id);
    var rulings := Rulings(r.items, true);
    RulingsMatchCandidates(r.items, true, candidates);
    CountsAddUp(rulings);
    ElementsBound(candidates);
    forall i | 0 <= i < |rulings| ensures Collectable(db, run, rulings[i].id) {}
    AllIncludedSelected(db, run, rulings);
    FreshSummary(db, id, RunSummary(run));
    Standing(db, b, run, candidates, rulings, Include);
    Standing(db, b, run, candidates, rulings, Review);
    Standing(db, b, run, candidates, rulings, Exclude);
  }

  lemma Standing(db: Db, b: Db, run: RunId, candidates: seq<Revision>, rulings: seq<Ruling<Revision>>, verdict: Verdict)
    requires b.items == DecideItems(db.items, run, rulings) && DistinctIds(rulings)
    requires forall c | c in candidates :: (run, c) in db.items
    requires forall i | 0 <= i < |rulings| :: rulings[i].id in candidates
    requires forall c | c in candidates :: exists i :: 0 <= i < |rulings| && rulings[i].id == c
    ensures |StandingAt(b, run, candidates, verdict)| == Count(rulings, verdict)
  {
    CountIsSize(rulings, verdict);
    forall c ensures c in StandingAt(b, run, candidates, verdict) <==> c in RuledAs(rulings, verdict) {
      if c in candidates {
        DecidedItem(db.items, run, rulings, (run, c));
        var i :| 0 <= i < |rulings| && rulings[i].id == c;
        assert (run, rulings[i].id) == (run, c);
      }
    }
    assert StandingAt(b, run, candidates, verdict) == RuledAs(rulings, verdict);
  }

  // ---- Delivery requests of single notes ------------------------------------------------

  predicate Requests(e: Event, r: Revision) { e.EnqueueSingleEvent? && e.note.revision == r && e.deliver }

  predicate EverRequested(run: seq<Event>, r: Revision) { exists i | 0 <= i < |run| :: Requests(run[i], r) }

  predicate DeliverFlag(db: Db, r: Revision) { Single(r) in db.jobs && db.jobs[Single(r)].payload.deliver }

  lemma FlagStep(db: Db, e: Event, r: Revision)
    ensures DeliverFlag(Next(db, e), r) <==> DeliverFlag(db, r) || Requests(e, r)
  {
    EveryMove(db, e, Single(r));
  }

  /**
   No delivery request is lost: the flag of a single-note job is exactly whether any request so far
   asked for delivery. A finished job that stays in the console was never asked to be delivered, and
   one that is ready or sent was.
   */
  lemma {:induction false} NoDeliveryRequestIsLost(run: seq<Event>, r: Revision)
    ensures DeliverFlag(Reached(run), r) <==> EverRequested(run, r)
    ensures JobAt(Reached(run), Single(r), Completed) ==> !EverRequested(run, r)
    ensures JobAt(Reached(run), Single(r), Ready) || JobAt(Reached(run), Single(r), Sent) ==> EverRequested(run, r)
  {
    ReachedInv(run);
    if Single(r) in Reached(run).jobs { assert ShapeAt(Reached(run), Single(r)); }
    if run != [] {
      var front := run[..|run| - 1];
      NoDeliveryRequestIsLost(front, r);
      ReachedInv(front);
      FlagStep(Reached(front), run[|run| - 1], r);
      assert forall i | 0 <= i < |front| :: front[i] == run[i];
      assert EverRequested(run, r) <==> EverRequested(front, r) || Requests(run[|run| - 1], r);
    }
  }
}
