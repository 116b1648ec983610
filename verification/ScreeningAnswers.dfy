/**
 What an accepted screening answer does, entry by entry: the verdict an entry gives is the verdict
 recorded for the id it names, and exactly the included notes go on to a summary.
 */
module ScreeningAnswers {
  import opened Sequences
  import opened Tables
  import opened Transactions
  import opened QueueInvariant
  import S = Screening

  // ---- Entries --------------------------------------------------------------------------

  /** The entry speaks about `c`; with `fallback` a missing candidate id may be given as note id. */
  predicate Names<Id(==)>(d: Decision<Id>, c: Id, fallback: bool) {
    d.Decision? && (d.candidateId == Some(c) || (fallback && d.candidateId.None? && d.noteId == Some(c)))
  }

  predicate Says<Id>(d: Decision<Id>, verdict: Verdict) { d.Decision? && d.verdict == Some(verdict) }

  /** One of the three verdicts, and two scores from 0 to 1. */
  predicate Rated<Id>(d: Decision<Id>) {
    && d.Decision? && d.verdict.Some? && d.score.Some? && d.confidence.Some?
    && 0.0 <= d.score.value <= 1.0 && 0.0 <= d.confidence.value <= 1.0
  }

  predicate NamesOneOf<Id(==)>(d: Decision<Id>, allowed: seq<Id>, fallback: bool) {
    exists c :: c in allowed && Names(d, c, fallback)
  }

  predicate NamedBy<Id(==)>(items: seq<Decision<Id>>, c: Id, fallback: bool) {
    exists i | 0 <= i < |items| :: Names(items[i], c, fallback)
  }

  predicate NamedOnce<Id(==)>(items: seq<Decision<Id>>, c: Id, fallback: bool) {
    forall i, j | 0 <= i < j < |items| :: !(Names(items[i], c, fallback) && Names(items[j], c, fallback))
  }

  /** Every entry is rated and names a candidate, and every candidate is named exactly once. */
  predicate Answered<Id(==)>(items: seq<Decision<Id>>, fallback: bool, allowed: seq<Id>) {
    && (forall i | 0 <= i < |items| :: Rated(items[i]) && NamesOneOf(items[i], allowed, fallback))
    && (forall c | c in allowed :: NamedBy(items, c, fallback) && NamedOnce(items, c, fallback))
  }

  lemma NamesIsIdOf<Id>(d: Decision<Id>, c: Id, fallback: bool)
    ensures Names(d, c, fallback) <==> d.Decision? && IdOf(d, fallback) == Some(c)
  {}

  lemma AnswersAreAnswered<Id>(items: seq<Decision<Id>>, fallback: bool, allowed: seq<Id>)
    requires Answers(items, fallback, allowed)
    ensures Answered(items, fallback, allowed)
  {
    CoverageIsBijection(items, fallback, allowed);
    forall i | 0 <= i < |items| ensures Rated(items[i]) && NamesOneOf(items[i], allowed, fallback) {
      NamesIsIdOf(items[i], IdOf(items[i], fallback).value, fallback);
    }
    forall c | c in allowed ensures NamedBy(items, c, fallback) && NamedOnce(items, c, fallback) {
      var i :| 0 <= i < |items| && IdOf(items[i], fallback) == Some(c);
      NamesIsIdOf(items[i], c, fallback);
      forall j | 0 <= j < |items| { NamesIsIdOf(items[j], c, fallback); }
    }
  }

  /** The ids named, in the order of the entries. */
  lemma NamedIdsOf<Id>(items: seq<Decision<Id>>, fallback: bool, allowed: seq<Id>) returns (ids: seq<Id>)
    requires Answered(items, fallback, allowed)
    ensures |ids| == |items| && Distinct(ids) && Elements(ids) == Elements(allowed)
    ensures forall i | 0 <= i < |items| :: Names(items[i], ids[i], fallback)
  {
    assert forall i | 0 <= i < |items| :: NamesOneOf(items[i], allowed, fallback);
    ids := seq(|items|, i requires 0 <= i < |items| && items[i].Decision? && IdOf(items[i], fallback).Some? =>
                 IdOf(items[i], fallback).value);
    forall i | 0 <= i < |items| ensures Names(items[i], ids[i], fallback) && ids[i] in allowed {
      var c :| c in allowed && Names(items[i], c, fallback);
      NamesIsIdOf(items[i], c, fallback);
    }
    forall i, j | 0 <= i < j < |ids| ensures ids[i] != ids[j] {
      assert NamedOnce(items, ids[i], fallback);
    }
    forall c | c in allowed ensures c in ids {
      assert NamedBy(items, c, fallback);
      var i :| 0 <= i < |items| && Names(items[i], c, fallback);
      NamesIsIdOf(items[i], c, fallback);
      assert ids[i] == c;
    }
  }

  lemma NamedIdsAre<Id>(items: seq<Decision<Id>>, fallback: bool, ids: seq<Id>, allowed: seq<Id>)
    requires |ids| == |items| && Elements(ids) == Elements(allowed)
    requires forall i | 0 <= i < |items| :: items[i].Decision? && IdOf(items[i], fallback) == Some(ids[i])
    ensures NamedIds(items, fallback) == (set a | a in allowed :: Some(a))
  {
    forall o | o in NamedIds(items, fallback) ensures o in (set a | a in allowed :: Some(a)) {
      var d :| d in items && d.Decision? && IdOf(d, fallback) == o;
      var i :| 0 <= i < |items| && items[i] == d;
      assert ids[i] in Elements(ids);
    }
    forall a | a in allowed ensures Some(a) in NamedIds(items, fallback) {
      assert a in Elements(ids);
      var i :| 0 <= i < |ids| && ids[i] == a;
      assert items[i] in items;
    }
  }

  lemma AnsweredAreAnswers<Id>(items: seq<Decision<Id>>, fallback: bool, allowed: seq<Id>)
    requires Answered(items, fallback, allowed)
    ensures Answers(items, fallback, allowed)
  {
    var ids := NamedIdsOf(items, fallback, allowed);
    ElementsBound(ids);
    forall i | 0 <= i < |items| ensures items[i].Decision? && IdOf(items[i], fallback) == Some(ids[i]) {
      NamesIsIdOf(items[i], ids[i], fallback);
    }
    NamedIdsAre(items, fallback, ids, allowed);
    forall i | 0 <= i < |items| ensures Acceptable(items[i], fallback) { assert Rated(items[i]); }
  }

  /** The store's test, said of the entries themselves. */
  lemma AnswersIff<Id>(items: seq<Decision<Id>>, fallback: bool, allowed: seq<Id>)
    ensures Answers(items, fallback, allowed) <==> Answered(items, fallback, allowed)
  {
    if Answers(items, fallback, allowed) { AnswersAreAnswered(items, fallback, allowed); }
    if Answered(items, fallback, allowed) { AnsweredAreAnswers(items, fallback, allowed); }
  }

  // ---- From entries to rows -------------------------------------------------------------

  /** Each ruling is what its entry says. */
  lemma RulingsAreEntries<Id>(items: seq<Decision<Id>>, fallback: bool, allowed: seq<Id>)
    requires Answers(items, fallback, allowed)
    ensures var rulings := Rulings(items, fallback);
            && |rulings| == |items|
            && (forall i | 0 <= i < |items| ::
                  Names(items[i], rulings[i].id, fallback) && Says(items[i], rulings[i].verdict))
            && (forall i, c | 0 <= i < |items| && Names(items[i], c, fallback) :: rulings[i].id == c)
            && (forall i, j | 0 <= i < j < |rulings| :: rulings[i].id != rulings[j].id)
            && (forall i | 0 <= i < |rulings| :: rulings[i].id in allowed)
  {
    CoverageIsBijection(items, fallback, allowed);
    var rulings := Rulings(items, fallback);
    forall i | 0 <= i < |items|
      ensures rulings[i] == RulingOf(items[i], fallback) && rulings[i].id in allowed
      ensures Names(items[i], rulings[i].id, fallback) && Says(items[i], rulings[i].verdict)
      ensures IdOf(items[i], fallback) == Some(rulings[i].id)
    {
      NamesIsIdOf(items[i], rulings[i].id, fallback);
    }
    forall i, c | 0 <= i < |items| && Names(items[i], c, fallback) ensures rulings[i].id == c {
      NamesIsIdOf(items[i], c, fallback);
    }
  }

  /** Rows written for distinct keys hold what was written, and no other row changes. */
  lemma RowsHold<K(!new), V>(table: map<K, V>, rows: seq<(K, V)>)
    requires DistinctKeys(rows)
    ensures forall i | 0 <= i < |rows| :: rows[i].0 in Upserts(table, rows) && Upserts(table, rows)[rows[i].0] == rows[i].1
    ensures forall k | k in table && (forall i | 0 <= i < |rows| :: rows[i].0 != k) ::
              k in Upserts(table, rows) && Upserts(table, rows)[k] == table[k]
    ensures forall k | k in Upserts(table, rows) :: k in table || exists i :: 0 <= i < |rows| && rows[i].0 == k
  {
    UpsertsKeys(table, rows);
    forall i | 0 <= i < |rows|
      ensures rows[i].0 in Upserts(table, rows) && Upserts(table, rows)[rows[i].0] == rows[i].1
    {
      UpsertsValue(table, rows, i);
    }
  }

  /** The rows of the run hold what the entries say of the ids they name; all others are as before. */
  ghost predicate RecordedFor<Id(!new)>(items: seq<Decision<Id>>, fallback: bool, run: RunId,
                                       before: map<(RunId, Id), Verdict>, after: map<(RunId, Id), Verdict>)
  {
    && (forall i, c | 0 <= i < |items| && Names(items[i], c, fallback) ::
          (run, c) in after && Says(items[i], after[(run, c)]))
    && (forall k | k in before && !(k.0 == run && NamedBy(items, k.1, fallback)) :: k in after && after[k] == before[k])
    && (forall k | k in after :: k in before || (k.0 == run && NamedBy(items, k.1, fallback)))
  }

  ghost predicate RecordedTopics(items: seq<Decision<Revision>>, before: map<Revision, Verdict>, after: map<Revision, Verdict>) {
    && (forall i, c | 0 <= i < |items| && Names(items[i], c, false) :: c in after && Says(items[i], after[c]))
    && (forall c | c in before && !NamedBy(items, c, false) :: c in after && after[c] == before[c])
    && (forall c | c in after :: c in before || NamedBy(items, c, false))
  }

  lemma KeyedRecords<Id(!new)>(items: seq<Decision<Id>>, fallback: bool, allowed: seq<Id>, run: RunId,
                               before: map<(RunId, Id), Verdict>)
    requires Answers(items, fallback, allowed)
    ensures RecordedFor(items, fallback, run, before, Upserts(before, Keyed(run, Rulings(items, fallback))))
  {
    RulingsAreEntries(items, fallback, allowed);
    var rulings := Rulings(items, fallback);
    var rows := Keyed(run, rulings);
    RowsHold(before, rows);
    var after := Upserts(before, rows);
    forall i, c | 0 <= i < |items| && Names(items[i], c, fallback)
      ensures (run, c) in after && Says(items[i], after[(run, c)])
    {
      assert rows[i] == ((run, c), rulings[i].verdict);
    }
    forall k | k in before && !(k.0 == run && NamedBy(items, k.1, fallback)) ensures k in after && after[k] == before[k] {
      forall i | 0 <= i < |rows| ensures rows[i].0 != k { assert Names(items[i], rulings[i].id, fallback); }
    }
    forall k | k in after ensures k in before || (k.0 == run && NamedBy(items, k.1, fallback)) {
      if i :| 0 <= i < |rows| && rows[i].0 == k { assert Names(items[i], rulings[i].id, fallback); }
    }
  }

  lemma TopicsRecord(items: seq<Decision<Revision>>, allowed: seq<Revision>, before: map<Revision, Verdict>)
    requires Answers(items, false, allowed)
    ensures RecordedTopics(items, before, Upserts(before, TopicRows(Rulings(items, false))))
  {
    RulingsAreEntries(items, false, allowed);
    var rulings := Rulings(items, false);
    var rows := TopicRows(rulings);
    RowsHold(before, rows);
    var after := Upserts(before, rows);
    forall i, c | 0 <= i < |items| && Names(items[i], c, false) ensures c in after && Says(items[i], after[c]) {
      assert rows[i] == (c, rulings[i].verdict);
    }
    forall c | c in before && !NamedBy(items, c, false) ensures c in after && after[c] == before[c] {
      forall i | 0 <= i < |rows| ensures rows[i].0 != c { assert Names(items[i], rulings[i].id, false); }
    }
    forall c | c in after ensures c in before || NamedBy(items, c, false) {
      if i :| 0 <= i < |rows| && rows[i].0 == c { assert Names(items[i], rulings[i].id, false); }
    }
  }

  /** Items of the run stand where the entries put them, at their old rank; no other item changes. */
  ghost predicate ItemsDecided(items: seq<Decision<Revision>>, run: RunId,
                               before: map<(RunId, Revision), ItemRow>, after: map<(RunId, Revision), ItemRow>)
  {
    && after.Keys == before.Keys
    && (forall k | k in before ::
          && after[k].rank == before[k].rank
          && ((k.0 == run && NamedBy(items, k.1, true)) || after[k] == before[k])
          && forall i | 0 <= i < |items| && k.0 == run && Names(items[i], k.1, true) ::
               after[k].state.Decided? && Says(items[i], after[k].state.verdict))
  }

  lemma {:induction false} DecideKeepsRank(items: map<(RunId, Revision), ItemRow>, run: RunId, rulings: seq<Ruling<Revision>>)
    ensures var after := DecideItems(items, run, rulings);
            after.Keys == items.Keys && forall k | k in items :: after[k].rank == items[k].rank
  {
    if rulings != [] { DecideKeepsRank(items, run, rulings[..|rulings| - 1]); }
  }

  lemma ItemsAreDecided(items: seq<Decision<Revision>>, allowed: seq<Revision>, run: RunId,
                        before: map<(RunId, Revision), ItemRow>)
    requires Answers(items, true, allowed)
    ensures ItemsDecided(items, run, before, DecideItems(before, run, Rulings(items, true)))
  {
    RulingsAreEntries(items, true, allowed);
    var rulings := Rulings(items, true);
    var after := DecideItems(before, run, rulings);
    DecideKeepsRank(before, run, rulings);
    forall k | k in before
      ensures (k.0 == run && NamedBy(items, k.1, true)) || after[k] == before[k]
      ensures forall i | 0 <= i < |items| && k.0 == run && Names(items[i], k.1, true) ::
                after[k].state.Decided? && Says(items[i], after[k].state.verdict)
    {
      S.DecidedItem(before, run, rulings, k);
      forall i | 0 <= i < |items| && k.0 == run && Names(items[i], k.1, true)
        ensures after[k].state.Decided? && Says(items[i], after[k].state.verdict)
      {
        assert (run, rulings[i].id) == k;
      }
      if !(k.0 == run && NamedBy(items, k.1, true)) {
        forall i | 0 <= i < |rulings| ensures (run, rulings[i].id) != k { assert Names(items[i], rulings[i].id, true); }
      }
    }
  }

  // ---- What goes on to a summary --------------------------------------------------------

  /** Some entry includes the id. */
  predicate Includes(items: seq<Decision<Revision>>, c: Revision, fallback: bool) {
    exists i | 0 <= i < |items| :: Names(items[i], c, fallback) && Says(items[i], Include)
  }

  /** Exactly the included notes, as they are stored, each once. */
  ghost predicate SummarisesIncluded(items: seq<Decision<Revision>>, fallback: bool, stored: map<Revision, NoteRow>,
                                     notes: seq<Note>)
  {
    && Distinct(notes)
    && (forall n | n in notes :: Includes(items, n.revision, fallback) && n.revision in stored && stored[n.revision].body == n)
    && (forall c | Includes(items, c, fallback) :: c in stored && stored[c].body in notes)
  }

  /** The stored body of an included note. */
  predicate ChosenBody(notes: map<Revision, NoteRow>, rulings: seq<Ruling<Revision>>, n: Note) {
    exists i :: 0 <= i < |rulings| && rulings[i].verdict == Include && rulings[i].id in notes && n == notes[rulings[i].id].body
  }

  lemma ChosenBodyGrows(notes: map<Revision, NoteRow>, front: seq<Ruling<Revision>>, last: Ruling<Revision>, n: Note)
    ensures ChosenBody(notes, front + [last], n)
            <==> ChosenBody(notes, front, n) || (last.verdict == Include && last.id in notes && n == notes[last.id].body)
  {
    var all := front + [last];
    if i :| 0 <= i < |front| && front[i].verdict == Include && front[i].id in notes && n == notes[front[i].id].body {
      assert all[i] == front[i];
    }
    assert all[|front|] == last;
  }

  /** The notes chosen are the bodies of the included items. */
  lemma {:induction false} SelectedItemsAre(db: Db, run: RunId, rulings: seq<Ruling<Revision>>)
    requires S.DistinctIds(rulings)
    requires forall i | 0 <= i < |rulings| ::
               Collectable(db, run, rulings[i].id) && db.notes[rulings[i].id].body.revision == rulings[i].id
    ensures Distinct(SelectedItems(db, run, rulings))
    ensures forall n :: n in SelectedItems(db, run, rulings) <==> ChosenBody(db.notes, rulings, n)
  {
    if rulings != [] {
      var front, last := rulings[..|rulings| - 1], rulings[|rulings| - 1];
      assert forall i | 0 <= i < |front| :: front[i] == rulings[i];
      SelectedItemsAre(db, run, front);
      assert Collectable(db, run, last.id) && rulings == front + [last];
      forall n ensures n in SelectedItems(db, run, rulings) <==> ChosenBody(db.notes, rulings, n) {
        ChosenBodyGrows(db.notes, front, last, n);
      }
      forall i | 0 <= i < |front| && front[i].id in db.notes
        ensures db.notes[front[i].id].body != db.notes[last.id].body
      {
        assert front[i] == rulings[i] && Collectable(db, run, rulings[i].id);
      }
      assert !ChosenBody(db.notes, front, db.notes[last.id].body);
    }
  }

  lemma {:induction false} FindNoteIs(notes: seq<Note>, r: Revision)
    requires forall i, j | 0 <= i < j < |notes| :: notes[i].revision != notes[j].revision
    ensures forall n | n in notes && n.revision == r :: FindNote(notes, r) == Some(n)
    ensures FindNote(notes, r).Some? ==> FindNote(notes, r).value in notes && FindNote(notes, r).value.revision == r
  {
    if notes != [] { FindNoteIs(notes[..|notes| - 1], r); }
  }

  lemma {:induction false} SelectedNotesAre(notes: seq<Note>, rulings: seq<Ruling<Revision>>)
    requires S.DistinctIds(rulings)
    requires forall i, j | 0 <= i < j < |notes| :: notes[i].revision != notes[j].revision
    ensures var chosen := SelectedNotes(notes, rulings);
            && Distinct(chosen)
            && (forall n :: n in chosen <==>
                  n in notes && exists i :: 0 <= i < |rulings| && rulings[i].verdict == Include && rulings[i].id == n.revision)
  {
    if rulings != [] {
      var front, last := rulings[..|rulings| - 1], rulings[|rulings| - 1];
      SelectedNotesAre(notes, front);
      FindNoteIs(notes, last.id);
      assert forall i | 0 <= i < |front| :: front[i] == rulings[i];
      forall n ensures n in SelectedNotes(notes, rulings) <==>
          n in notes && exists i :: 0 <= i < |rulings| && rulings[i].verdict == Include && rulings[i].id == n.revision
      {
        if i :| 0 <= i < |front| && front[i].verdict == Include && front[i].id == n.revision {
          assert rulings[i].verdict == Include && rulings[i].id == n.revision;
        }
      }
    }
  }

  lemma ChosenItems(db: Db, run: RunId, items: seq<Decision<Revision>>, allowed: seq<Revision>)
    requires NotesOk(db) && Answers(items, true, allowed) && forall c | c in allowed :: Collectable(db, run, c)
    ensures SummarisesIncluded(items, true, db.notes, SelectedItems(db, run, Rulings(items, true)))
  {
    RulingsAreEntries(items, true, allowed);
    var rulings := Rulings(items, true);
    forall i | 0 <= i < |rulings|
      ensures Collectable(db, run, rulings[i].id) && db.notes[rulings[i].id].body.revision == rulings[i].id
    {
      assert Collectable(db, run, rulings[i].id) && NoteAt(db, rulings[i].id);
    }
    SelectedItemsAre(db, run, rulings);
    var chosen := SelectedItems(db, run, rulings);
    forall n | n in chosen
      ensures Includes(items, n.revision, true) && n.revision in db.notes && db.notes[n.revision].body == n
    {
      assert ChosenBody(db.notes, rulings, n);
      var i :| 0 <= i < |rulings| && rulings[i].verdict == Include && rulings[i].id in db.notes && n == db.notes[rulings[i].id].body;
      assert Names(items[i], n.revision, true) && Says(items[i], Include);
    }
    forall c | Includes(items, c, true) ensures c in db.notes && db.notes[c].body in chosen {
      var i :| 0 <= i < |items| && Names(items[i], c, true) && Says(items[i], Include);
      assert rulings[i].id == c && rulings[i].verdict == Include && Collectable(db, run, rulings[i].id);
      assert ChosenBody(db.notes, rulings, db.notes[c].body);
    }
  }

  lemma ChosenNotes(db: Db, id: JobId, items: seq<Decision<Revision>>)
    requires NotesOk(db) && id in db.jobs && id.Screen? && LinksAt(db, id) && Answers(items, false, id.revisions)
    ensures SummarisesIncluded(items, false, db.notes, SelectedNotes(db.jobs[id].payload.notes, Rulings(items, false)))
  {
    RulingsAreEntries(items, false, id.revisions);
    var rulings, notes := Rulings(items, false), db.jobs[id].payload.notes;
    forall i | 0 <= i < |notes| ensures notes[i].revision == id.revisions[i] && notes[i] == db.notes[id.revisions[i]].body {
      assert id.revisions[i] in id.revisions && NoteAt(db, id.revisions[i]);
    }
    SelectedNotesAre(notes, rulings);
    var chosen := SelectedNotes(notes, rulings);
    forall n | n in chosen
      ensures Includes(items, n.revision, false) && n.revision in db.notes && db.notes[n.revision].body == n
    {
      var i :| 0 <= i < |rulings| && rulings[i].verdict == Include && rulings[i].id == n.revision;
      assert Names(items[i], n.revision, false) && Says(items[i], Include);
    }
    forall c | Includes(items, c, false) ensures c in db.notes && db.notes[c].body in chosen {
      var i :| 0 <= i < |items| && Names(items[i], c, false) && Says(items[i], Include);
      assert rulings[i].id == c && rulings[i].verdict == Include;
      var k :| 0 <= k < |id.revisions| && id.revisions[k] == c;
      assert notes[k] in notes;
    }
  }

  // ---- The three screenings -------------------------------------------------------------

  /** The caller holds an unexpired lease on the job, which is of this kind. */
  predicate Leased(db: Db, id: JobId, kind: Kind, token: nat, now: real) {
    && id in db.jobs && db.jobs[id].kind == kind && db.jobs[id].status == Processing
    && db.jobs[id].lease == Some(token) && db.jobs[id].leaseUntil.Some? && now <= db.jobs[id].leaseUntil.value
  }

  /** The job is closed with its answer, and the summary appears exactly when something was included. */
  ghost predicate ClosedAndSummarised(a: Db, b: Db, id: JobId, r: Result, summary: JobId, run: Option<RunId>,
                                      fallback: bool, now: real)
    requires r.Decisions?
  {
    && id in a.jobs && id in b.jobs && b.jobs[id] == a.jobs[id].(status := Completed, result := Some(r))
    && (forall other | other in a.jobs && other != id :: other in b.jobs && b.jobs[other] == a.jobs[other])
    && (forall other | other in b.jobs :: other in a.jobs || other == summary)
    && (summary in b.jobs <==> exists c :: Includes(r.items, c, fallback))
    && (summary in b.jobs ==>
          var job := b.jobs[summary];
          && job.status == Pending && job.kind == Summary && job.run == run && job.created == now
          && SummarisesIncluded(r.items, fallback, a.notes, job.payload.notes))
  }

  /** How many entries give a verdict. */
  function Tally(items: seq<Decision<Revision>>, verdict: Verdict): nat {
    if items == [] then 0
    else Tally(items[..|items| - 1], verdict) + if Says(items[|items| - 1], verdict) then 1 else 0
  }

  lemma {:induction false} TallyIsCount(items: seq<Decision<Revision>>, rulings: seq<Ruling<Revision>>, verdict: Verdict)
    requires |items| == |rulings| && forall i | 0 <= i < |items| :: Says(items[i], rulings[i].verdict)
    ensures Tally(items, verdict) == Count(rulings, verdict)
  {
    if items != [] { TallyIsCount(items[..|items| - 1], rulings[..|items| - 1], verdict); }
  }

  lemma SummaryAppears(items: seq<Decision<Revision>>, fallback: bool, stored: map<Revision, NoteRow>, notes: seq<Note>)
    requires SummarisesIncluded(items, fallback, stored, notes)
    ensures notes != [] <==> exists c :: Includes(items, c, fallback)
  {
    if notes != [] { assert Includes(items, notes[0].revision, fallback); }
  }

  /** A recommendation filter is accepted exactly from its holder with a full, well-formed answer. */
  lemma FilterAcceptedIff(db: Db, id: JobId, token: nat, r: Result, now: real)
    requires Inv(db) && id.Filter?
    ensures Complete(db, id, token, r, now).1 == Done
            <==> Leased(db, id, ClassifyRecommendations, token, now) && r.Decisions?
                 && Answered(r.items, true, db.jobs[id].payload.candidates)
  {
    if id in db.jobs {
      assert ShapeAt(db, id);
      if r.Decisions? { AnswersIff(r.items, true, db.jobs[id].payload.candidates); }
    }
  }

  lemma FilterCloses(db: Db, id: JobId, r: Result, now: real)
    requires Inv(db) && id.Filter? && JobAt(db, id, Processing)
    requires r.Decisions? && Answers(r.items, true, db.jobs[id].payload.candidates)
    ensures var b, summary := db, RunSummary(id.run);
            var notes := SelectedItems(db, id.run, Rulings(r.items, true));
            ClosedAndSummarised(db, db.(jobs := WithSummary(db.jobs, summary, notes, now)[id := Closed(db.jobs[id], r)]),
                                id, r, summary, Some(id.run), true, now)
  {
    assert ShapeAt(db, id) && LinksAt(db, id);
    ChosenItems(db, id.run, r.items, db.jobs[id].payload.candidates);
    SummaryAppears(r.items, true, db.notes, SelectedItems(db, id.run, Rulings(r.items, true)));
    FreshSummary(db, id, RunSummary(id.run));
  }

  lemma ScreeningCloses(db: Db, id: JobId, r: Result, now: real)
    requires Inv(db) && id.Screen? && JobAt(db, id, Processing)
    requires r.Decisions? && Answers(r.items, false, id.revisions)
    ensures var summary, notes := Screened(id), SelectedNotes(db.jobs[id].payload.notes, Rulings(r.items, false));
            ClosedAndSummarised(db, db.(jobs := WithSummary(db.jobs, summary, notes, now)[id := Closed(db.jobs[id], r)]),
                                id, r, summary, None, false, now)
  {
    assert ShapeAt(db, id) && LinksAt(db, id);
    ChosenNotes(db, id, r.items);
    SummaryAppears(r.items, false, db.notes, SelectedNotes(db.jobs[id].payload.notes, Rulings(r.items, false)));
    FreshSummary(db, id, Screened(id));
  }

  lemma FilterTallies(items: seq<Decision<Revision>>, allowed: seq<Revision>)
    requires Answers(items, true, allowed)
    ensures forall verdict :: Count(Rulings(items, true), verdict) == Tally(items, verdict)
  {
    RulingsAreEntries(items, true, allowed);
    forall verdict ensures Count(Rulings(items, true), verdict) == Tally(items, verdict) {
      TallyIsCount(items, Rulings(items, true), verdict);
    }
  }

  /** The run as its filter leaves it. */
  ghost predicate RunSettled(items: seq<Decision<Revision>>, row: RunRow) {
    && row.status == (if exists c :: Includes(items, c, true) then SummaryQueued else Filtered)
    && row.classified == |items| && row.selected == Tally(items, Include)
    && row.review == Tally(items, Review) && row.rejected == Tally(items, Exclude)
  }

  /** The transaction as one update of the tables. */
  lemma FilterWrites(db: Db, id: JobId, token: nat, r: Result, now: real)
    requires Inv(db) && id.Filter? && Complete(db, id, token, r, now).1 == Done
    ensures r.Decisions? && JobAt(db, id, Processing) && Answers(r.items, true, db.jobs[id].payload.candidates)
    ensures id.run in db.runs && forall c | c in db.jobs[id].payload.candidates :: Collectable(db, id.run, c)
    ensures var rulings := Rulings(r.items, true);
            var notes := SelectedItems(db, id.run, rulings);
            Next(db, CompleteEvent(id, token, r, now))
            == db.(screenings := Upserts(db.screenings, Keyed(id.run, rulings)),
                   items := DecideItems(db.items, id.run, rulings),
                   jobs := WithSummary(db.jobs, RunSummary(id.run), notes, now)[id := Closed(db.jobs[id], r)],
                   runs := db.runs[id.run := RunRow(if notes != [] then SummaryQueued else Filtered, |rulings|,
                                                    Count(rulings, Include), Count(rulings, Review),
                                                    Count(rulings, Exclude))])
  {
    FilterAcceptedIff(db, id, token, r, now);
    assert ShapeAt(db, id) && LinksAt(db, id);
    AnswersIff(r.items, true, db.jobs[id].payload.candidates);
  }

  /** What an accepted filter leaves in the tables of verdicts, items and jobs. */
  ghost predicate FilterRecorded(a: Db, b: Db, id: JobId, r: Result, now: real)
    requires id.Filter? && r.Decisions?
  {
    && RecordedFor(r.items, true, id.run, a.screenings, b.screenings)
    && ItemsDecided(r.items, id.run, a.items, b.items)
    && ClosedAndSummarised(a, b, id, r, RunSummary(id.run), Some(id.run), true, now)
  }

  lemma JobsOnly(a: Db, b: Db, c: Db, id: JobId, r: Result, summary: JobId, run: Option<RunId>, fallback: bool, now: real)
    requires r.Decisions? && ClosedAndSummarised(a, b, id, r, summary, run, fallback, now) && c.jobs == b.jobs
    ensures ClosedAndSummarised(a, c, id, r, summary, run, fallback, now)
  {}

  lemma FilterIsRecorded(db: Db, id: JobId, token: nat, r: Result, now: real)
    requires Inv(db) && id.Filter? && Complete(db, id, token, r, now).1 == Done
    ensures r.Decisions? && FilterRecorded(db, Next(db, CompleteEvent(id, token, r, now)), id, r, now)
  {
    FilterWrites(db, id, token, r, now);
    var allowed, b := db.jobs[id].payload.candidates, Next(db, CompleteEvent(id, token, r, now));
    KeyedRecords(r.items, true, allowed, id.run, db.screenings);
    ItemsAreDecided(r.items, allowed, id.run, db.items);
    FilterCloses(db, id, r, now);
    var notes := SelectedItems(db, id.run, Rulings(r.items, true));
    JobsOnly(db, db.(jobs := WithSummary(db.jobs, RunSummary(id.run), notes, now)[id := Closed(db.jobs[id], r)]), b,
             id, r, RunSummary(id.run), Some(id.run), true, now);
  }

  lemma RunIsSettled(db: Db, id: JobId, token: nat, r: Result, now: real)
    requires Inv(db) && id.Filter? && Complete(db, id, token, r, now).1 == Done
    ensures r.Decisions?
    ensures var b := Next(db, CompleteEvent(id, token, r, now));
            && id.run in b.runs && RunSettled(r.items, b.runs[id.run]) && b.runs == db.runs[id.run := b.runs[id.run]]
            && b.notes == db.notes && b.topics == db.topics && b.profiles == db.profiles
  {
    FilterWrites(db, id, token, r, now);
    FilterTallies(r.items, db.jobs[id].payload.candidates);
    ChosenItems(db, id.run, r.items, db.jobs[id].payload.candidates);
    SummaryAppears(r.items, true, db.notes, SelectedItems(db, id.run, Rulings(r.items, true)));
  }

  /**
   An accepted recommendation filter, entry by entry: the screening row and the item of every id named
   hold the verdict its entry gives, the summary carries exactly the notes whose entry includes them,
   and the run's tallies count the entries.
   */
  lemma FilterRecordsTheAnswer(db: Db, id: JobId, token: nat, r: Result, now: real)
    requires Inv(db) && id.Filter? && Complete(db, id, token, r, now).1 == Done
    ensures r.Decisions?
    ensures var b := Next(db, CompleteEvent(id, token, r, now));
            && FilterRecorded(db, b, id, r, now)
            && id.run in b.runs && RunSettled(r.items, b.runs[id.run]) && b.runs == db.runs[id.run := b.runs[id.run]]
            && b.notes == db.notes && b.topics == db.topics && b.profiles == db.profiles
  {
    FilterIsRecorded(db, id, token, r, now);
    RunIsSettled(db, id, token, r, now);
  }

  /** A note screening is accepted exactly from its holder with a full answer that names every note by candidate id. */
  lemma NoteFilterAcceptedIff(db: Db, id: JobId, token: nat, r: Result, now: real)
    requires Inv(db) && id.Screen?
    ensures Complete(db, id, token, r, now).1 == Done
            <==> Leased(db, id, ClassifyNotes, token, now) && r.Decisions? && Answered(r.items, false, id.revisions)
  {
    if id in db.jobs {
      assert ShapeAt(db, id) && LinksAt(db, id);
      if r.Decisions? { AnswersIff(r.items, false, id.revisions); }
    }
  }

  lemma NoteFilterWrites(db: Db, id: JobId, token: nat, r: Result, now: real)
    requires Inv(db) && id.Screen? && Complete(db, id, token, r, now).1 == Done
    ensures r.Decisions? && JobAt(db, id, Processing) && Answers(r.items, false, id.revisions)
    ensures var rulings := Rulings(r.items, false);
            var notes := SelectedNotes(db.jobs[id].payload.notes, rulings);
            Next(db, CompleteEvent(id, token, r, now))
            == db.(topics := Upserts(db.topics, TopicRows(rulings)),
                   jobs := WithSummary(db.jobs, Screened(id), notes, now)[id := Closed(db.jobs[id], r)])
  {
    NoteFilterAcceptedIff(db, id, token, r, now);
    assert ShapeAt(db, id) && LinksAt(db, id);
    AnswersIff(r.items, false, id.revisions);
  }

  /** An accepted note screening: every topic row holds what its entry says, and the included notes are summarised. */
  lemma NoteFilterRecordsTheAnswer(db: Db, id: JobId, token: nat, r: Result, now: real)
    requires Inv(db) && id.Screen? && Complete(db, id, token, r, now).1 == Done
    ensures r.Decisions?
    ensures var b := Next(db, CompleteEvent(id, token, r, now));
            && RecordedTopics(r.items, db.topics, b.topics)
            && ClosedAndSummarised(db, b, id, r, Screened(id), None, false, now)
            && b == db.(topics := b.topics, jobs := b.jobs)
  {
    NoteFilterWrites(db, id, token, r, now);
    TopicsRecord(r.items, id.revisions, db.topics);
    ScreeningCloses(db, id, r, now);
    var b, notes := Next(db, CompleteEvent(id, token, r, now)), SelectedNotes(db.jobs[id].payload.notes, Rulings(r.items, false));
    JobsOnly(db, db.(jobs := WithSummary(db.jobs, Screened(id), notes, now)[id := Closed(db.jobs[id], r)]), b,
             id, r, Screened(id), None, false, now);
  }

  /** A profile screening is accepted exactly from its holder with a full answer. */
  lemma ProfileFilterAcceptedIff(db: Db, id: JobId, token: nat, r: Result, now: real)
    requires Inv(db) && id.ProfileFilter?
    ensures Complete(db, id, token, r, now).1 == Done
            <==> Leased(db, id, ClassifyProfiles, token, now) && r.Profiles?
                 && Answered(r.profiles, false, db.jobs[id].payload.users)
  {
    if id in db.jobs {
      assert ShapeAt(db, id);
      if r.Profiles? { AnswersIff(r.profiles, false, db.jobs[id].payload.users); }
    }
  }

  lemma ProfileFilterWrites(db: Db, id: JobId, token: nat, r: Result, now: real)
    requires CompleteProfileFilter(db, id, token, r, now).1 == Done
    ensures id in db.jobs && db.jobs[id].run.Some? && r.Profiles?
    ensures Answers(r.profiles, false, db.jobs[id].payload.users)
    ensures CompleteProfileFilter(db, id, token, r, now).0
            == db.(profiles := Upserts(db.profiles, Keyed(db.jobs[id].run.value, Rulings(r.profiles, false))),
                   jobs := db.jobs[id := db.jobs[id].(status := Completed, result := Some(r))])
  {}

  lemma ProfileFilterIsChosen(db: Db, id: JobId, token: nat, r: Result, now: real)
    requires Inv(db) && id.ProfileFilter? && Complete(db, id, token, r, now).1 == Done
    ensures CompleteProfileFilter(db, id, token, r, now).1 == Done
    ensures Next(db, CompleteEvent(id, token, r, now)) == CompleteProfileFilter(db, id, token, r, now).0
    ensures id in db.jobs && db.jobs[id].run == Some(ProfileSweep(id.users))
  {
    if id in db.jobs { assert ShapeAt(db, id); }
  }

  /** An accepted profile screening: every profile row of the sweep holds what its entry says. */
  lemma ProfileFilterRecordsTheAnswer(db: Db, id: JobId, token: nat, r: Result, now: real)
    requires Inv(db) && id.ProfileFilter? && Complete(db, id, token, r, now).1 == Done
    ensures r.Profiles? && id in db.jobs
    ensures var b := Next(db, CompleteEvent(id, token, r, now));
            && RecordedFor(r.profiles, false, ProfileSweep(id.users), db.profiles, b.profiles)
            && b == db.(profiles := b.profiles, jobs := db.jobs[id := db.jobs[id].(status := Completed, result := Some(r))])
  {
    ProfileFilterIsChosen(db, id, token, r, now);
    ProfileFilterWrites(db, id, token, r, now);
    KeyedRecords(r.profiles, false, db.jobs[id].payload.users, ProfileSweep(id.users), db.profiles);
  }

  /** What an accepted answer leaves, by the family of the job. */
  ghost predicate AnswerRecorded(a: Db, b: Db, id: JobId, r: Result, now: real) {
    match id
    case Filter(_) =>
      r.Decisions? && FilterRecorded(a, b, id, r, now)
    case Screen(_) =>
      && r.Decisions? && RecordedTopics(r.items, a.topics, b.topics)
      && ClosedAndSummarised(a, b, id, r, Screened(id), None, false, now)
    case ProfileFilter(users) =>
      r.Profiles? && RecordedFor(r.profiles, false, ProfileSweep(users), a.profiles, b.profiles)
    case _ => true
  }

  lemma AnswerIsRecorded(db: Db, id: JobId, token: nat, r: Result, now: real, after: Db, reply: Reply)
    requires Inv(db) && (after, reply) == Complete(db, id, token, r, now)
    ensures reply == Done ==> AnswerRecorded(db, after, id, r, now)
  {
    assert Next(db, CompleteEvent(id, token, r, now)) == after;
    if reply == Done {
      match id
      case Filter(_) => FilterRecordsTheAnswer(db, id, token, r, now);
      case Screen(_) => NoteFilterRecordsTheAnswer(db, id, token, r, now);
      case ProfileFilter(_) => ProfileFilterRecordsTheAnswer(db, id, token, r, now);
      case _ =>
    }
  }
}
