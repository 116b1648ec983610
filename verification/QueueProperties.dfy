/** What holds over every run of the store: any interleaving of workers, retries, clocks and restarts. */
module QueueProperties {
  import opened Sequences
  import opened Tables
  import opened Transactions
  import opened JobMoves
  import opened QueueInvariant

  /** The store after a run that started from an empty database. */
  function Reached(run: seq<Event>): Db { After(EMPTY, run) }

  lemma ReachedKeeps(run: seq<Event>, i: nat, j: nat)
    requires i <= j <= |run|
    ensures Inv(Reached(run[..i])) && Keeps(Reached(run[..i]), Reached(run[..j]))
  {
    EmptyIsFine();
    LaterGrows(EMPTY, run, i, j);
  }

  lemma ReachedInv(run: seq<Event>)
    ensures Inv(Reached(run))
  {
    ReachedKeeps(run, |run|, |run|);
    assert run[..|run|] == run;
  }

  // ---- Fenced, exactly-once completion --------------------------------------------------

  predicate Accepts(db: Db, e: Event) {
    e.CompleteEvent? && Complete(db, e.id, e.token, e.result, e.now).1 == Done
  }

  predicate Issues(db: Db, e: Event, id: JobId) {
    e.ClaimEvent? && e.id == id && ClaimAnswer(db.jobs, e.lane, e.now, id)
  }

  /** The token of the last claim that a run granted on a job. */
  function LastToken(run: seq<Event>, id: JobId): Option<nat> {
    if run == [] then None
    else if Issues(Reached(run[..|run| - 1]), run[|run| - 1], id) then Some(Reached(run[..|run| - 1]).nextToken)
    else LastToken(run[..|run| - 1], id)
  }

  lemma {:induction false} LeaseIsLastIssued(run: seq<Event>, id: JobId)
    requires id in Reached(run).jobs && Reached(run).jobs[id].lease.Some?
    ensures Reached(run).jobs[id].lease == LastToken(run, id)
  {
    var front, e := run[..|run| - 1], run[|run| - 1];
    var a, b := Reached(front), Reached(run);
    ReachedInv(front);
    NextKeeps(a, e);
    if !Issues(a, e, id) {
      assert JobGrows(a, b, id) && ShapeAt(b, id);
      TokensAndParts(a, e);
      LeaseIsLastIssued(front, id);
    }
  }

  predicate Suits(kind: Kind, r: Result) {
    match kind
    case ClassifyProfiles => r.Profiles?
    case ClassifyRecommendations | ClassifyNotes => r.Decisions?
    case _ => ValidSummary(r)
  }

  /** From `a` to `b` the job was closed by the holder of its lease, with this answer. */
  predicate ClosedBy(a: Db, b: Db, id: JobId, token: nat, r: Result) {
    && JobAt(a, id, Processing) && a.jobs[id].lease == Some(token)
    && id in b.jobs && Rank(b.jobs[id].status) >= 1
    && b.jobs[id].result == Some(r) && b.jobs[id].lease == Some(token) && b.jobs[id].kind == a.jobs[id].kind
    && Suits(a.jobs[id].kind, r)
  }

  lemma FilterCloses(db: Db, id: JobId, token: nat, r: Result, now: real)
    requires CompleteFilter(db, id, token, r, now).1 == Done
    ensures ClosedBy(db, CompleteFilter(db, id, token, r, now).0, id, token, r)
  {}

  lemma NoteFilterCloses(db: Db, id: JobId, token: nat, r: Result, now: real)
    requires CompleteNoteFilter(db, id, token, r, now).1 == Done
    ensures ClosedBy(db, CompleteNoteFilter(db, id, token, r, now).0, id, token, r)
  {}

  lemma ProfileFilterCloses(db: Db, id: JobId, token: nat, r: Result, now: real)
    requires CompleteProfileFilter(db, id, token, r, now).1 == Done
    ensures ClosedBy(db, CompleteProfileFilter(db, id, token, r, now).0, id, token, r)
  {}

  lemma SummaryCloses(db: Db, id: JobId, token: nat, r: Result, now: real)
    requires CompleteSummary(db, id, token, r, now).1 == Done && id in db.jobs && !Classifies(db.jobs[id].kind)
    ensures ClosedBy(db, CompleteSummary(db, id, token, r, now).0, id, token, r)
  {}

  lemma CompleteCloses(db: Db, id: JobId, token: nat, r: Result, now: real)
    requires Complete(db, id, token, r, now).1 == Done
    ensures ClosedBy(db, Complete(db, id, token, r, now).0, id, token, r)
  {
    match ReadKind(db, id)
    case Some(ClassifyRecommendations) => FilterCloses(db, id, token, r, now);
    case Some(ClassifyProfiles) => ProfileFilterCloses(db, id, token, r, now);
    case Some(ClassifyNotes) => NoteFilterCloses(db, id, token, r, now);
    case _ => SummaryCloses(db, id, token, r, now);
  }

  lemma AcceptedEffect(db: Db, e: Event)
    requires Inv(db) && Accepts(db, e)
    ensures db.jobs.Keys >= {e.id} && ClosedBy(db, Next(db, e), e.id, e.token, e.result) && db.jobs[e.id].result.None?
  {
    CompleteCloses(db, e.id, e.token, e.result, e.now);
    assert ShapeAt(db, e.id);
  }

  lemma CompletionStays(run: seq<Event>, i: nat, k: nat)
    requires i < k <= |run| && Accepts(Reached(run[..i]), run[i])
    ensures run[i].id in Reached(run[..k]).jobs
    ensures var job := Reached(run[..k]).jobs[run[i].id];
            job.result == Some(run[i].result) && job.lease == Some(run[i].token) && Rank(job.status) >= 1
  {
    ReachedKeeps(run, i, i);
    AcceptedEffect(Reached(run[..i]), run[i]);
    assert run[..i + 1][..i] == run[..i];
    ReachedKeeps(run, i + 1, k);
    assert JobGrows(Reached(run[..i + 1]), Reached(run[..k]), run[i].id);
  }

  /** A closed job can no longer be claimed, completed, failed or retried. */
  lemma ClosedIsClosed(db: Db, e: Event, id: JobId)
    requires id in db.jobs && Rank(db.jobs[id].status) >= 1
    ensures !Issues(db, e, id)
    ensures e.CompleteEvent? && e.id == id ==> !Accepts(db, e) && Next(db, e) == db
    ensures e.FailEvent? && e.id == id ==> Next(db, e) == db
    ensures e.RetryJobEvent? && e.id == id ==> Next(db, e) == db
    ensures e.RetryFilterEvent? && id == Filter(e.run) ==> Next(db, e) == db
  {}

  /**
   A completion is accepted at most once, from the last lease granted; afterwards the job is never
   claimed, completed, failed or retried again, and its result stays what was accepted.
   */
  lemma CompletionIsFinal(run: seq<Event>, i: nat, k: nat)
    requires i < k < |run| && Accepts(Reached(run[..i]), run[i])
    ensures LastToken(run[..i], run[i].id) == Some(run[i].token)
    ensures run[i].id in Reached(run[..k]).jobs
    ensures Reached(run[..k]).jobs[run[i].id].result == Some(run[i].result)
    ensures Reached(run[..k]).jobs[run[i].id].lease == Some(run[i].token)
    ensures !Issues(Reached(run[..k]), run[k], run[i].id)
    ensures run[k].CompleteEvent? && run[k].id == run[i].id ==> !Accepts(Reached(run[..k]), run[k])
    ensures (run[k].CompleteEvent? || run[k].FailEvent? || run[k].RetryJobEvent?) && run[k].id == run[i].id
            ==> Next(Reached(run[..k]), run[k]) == Reached(run[..k])
  {
    ReachedKeeps(run, i, i);
    AcceptedEffect(Reached(run[..i]), run[i]);
    LeaseIsLastIssued(run[..i], run[i].id);
    CompletionStays(run, i, k);
    ClosedIsClosed(Reached(run[..k]), run[k], run[i].id);
  }

  /** Whatever carries a token other than the current lease changes nothing. */
  lemma StaleTokensAreFenced(db: Db, e: Event)
    requires e.HeartbeatEvent? || e.CompleteEvent? || e.FailEvent?
    requires e.id in db.jobs ==> db.jobs[e.id].lease != Some(e.token)
    ensures Next(db, e) == db && !Accepts(db, e)
  {}

  /** A closed job answers its own answer again. */
  lemma ClosedAnswers(a: Db, b: Db, id: JobId, token: nat, r: Result, now: real)
    requires ClosedBy(a, b, id, token, r)
    ensures Complete(b, id, token, r, now) == (b, if Classifies(b.jobs[id].kind) then Conflict else Duplicate)
  {}

  /** Repeating an accepted answer: summaries are told it is a duplicate, screenings that the lease is gone. */
  lemma RepeatedAnswer(db: Db, e: Event, later: real)
    requires Inv(db) && Accepts(db, e)
    ensures e.id in db.jobs
    ensures Complete(Next(db, e), e.id, e.token, e.result, later)
            == (Next(db, e), if Classifies(db.jobs[e.id].kind) then Conflict else Duplicate)
  {
    AcceptedEffect(db, e);
    ClosedAnswers(db, Next(db, e), e.id, e.token, e.result, later);
  }

  /** Without the current lease, `complete` changes nothing whichever kind it goes by. */
  lemma NoLeaseNoCompletion(kind: Option<Kind>, b: Db, id: JobId, token: nat, r: Result, now: real)
    requires id in b.jobs ==> b.jobs[id].lease != Some(token)
    ensures CompleteAs(kind, b, id, token, r, now).0 == b && CompleteAs(kind, b, id, token, r, now).1 in {Conflict, Invalid}
  {}

  /**
   `complete` reads the job's kind in one transaction and acts in another. Whatever runs in between,
   it does what a single transaction would have done, for every token already issued at the read.
   */
  lemma KindCannotGoStale(a: Db, between: seq<Event>, id: JobId, token: nat, r: Result, now: real)
    requires Inv(a) && token < a.nextToken
    ensures var b := After(a, between);
            var split, atomic := CompleteAs(ReadKind(a, id), b, id, token, r, now), Complete(b, id, token, r, now);
            && split.0 == atomic.0 && (split.1 == Done <==> atomic.1 == Done)
            && (id in a.jobs ==> split == atomic)
  {
    var b := After(a, between);
    RunKeeps(a, between);
    assert JobGrows(a, b, id);
    if id !in a.jobs {
      NoLeaseNoCompletion(ReadKind(a, id), b, id, token, r, now);
      NoLeaseNoCompletion(ReadKind(b, id), b, id, token, r, now);
    } else {
      assert ReadKind(a, id) == ReadKind(b, id);
    }
  }

  /** Progress never goes back, and a result is present exactly on completed, ready and sent jobs. */
  lemma ProgressIsMonotone(run: seq<Event>, i: nat, j: nat, id: JobId)
    requires i <= j <= |run| && id in Reached(run[..i]).jobs
    ensures id in Reached(run[..j]).jobs
    ensures var a, b := Reached(run[..i]).jobs[id], Reached(run[..j]).jobs[id];
            && Rank(a.status) <= Rank(b.status)
            && (a.result.Some? ==> b.result == a.result)
            && (b.result.Some? <==> b.status in {Completed, Ready, Sent})
  {
    ReachedKeeps(run, i, j);
    assert JobGrows(Reached(run[..i]), Reached(run[..j]), id) && ShapeAt(Reached(run[..j]), id);
  }
}
