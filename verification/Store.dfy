/** The edge store: one method per transaction, each proved against its function in Transactions. */
module EdgeStore {
  import opened Sequences
  import opened Tables
  import opened QueueInvariant
  import T = Transactions
  import S = Screening
  import L = Leases
  import A = ScreeningAnswers

  class Store {
    var jobs: map<JobId, Job>
    var notes: map<Revision, NoteRow>
    var runs: map<RunId, RunRow>
    var items: map<(RunId, Revision), ItemRow>
    var screenings: map<(RunId, Revision), Verdict>
    var topics: map<Revision, Verdict>
    var profiles: map<(RunId, string), Verdict>
    var parts: set<(JobId, nat)>
    var nextToken: nat

    function State(): Db
      reads this
    {
      Db(jobs, notes, runs, items, screenings, topics, profiles, parts, nextToken)
    }

    ghost predicate Valid()
      reads this
    {
      Inv(State())
    }

    /** Opening a database backfills run states; on one this code wrote, that changes nothing. */
    constructor Open(saved: Db)
      ensures State() == T.Reconcile(saved)
      ensures Inv(saved) ==> State() == saved && Valid()
    {
      jobs, notes, items, parts := saved.jobs, saved.notes, saved.items, saved.parts;
      screenings, topics, profiles, nextToken := saved.screenings, saved.topics, saved.profiles, saved.nextToken;
      runs := map run | run in saved.runs :: T.Reconciled(saved.jobs, run, saved.runs[run]);
      new;
      if Inv(saved) { ReconcileIsIdentity(saved); }
    }

    /** What an exception inside a transaction leaves behind. */
    method Rollback(saved: Db)
      modifies this
      ensures State() == saved
    {
      jobs, notes, items, parts := saved.jobs, saved.notes, saved.items, saved.parts;
      screenings, topics, profiles, nextToken := saved.screenings, saved.topics, saved.profiles, saved.nextToken;
      runs := saved.runs;
    }

    // ---- Notes --------------------------------------------------------------------------

    method AddNote(note: Note, now: real) returns (inserted: bool)
      requires Valid()
      modifies this
      ensures State() == T.AddNote(old(State()), note, now)
      ensures inserted <==> note.revision !in old(notes)
      ensures Valid()
    {
      assert Inv(T.AddNote(State(), note, now)) by { AddNoteKeeps(State(), note, now); }
      inserted := note.revision !in notes;
      if inserted { notes := notes[note.revision := NoteRow(note, now, None)]; }
    }

    /** SELECT of unassigned notes ORDER BY first_seen LIMIT `limit`. */
    method SelectPending(limit: nat) returns (rows: seq<Revision>)
      ensures T.OldestUnassigned(notes, rows, limit)
      ensures rows == [] <==> limit == 0 || S.UnassignedNotes(notes) == {}
    {
      rows := [];
      var pool := set r | r in notes && T.Unassigned(notes, r);
      while pool != {} && |rows| < limit
        invariant pool == S.UnassignedNotes(notes) - Elements(rows)
        invariant Distinct(rows) && |rows| <= limit
        invariant forall r | r in rows :: T.Unassigned(notes, r)
        invariant forall i, j | 0 <= i < j < |rows| && rows[i] in notes && rows[j] in notes ::
                    notes[rows[i]].firstSeen <= notes[rows[j]].firstSeen
        invariant forall q, r | q in rows && q in notes && r in pool :: notes[q].firstSeen <= notes[r].firstSeen
        invariant rows == [] ==> pool == S.UnassignedNotes(notes)
        decreases pool
      {
        ghost var least := OldestOf(notes, pool);
        var oldest :| oldest in pool && forall r | r in pool :: notes[oldest].firstSeen <= notes[r].firstSeen;
        rows := rows + [oldest];
        pool := pool - {oldest};
      }
      forall r | r in notes && T.Unassigned(notes, r) && r !in rows ensures r in pool {
        assert r in S.UnassignedNotes(notes) && r !in Elements(rows);
      }
      if rows != [] { assert rows[0] in rows && rows[0] in S.UnassignedNotes(notes); }
    }

    /** Watched notes go to a summary at once; without any, all rows go to a screening. */
    method ChooseBatch(rows: seq<Revision>) returns (id: JobId)
      requires forall r | r in rows :: r in notes
      ensures id == T.PendingBatch(notes, rows)
    {
      var watchRows, screenRows := [], [];
      for i := 0 to |rows|
        invariant watchRows == KeepIn(rows[..i], T.WatchedNotes(notes))
        invariant watchRows == [] ==> screenRows == rows[..i]
      {
        assert rows[..i + 1][..i] == rows[..i];
        if notes[rows[i]].body.Watched() {
          watchRows := watchRows + [rows[i]];
        } else {
          screenRows := screenRows + [rows[i]];
        }
      }
      assert rows[..|rows|] == rows;
      id := if watchRows != [] then Watch(watchRows) else Screen(screenRows);
    }

    /** None when nothing is pending. */
    method EnqueuePending(limit: nat, now: real) returns (id: Option<JobId>, ghost rows: seq<Revision>)
      requires Valid()
      modifies this
      ensures T.OldestUnassigned(old(notes), rows, limit)
      ensures State() == T.EnqueuePending(old(State()), rows, limit, now)
      ensures id == if rows == [] then None else Some(T.PendingBatch(old(notes), rows))
      ensures rows == [] <==> limit == 0 || S.UnassignedNotes(old(notes)) == {}
      ensures Valid()
    {
      var chosen := SelectPending(limit);
      rows := chosen;
      assert Inv(T.EnqueuePending(State(), chosen, limit, now)) by { EnqueuePendingKeeps(State(), chosen, limit, now); }
      if chosen == [] { return None, rows; }
      S.NoCollision(State(), chosen, limit);
      var job := ChooseBatch(chosen);
      var bodies := ReadBodies(job.revisions);
      jobs := jobs[job := T.NewJob(KindOf(job), T.NotesPayload(bodies, if job.Screen? then job.revisions else []), now, None)];
      AssignNotes(job.revisions, OwnedBy(job));
      assert State() == T.EnqueuePending(old(State()), chosen, limit, now);
      id := Some(job);
    }

    method ReadBodies(rows: seq<Revision>) returns (bodies: seq<Note>)
      requires forall r | r in rows :: r in notes
      ensures bodies == T.Bodies(notes, rows)
    {
      bodies := [];
      for i := 0 to |rows|
        invariant |bodies| == i
        invariant forall k | 0 <= k < i :: bodies[k] == notes[rows[k]].body
      {
        bodies := bodies + [notes[rows[i]].body];
      }
    }

    method AssignNotes(rows: seq<Revision>, owner: Owner)
      requires forall r | r in rows :: r in notes
      modifies this`notes
      ensures notes == T.Assign(old(notes), Elements(rows), owner)
    {
      for i := 0 to |rows|
        invariant notes == T.Assign(old(notes), Elements(rows[..i]), owner)
      {
        assert Elements(rows[..i + 1]) == Elements(rows[..i]) + {rows[i]};
        notes := notes[rows[i] := notes[rows[i]].(owner := Some(owner))];
      }
      assert rows[..|rows|] == rows;
    }

    /** `while store.enqueue_pending(): pass` ends, and leaves no note behind. */
    method Drain(now: real)
      requires Valid()
      modifies this
      ensures Evolves(old(State()), State())
      ensures S.UnassignedNotes(notes) == {}
      ensures notes.Keys == old(notes).Keys
      ensures forall r | r in old(notes) && old(notes)[r].owner.None? ::
                r in notes && notes[r].owner.Some? && notes[r].owner.value.OwnedBy?
                && (var id := notes[r].owner.value.job;
                    id !in old(jobs) && r in (if id.Watch? || id.Screen? then id.revisions else []))
      ensures Valid()
    {
      EvolvesReflexive(State());
      var more := true;
      while more
        invariant Valid() && Evolves(old(State()), State()) && notes.Keys == old(notes).Keys
        invariant !more ==> S.UnassignedNotes(notes) == {}
        invariant forall r | r in old(notes) && old(notes)[r].owner.None? && notes[r].owner.Some? ::
                    notes[r].owner.value.OwnedBy?
                    && (var id := notes[r].owner.value.job;
                        id !in old(jobs) && r in (if id.Watch? || id.Screen? then id.revisions else []))
        decreases S.UnassignedNotes(notes), more
      {
        ghost var before := State();
        var id, rows := EnqueuePending(T.PENDING_LIMIT, now);
        EnqueuePendingKeeps(before, rows, T.PENDING_LIMIT, now);
        EvolvesTransitive(old(State()), before, State());
        if rows != [] {
          S.BatchShrinksPool(before, rows, T.PENDING_LIMIT, now);
          S.NoCollision(before, rows, T.PENDING_LIMIT);
          ghost var batch := T.PendingBatch(before.notes, rows);
          assert JobGrows(old(State()), before, batch);
        }
        more := id.Some?;
      }
      forall r | r in old(notes) && old(notes)[r].owner.None? ensures r in notes && notes[r].owner.Some? {
        assert r !in S.UnassignedNotes(notes);
      }
    }

    /** Reserves the note for its single-note job unless it is already routed elsewhere. */
    method ReserveNote(note: Note, owner: Owner, now: real)
      modifies this`notes
      ensures notes == T.ClaimNote(old(notes), note, owner, now)
      ensures note.revision in notes && notes[note.revision].owner.Some?
      ensures forall r | r in old(notes) && old(notes)[r].owner.Some? :: r in notes && notes[r] == old(notes)[r]
    {
      var r := note.revision;
      if r !in notes {
        notes := notes[r := NoteRow(note, now, Some(owner))];
      } else if notes[r].owner.None? {
        notes := notes[r := notes[r].(owner := Some(owner))];
      }
    }

    /** Folds another request into an existing single-note job. */
    method ReuseJob(id: JobId, note: Note, deliver: bool, live: bool)
      requires id in jobs
      modifies this`jobs
      ensures jobs == old(jobs)[id := T.Reuse(old(jobs)[id], note, deliver, live)]
      ensures jobs[id].payload.deliver <==> deliver || old(jobs)[id].payload.deliver
      ensures jobs[id].status != Failed && (jobs[id].status == Completed ==> !jobs[id].payload.deliver)
      ensures jobs[id].result == old(jobs)[id].result && Rank(jobs[id].status) >= Rank(old(jobs)[id].status)
    {
      var row := jobs[id];
      var payload := row.payload;
      var requested := deliver || payload.deliver;
      payload := payload.(deliver := requested);
      if live && !payload.live {
        payload := payload.(live := true, notes := [note]);
      }
      row := row.(payload := payload);
      if row.status == Failed {
        row := row.(status := Pending, available := 0.0, attempts := 0, lease := None, leaseUntil := None);
      } else if row.status == Completed && requested {
        row := row.(status := Ready);
      }
      jobs := jobs[id := row];
    }

    method EnqueueSingleNote(note: Note, deliver: bool, live: bool, now: real)
      returns (id: JobId, status: Status, duplicate: bool)
      requires Valid()
      modifies this
      ensures State() == T.EnqueueSingle(old(State()), note, deliver, live, now)
      ensures id == Single(note.revision) && id in jobs && status == jobs[id].status
      ensures duplicate <==> id in old(jobs)
      ensures Valid()
    {
      assert Inv(T.EnqueueSingle(State(), note, deliver, live, now)) by {
        EnqueueSingleKeeps(State(), note, deliver, live, now);
      }
      id := Single(note.revision);
      ReserveNote(note, OwnedBy(id), now);
      duplicate := id in jobs;
      if duplicate {
        ReuseJob(id, note, deliver, live);
      } else {
        jobs := jobs[id := T.NewJob(SingleNote, Payload([note], [], [], deliver, live), now, None)];
      }
      status := jobs[id].status;
    }

    // ---- Leases -------------------------------------------------------------------------

    /** Grants the first eligible job of the lane, or nothing when there is none. */
    method Claim(lane: T.Lane, now: real) returns (granted: Option<(JobId, nat, Payload)>)
      requires Valid()
      modifies this
      ensures Valid()
      ensures granted.None? <==> L.EligibleJobs(old(jobs), lane, now) == {}
      ensures granted.None? ==> State() == old(State())
      ensures granted.Some? ==>
                var (id, token, payload) := granted.value;
                && T.ClaimAnswer(old(jobs), lane, now, id)
                && token == old(nextToken) && payload == old(jobs)[id].payload
                && State() == T.Claim(old(State()), lane, now, id)
                && L.Takeable(old(jobs)[id], lane, now) && (old(jobs)[id].status == Pending ==> old(jobs)[id].available <= now)
    {
      L.ClaimGrantedIffEligible(jobs, lane, now);
      if !exists id | id in jobs :: T.Eligible(jobs[id], lane, now) { return None; }
      ghost var witness0 :| witness0 in jobs && T.Eligible(jobs[witness0], lane, now);
      assert witness0 in L.EligibleJobs(jobs, lane, now);
      var id :| T.ClaimAnswer(jobs, lane, now, id);
      assert Inv(T.Claim(State(), lane, now, id)) by { ClaimKeeps(State(), lane, now, id); }
      var job := jobs[id];
      granted := Some((id, nextToken, job.payload));
      jobs := jobs[id := job.(status := Processing, lease := Some(nextToken),
                              leaseUntil := Some(now + T.LEASE_SECONDS), attempts := job.attempts + 1)];
      nextToken := nextToken + 1;
    }

    method Heartbeat(id: JobId, token: nat, now: real) returns (extended: bool)
      requires Valid()
      modifies this
      ensures State() == T.Heartbeat(old(State()), id, token, now)
      ensures extended <==> T.Holds(old(State()), id, token, now)
      ensures Valid()
    {
      assert Inv(T.Heartbeat(State(), id, token, now)) by { HeartbeatKeeps(State(), id, token, now); }
      extended := T.Holds(State(), id, token, now);
      if extended {
        jobs := jobs[id := jobs[id].(leaseUntil := Some(now + T.LEASE_SECONDS))];
      }
    }

    method Fail(id: JobId, token: nat, now: real) returns (recorded: bool)
      requires Valid()
      modifies this
      ensures State() == T.Fail(old(State()), id, token, now)
      ensures recorded <==> T.FailAccepted(old(State()), id, token)
      ensures Valid()
    {
      assert Inv(T.Fail(State(), id, token, now)) by { FailKeeps(State(), id, token, now); }
      recorded := T.FailAccepted(State(), id, token);
      if recorded {
        var job := jobs[id];
        var terminal := job.attempts >= T.MAX_ATTEMPTS;
        jobs := jobs[id := job.(status := if terminal then Failed else Pending,
                                available := now + T.Backoff(job.attempts) as real)];
        if terminal && job.kind == ClassifyRecommendations && job.run.Some? {
          var run := job.run.value;
          runs := T.SetRun(runs, run, {FilterQueued}, FilterFailed);
          items := T.SetItems(items, run, {ItemQueued}, ItemFilterFailed);
        }
      }
    }

    // ---- Completion ---------------------------------------------------------------------

    /** Reads the kind in one transaction and completes in another. */
    method Complete(id: JobId, token: nat, r: Result, now: real) returns (reply: T.Reply)
      requires Valid()
      modifies this
      ensures (State(), reply) == T.Complete(old(State()), id, token, r, now)
      ensures reply == T.Done ==> A.AnswerRecorded(old(State()), State(), id, r, now)
      ensures Valid()
    {
      ghost var before := State();
      var kind := if id in jobs then Some(jobs[id].kind) else None;
      match kind {
        case Some(ClassifyRecommendations) => reply := CompleteFilter(id, token, r, now);
        case Some(ClassifyProfiles) => reply := CompleteProfileFilter(id, token, r, now);
        case Some(ClassifyNotes) => reply := CompleteNoteFilter(id, token, r, now);
        case _ => reply := CompleteSummary(id, token, r, now);
      }
      A.AnswerIsRecorded(before, id, token, r, now, State(), reply);
    }

    method CompleteSummary(id: JobId, token: nat, r: Result, now: real) returns (reply: T.Reply)
      requires Valid() && (id in jobs ==> !Classifies(jobs[id].kind))
      modifies this
      ensures (State(), reply) == T.CompleteSummary(old(State()), id, token, r, now)
      ensures Valid()
    {
      assert Inv(T.CompleteSummary(State(), id, token, r, now).0) by { CompleteSummaryKeeps(State(), id, token, r, now); }
      if !T.ValidSummary(r) { return T.Invalid; }
      if id in jobs && jobs[id].lease == Some(token) && jobs[id].result == Some(r) { return T.Duplicate; }
      if !T.Holds(State(), id, token, now) { return T.Conflict; }
      var job := jobs[id];
      var next := Ready;
      if job.kind == SingleNote || job.kind == DailyDigest {
        next := if job.payload.deliver then Ready else Completed;
      }
      jobs := jobs[id := job.(status := next, result := Some(r))];
      if job.run.Some? && job.kind == Summary {
        runs := T.SetRun(runs, job.run.value, {SummaryQueued}, SummaryReady);
      }
      return T.Done;
    }

    /** Records the decisions of a run one by one, stopping at the first that is not acceptable. */
    method RecordRun(run: RunId, decisions: seq<Decision<Revision>>)
      returns (ok: bool, counts: map<Verdict, nat>, selected: seq<Note>)
      modifies this`screenings, this`items
      ensures ok <==> forall k | 0 <= k < |decisions| :: T.Acceptable(decisions[k], true)
      ensures ok ==>
                var rulings := T.Rulings(decisions, true);
                && screenings == Upserts(old(screenings), T.Keyed(run, rulings))
                && items == T.DecideItems(old(items), run, rulings)
                && Tally(counts, rulings)
                && selected == T.SelectedItems(old(State()), run, rulings)
    {
      counts, selected := map[Include := 0, Review := 0, Exclude := 0], [];
      ghost var before := State();
      ghost var rulings: seq<T.Ruling<Revision>> := [];
      forall v: Verdict ensures v in counts && counts[v] == T.Count(rulings, v) {
        match v case Include => case Review => case Exclude =>
      }
      for i := 0 to |decisions|
        invariant forall k | 0 <= k < i :: T.Acceptable(decisions[k], true)
        invariant |rulings| == i && forall k | 0 <= k < i :: rulings[k] == T.RulingOf(decisions[k], true)
        invariant screenings == Upserts(before.screenings, T.Keyed(run, rulings))
        invariant items == T.DecideItems(before.items, run, rulings) && items.Keys == before.items.Keys
        invariant Tally(counts, rulings)
        invariant selected == T.SelectedItems(before, run, rulings)
      {
        if !T.Acceptable(decisions[i], true) { return false, counts, selected; }
        var ruling := T.RulingOf(decisions[i], true);
        OneMoreRuling(before, run, rulings, ruling);
        rulings := rulings + [ruling];
        screenings := screenings[(run, ruling.id) := ruling.verdict];
        if (run, ruling.id) in items {
          items := items[(run, ruling.id) := items[(run, ruling.id)].(state := Decided(ruling.verdict))];
        }
        counts := counts[ruling.verdict := counts[ruling.verdict] + 1];
        if ruling.verdict == Include && (run, ruling.id) in items && ruling.id in notes {
          selected := selected + [notes[ruling.id].body];
        }
      }
      assert rulings == T.Rulings(decisions, true);
      ok := true;
    }

    /** Closes the filter, queues the summary of what was selected, and settles the run. */
    method CloseFilter(id: JobId, r: Result, run: RunId, row: RunRow, selected: seq<Note>, now: real)
      requires id in jobs
      modifies this`jobs, this`runs
      ensures jobs == T.WithSummary(old(jobs), RunSummary(run), selected, now)[id := T.Closed(old(jobs)[id], r)]
      ensures runs == if run in old(runs) then old(runs)[run := row] else old(runs)
    {
      var job := jobs[id];
      var summary := RunSummary(run);
      if selected != [] && summary !in jobs {
        jobs := jobs[summary := T.NewJob(Summary, T.NotesPayload(selected, []), now, Some(run))];
      }
      jobs := jobs[id := job.(status := Completed, result := Some(r))];
      if run in runs { runs := runs[run := row]; }
    }

    /** A decision that is not acceptable rolls back everything recorded before it. */
    method CompleteFilter(id: JobId, token: nat, r: Result, now: real) returns (reply: T.Reply)
      requires Valid()
      modifies this
      ensures State() == T.CompleteFilter(old(State()), id, token, r, now).0
      ensures reply == T.CompleteFilter(old(State()), id, token, r, now).1
      ensures Valid()
    {
      assert Inv(T.CompleteFilter(State(), id, token, r, now).0) by {
        CompleteFilterKeeps(State(), id, token, r, now);
      }
      if !r.Decisions? { return T.Invalid; }
      if !T.HoldsKind(State(), id, ClassifyRecommendations, token, now) || jobs[id].run.None? { return T.Conflict; }
      var run := jobs[id].run.value;
      if !T.Covers(r.items, true, jobs[id].payload.candidates) { return T.Invalid; }
      var saved := State();
      var ok, counts, selected := RecordRun(run, r.items);
      if !ok {
        Rollback(saved);
        return T.Invalid;
      }
      var row := RunRow(if selected != [] then SummaryQueued else Filtered, |r.items|,
                        counts[Include], counts[Review], counts[Exclude]);
      CloseFilter(id, r, run, row, selected, now);
      return T.Done;
    }

    method RecordTopics(candidates: seq<Note>, decisions: seq<Decision<Revision>>)
      returns (ok: bool, selected: seq<Note>)
      modifies this`topics
      ensures ok <==> forall k | 0 <= k < |decisions| :: T.Acceptable(decisions[k], false)
      ensures ok ==>
                var rulings := T.Rulings(decisions, false);
                && topics == Upserts(old(topics), T.TopicRows(rulings))
                && selected == T.SelectedNotes(candidates, rulings)
    {
      selected := [];
      ghost var before := topics;
      ghost var rulings: seq<T.Ruling<Revision>> := [];
      for i := 0 to |decisions|
        invariant forall k | 0 <= k < i :: T.Acceptable(decisions[k], false)
        invariant |rulings| == i && forall k | 0 <= k < i :: rulings[k] == T.RulingOf(decisions[k], false)
        invariant topics == Upserts(before, T.TopicRows(rulings))
        invariant selected == T.SelectedNotes(candidates, rulings)
      {
        if !T.Acceptable(decisions[i], false) { return false, selected; }
        var ruling := T.RulingOf(decisions[i], false);
        OneMoreTopic(before, candidates, rulings, ruling);
        rulings := rulings + [ruling];
        topics := topics[ruling.id := ruling.verdict];
        var note := T.FindNote(candidates, ruling.id);
        if ruling.verdict == Include && note.Some? { selected := selected + [note.value]; }
      }
      assert rulings == T.Rulings(decisions, false);
      ok := true;
    }

    /** Closes the screening and queues the summary of what was selected. */
    method CloseScreening(id: JobId, r: Result, selected: seq<Note>, now: real)
      requires id in jobs
      modifies this`jobs
      ensures jobs == T.WithSummary(old(jobs), Screened(id), selected, now)[id := T.Closed(old(jobs)[id], r)]
    {
      var job := jobs[id];
      var summary := Screened(id);
      if selected != [] && summary !in jobs {
        jobs := jobs[summary := T.NewJob(Summary, T.NotesPayload(selected, []), now, None)];
      }
      jobs := jobs[id := job.(status := Completed, result := Some(r))];
    }

    method CompleteNoteFilter(id: JobId, token: nat, r: Result, now: real) returns (reply: T.Reply)
      requires Valid()
      modifies this
      ensures State() == T.CompleteNoteFilter(old(State()), id, token, r, now).0
      ensures reply == T.CompleteNoteFilter(old(State()), id, token, r, now).1
      ensures Valid()
    {
      assert Inv(T.CompleteNoteFilter(State(), id, token, r, now).0) by { CompleteNoteFilterKeeps(State(), id, token, r, now); }
      if !r.Decisions? { return T.Invalid; }
      if !T.HoldsKind(State(), id, ClassifyNotes, token, now) { return T.Conflict; }
      var job := jobs[id];
      if !T.Covers(r.items, false, job.payload.candidates) { return T.Invalid; }
      var saved := State();
      var ok, selected := RecordTopics(job.payload.notes, r.items);
      if !ok {
        Rollback(saved);
        return T.Invalid;
      }
      CloseScreening(id, r, selected, now);
      return T.Done;
    }

    method RecordProfiles(run: RunId, decisions: seq<Decision<string>>) returns (ok: bool)
      modifies this`profiles
      ensures ok <==> forall k | 0 <= k < |decisions| :: T.Acceptable(decisions[k], false)
      ensures ok ==> profiles == Upserts(old(profiles), T.Keyed(run, T.Rulings(decisions, false)))
    {
      ghost var rulings: seq<T.Ruling<string>> := [];
      for i := 0 to |decisions|
        invariant forall k | 0 <= k < i :: T.Acceptable(decisions[k], false)
        invariant |rulings| == i && forall k | 0 <= k < i :: rulings[k] == T.RulingOf(decisions[k], false)
        invariant profiles == Upserts(old(profiles), T.Keyed(run, rulings))
      {
        if !T.Acceptable(decisions[i], false) { return false; }
        var ruling := T.RulingOf(decisions[i], false);
        OneMoreRow(old(profiles), T.Keyed(run, rulings), T.Keyed(run, rulings + [ruling]));
        rulings := rulings + [ruling];
        profiles := profiles[(run, ruling.id) := ruling.verdict];
      }
      assert rulings == T.Rulings(decisions, false);
      ok := true;
    }

    method CompleteProfileFilter(id: JobId, token: nat, r: Result, now: real) returns (reply: T.Reply)
      requires Valid()
      modifies this
      ensures State() == T.CompleteProfileFilter(old(State()), id, token, r, now).0
      ensures reply == T.CompleteProfileFilter(old(State()), id, token, r, now).1
      ensures Valid()
    {
      assert Inv(T.CompleteProfileFilter(State(), id, token, r, now).0) by {
        CompleteProfileFilterKeeps(State(), id, token, r, now);
      }
      if !r.Profiles? { return T.Invalid; }
      if !T.HoldsKind(State(), id, ClassifyProfiles, token, now) || jobs[id].run.None? { return T.Conflict; }
      var run := jobs[id].run.value;
      if !T.Covers(r.profiles, false, jobs[id].payload.users) { return T.Invalid; }
      var saved := State();
      var ok := RecordProfiles(run, r.profiles);
      if !ok {
        Rollback(saved);
        return T.Invalid;
      }
      jobs := jobs[id := jobs[id].(status := Completed, result := Some(r))];
      return T.Done;
    }

    // ---- Delivery -----------------------------------------------------------------------

    method DeliveredPart(id: JobId, part: nat) returns (recorded: bool)
      ensures recorded <==> (id, part) in parts
    {
      recorded := (id, part) in parts;
    }

    method RecordDelivery(id: JobId, part: nat)
      requires Valid()
      modifies this
      ensures State() == T.RecordPart(old(State()), id, part)
      ensures Valid()
    {
      assert Inv(T.RecordPart(State(), id, part)) by { RecordPartKeeps(State(), id, part); }
      parts := parts + {(id, part)};
    }

    method Delivered(id: JobId)
      requires Valid()
      modifies this
      ensures State() == T.Delivered(old(State()), id)
      ensures Valid()
    {
      assert Inv(T.Delivered(State(), id)) by { DeliveredKeeps(State(), id); }
      if id in jobs && jobs[id].status == Ready {
        var job := jobs[id];
        jobs := jobs[id := job.(status := Sent)];
        if job.run.Some? && job.kind == Summary {
          runs := T.SetRun(runs, job.run.value, {SummaryReady, SummaryQueued}, RunSent);
        }
      }
    }

    // ---- Recommendation runs ------------------------------------------------------------

    method CreateRecommendationRun(run: RunId)
      requires Valid()
      modifies this
      ensures State() == T.CreateRun(old(State()), run)
      ensures Valid()
    {
      assert Inv(T.CreateRun(State(), run)) by { CreateRunKeeps(State(), run); }
      if run !in runs { runs := runs[run := RunRow(Running, 0, 0, 0, 0)]; }
    }

    method AddRecommendationItem(run: RunId, r: Revision, rank: int) returns (inserted: bool)
      requires Valid()
      modifies this
      ensures State() == T.AddItem(old(State()), run, r, rank)
      ensures inserted <==> (run, r) !in old(items)
      ensures Valid()
    {
      assert Inv(T.AddItem(State(), run, r, rank)) by { AddItemKeeps(State(), run, r, rank); }
      inserted := (run, r) !in items;
      if inserted { items := items[(run, r) := ItemRow(ItemPending, rank)]; }
      if r in notes && notes[r].owner.None? {
        notes := notes[r := notes[r].(owner := Some(ReservedFor(run)))];
      }
    }

    method FinishRecommendationCollection(run: RunId, ok: bool)
      requires Valid()
      modifies this
      ensures State() == T.FinishCollection(old(State()), run, ok)
      ensures Valid()
    {
      assert Inv(T.FinishCollection(State(), run, ok)) by { FinishCollectionKeeps(State(), run, ok); }
      if run in runs {
        runs := runs[run := runs[run].(status := if ok then Collected else CollectFailed)];
      }
    }

    /** SELECT of the run's items joined to their notes, ORDER BY source_rank. */
    method SelectRanked(run: RunId) returns (rows: seq<Revision>)
      ensures T.RankedItems(State(), run, rows)
    {
      rows := [];
      var pool := set k | k in items && k.0 == run && k.1 in notes :: k.1;
      ghost var all := pool;
      while pool != {}
        invariant pool == all - Elements(rows) && Elements(rows) <= all
        invariant Distinct(rows)
        invariant forall r | r in all :: (run, r) in items && r in notes
        invariant forall i, j | 0 <= i < j < |rows| && (run, rows[i]) in items && (run, rows[j]) in items ::
                    items[(run, rows[i])].rank <= items[(run, rows[j])].rank
        invariant forall q, r | q in rows && (run, q) in items && r in pool ::
                    items[(run, q)].rank <= items[(run, r)].rank
        decreases pool
      {
        ghost var least := LowestOf(items, run, pool);
        var first :| first in pool && forall r | r in pool :: items[(run, first)].rank <= items[(run, r)].rank;
        rows := rows + [first];
        pool := pool - {first};
      }
      forall k | k in items && k.0 == run && k.1 in notes ensures k.1 in rows {
        assert k.1 in all && k.1 !in pool && k.1 in Elements(rows);
      }
    }

    /** Fails for an unknown or empty run; otherwise the run has a filter job, new or old. */
    method QueueRecommendationFilter(run: RunId, now: real) returns (id: Option<JobId>, ghost rows: seq<Revision>)
      requires Valid()
      modifies this
      ensures T.RankedItems(old(State()), run, rows)
      ensures State() == T.QueueFilter(old(State()), run, rows, now)
      ensures id == if run in old(runs) && rows != [] then Some(Filter(run)) else None
      ensures id.Some? ==> id.value in jobs
      ensures Valid()
    {
      var ranked := SelectRanked(run);
      rows := ranked;
      assert Inv(T.QueueFilter(State(), run, ranked, now)) by { QueueFilterKeeps(State(), run, ranked, now); }
      if run !in runs || ranked == [] { return None, rows; }
      id := Some(Filter(run));
      if Filter(run) !in jobs {
        var bodies := ReadBodies(ranked);
        jobs := jobs[Filter(run) := T.NewJob(ClassifyRecommendations, T.NotesPayload(bodies, ranked), now, Some(run))];
        runs := runs[run := runs[run].(status := FilterQueued)];
        items := map k | k in items :: if k.0 == run then items[k].(state := ItemQueued) else items[k];
      }
    }

    /** Finds the run's filter job by run id and kind, and reopens it with its run if it had failed. */
    method RetryRecommendationFilter(run: RunId) returns (reopened: bool)
      requires Valid()
      modifies this
      ensures State() == T.RetryFilter(old(State()), run)
      ensures reopened <==> Filter(run) in old(jobs) && old(jobs)[Filter(run)].status == Failed
      ensures Valid()
    {
      assert Inv(T.RetryFilter(State(), run)) by { RetryFilterKeeps(State(), run); }
      forall id | id in jobs && jobs[id].run == Some(run) && jobs[id].kind == ClassifyRecommendations
        ensures id == Filter(run)
      {
        assert ShapeAt(State(), id);
      }
      if Filter(run) in jobs { assert ShapeAt(State(), Filter(run)); }
      if exists id | id in jobs :: jobs[id].run == Some(run) && jobs[id].kind == ClassifyRecommendations {
        var id :| id in jobs && jobs[id].run == Some(run) && jobs[id].kind == ClassifyRecommendations;
        reopened := jobs[id].status == Failed;
        if reopened {
          jobs := jobs[id := T.Requeued(jobs[id], true)];
          runs := T.SetRun(runs, run, {FilterFailed}, FilterQueued);
          items := T.SetItems(items, run, {ItemFilterFailed}, ItemQueued);
        }
      } else {
        reopened := false;
      }
    }

    method RetryJob(id: JobId) returns (reopened: bool)
      requires Valid()
      modifies this
      ensures State() == T.RetryJob(old(State()), id)
      ensures reopened <==> id in old(jobs) && old(jobs)[id].status == Failed
      ensures Valid()
    {
      assert Inv(T.RetryJob(State(), id)) by { RetryJobKeeps(State(), id); }
      reopened := id in jobs && jobs[id].status == Failed;
      if reopened { jobs := jobs[id := T.Requeued(jobs[id], false)]; }
    }
  }

  lemma OneMoreRow<K, V>(table: map<K, V>, rows: seq<(K, V)>, longer: seq<(K, V)>)
    requires |longer| == |rows| + 1 && forall i | 0 <= i < |rows| :: longer[i] == rows[i]
    ensures Upserts(table, longer) == Upserts(table, rows)[longer[|rows|].0 := longer[|rows|].1]
  {
    assert longer[..|rows|] == rows;
  }

  lemma OneMoreTopic(table: map<Revision, Verdict>, candidates: seq<Note>, rulings: seq<T.Ruling<Revision>>,
                     last: T.Ruling<Revision>)
    ensures var all := rulings + [last];
            && Upserts(table, T.TopicRows(all)) == Upserts(table, T.TopicRows(rulings))[last.id := last.verdict]
            && (var note := T.FindNote(candidates, last.id);
                T.SelectedNotes(candidates, all)
                == T.SelectedNotes(candidates, rulings)
                   + (if last.verdict == Include && note.Some? then [note.value] else []))
  {
    var all := rulings + [last];
    assert all[..|rulings|] == rulings;
    OneMoreRow(table, T.TopicRows(rulings), T.TopicRows(all));
  }

  lemma OneMoreRuling(db: Db, run: RunId, rulings: seq<T.Ruling<Revision>>, last: T.Ruling<Revision>)
    ensures var all := rulings + [last];
            && Upserts(db.screenings, T.Keyed(run, all))
               == Upserts(db.screenings, T.Keyed(run, rulings))[(run, last.id) := last.verdict]
            && (var done := T.DecideItems(db.items, run, rulings);
                T.DecideItems(db.items, run, all)
                == if (run, last.id) in done
                   then done[(run, last.id) := done[(run, last.id)].(state := Decided(last.verdict))] else done)
            && T.SelectedItems(db, run, all)
               == T.SelectedItems(db, run, rulings)
                  + (if last.verdict == Include && (run, last.id) in db.items && last.id in db.notes
                     then [db.notes[last.id].body] else [])
            && forall v :: T.Count(all, v) == T.Count(rulings, v) + if last.verdict == v then 1 else 0
  {
    var all := rulings + [last];
    assert all[..|rulings|] == rulings && T.Keyed(run, all)[..|rulings|] == T.Keyed(run, rulings);
  }

  /** The running tallies of a list of rulings. */
  predicate Tally<Id>(counts: map<Verdict, nat>, rulings: seq<T.Ruling<Id>>) {
    forall v: Verdict :: v in counts && counts[v] == T.Count(rulings, v)
  }

  lemma {:induction false} OldestOf(notes: map<Revision, NoteRow>, pool: set<Revision>) returns (oldest: Revision)
    requires pool != {} && pool <= notes.Keys
    ensures oldest in pool && forall r | r in pool :: notes[oldest].firstSeen <= notes[r].firstSeen
  {
    var some :| some in pool;
    oldest := some;
    if pool != {some} {
      var rest := OldestOf(notes, pool - {some});
      if notes[rest].firstSeen < notes[some].firstSeen { oldest := rest; }
    }
  }

  lemma {:induction false} LowestOf(items: map<(RunId, Revision), ItemRow>, run: RunId, pool: set<Revision>)
    returns (lowest: Revision)
    requires pool != {} && forall r | r in pool :: (run, r) in items
    ensures lowest in pool && forall r | r in pool :: items[(run, lowest)].rank <= items[(run, r)].rank
  {
    var some :| some in pool;
    lowest := some;
    if pool != {some} {
      var rest := LowestOf(items, run, pool - {some});
      if items[(run, rest)].rank < items[(run, some)].rank { lowest := rest; }
    }
  }
}
