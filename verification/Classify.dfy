/** The worker's screening call: batches sent to the model, each answer checked, then put together. */
module Classify {
  import opened Sequences
  import opened Tables
  import opened Transactions
  import opened QueueInvariant

  const MAX_BATCH: nat := 20

  datatype Outcome<+Id> = Raised | Classified(decisions: seq<Decision<Id>>)

  /** The ids named by the well-formed entries of one answer; None stands for no id at all. */
  function PartIds<Id>(part: seq<Decision<Id>>): (ids: seq<Option<Id>>)
    ensures |ids| <= |part|
    ensures (forall d | d in part :: d.Decision?) ==> |ids| == |part|
  {
    if part == [] then []
    else
      var last := part[|part| - 1];
      assert part == part[..|part| - 1] + [last];
      PartIds(part[..|part| - 1]) + if last.Decision? then [IdOf(last, true)] else []
  }

  /** What the model answered, if anything that parses, covers a batch: every id once, and no other. */
  predicate GoodBatch<Id(==)>(batch: seq<Option<Id>>, answer: Option<seq<Decision<Id>>>) {
    && answer.Some?
    && Distinct(PartIds(answer.value))
    && Elements(PartIds(answer.value)) == Elements(batch)
  }

  function Batch<T>(s: seq<T>, offset: nat, size: nat): seq<T>
    requires offset <= |s|
  {
    if offset + size < |s| then s[offset..offset + size] else s[offset..]
  }

  predicate AllGood<Id(==)>(candidates: seq<Option<Id>>, size: nat, answers: nat -> Option<seq<Decision<Id>>>, offset: nat)
    requires size >= 1
    decreases |candidates| - offset
  {
    offset < |candidates| ==>
      && GoodBatch(Batch(candidates, offset, size), answers(offset))
      && AllGood(candidates, size, answers, offset + size)
  }

  /** The answers to the batches from `offset` on, one after the other. */
  function Gathered<Id>(candidates: seq<Option<Id>>, size: nat, answers: nat -> Option<seq<Decision<Id>>>, offset: nat)
    : seq<Decision<Id>>
    requires size >= 1
    decreases |candidates| - offset
  {
    if offset >= |candidates| then []
    else
      (match answers(offset) case Some(part) => part case None => [])
      + Gathered(candidates, size, answers, offset + size)
  }

  predicate WellFormed<Id(==)>(items: seq<Decision<Id>>) { Malformed !in items }

  function Somes<Id>(ids: seq<Id>): (options: seq<Option<Id>>)
    ensures |options| == |ids|
    ensures forall i | 0 <= i < |ids| :: options[i] == Some(ids[i])
  {
    seq(|ids|, i requires 0 <= i < |ids| => Some(ids[i]))
  }

  lemma {:induction false} PartIdsAreNames<Id>(part: seq<Decision<Id>>)
    ensures Elements(PartIds(part)) == NamedIds(part, true)
  {
    if part != [] {
      var front, last := part[..|part| - 1], part[|part| - 1];
      PartIdsAreNames(front);
      assert part == front + [last];
      if last.Decision? {
        assert NamedIds(part, true) == NamedIds(front, true) + {IdOf(last, true)};
        assert Elements(PartIds(part)) == Elements(PartIds(front)) + {IdOf(last, true)};
      } else {
        assert NamedIds(part, true) == NamedIds(front, true);
      }
    }
  }

  lemma NamesAppend<Id>(a: seq<Decision<Id>>, b: seq<Decision<Id>>)
    ensures NamedIds(a + b, true) == NamedIds(a, true) + NamedIds(b, true)
  {
    forall d | d in a ensures d in a + b {}
    forall d | d in b ensures d in a + b {}
  }

  /** A batch without repetition is answered by exactly as many entries, if all are well-formed. */
  lemma GoodBatchSize<Id>(batch: seq<Option<Id>>, part: seq<Decision<Id>>)
    requires GoodBatch(batch, Some(part))
    ensures NamedIds(part, true) == Elements(batch)
    ensures WellFormed(part) && Distinct(batch) ==> |part| == |batch|
  {
    PartIdsAreNames(part);
    ElementsBound(PartIds(part));
    ElementsBound(batch);
    if WellFormed(part) {
      forall d | d in part ensures d.Decision? { assert d != Malformed; }
    }
  }

  /** Batch by batch the names add up to the candidates, whatever the batch size. */
  lemma {:induction false} GatheredNames<Id>(candidates: seq<Option<Id>>, size: nat,
                                             answers: nat -> Option<seq<Decision<Id>>>, offset: nat)
    requires size >= 1 && offset <= |candidates| && AllGood(candidates, size, answers, offset)
    ensures NamedIds(Gathered(candidates, size, answers, offset), true) == Elements(candidates[offset..])
    ensures WellFormed(Gathered(candidates, size, answers, offset)) && Distinct(candidates)
            ==> |Gathered(candidates, size, answers, offset)| == |candidates| - offset
    decreases |candidates| - offset
  {
    if offset < |candidates| {
      var batch, part := Batch(candidates, offset, size), answers(offset).value;
      var next := if offset + size < |candidates| then offset + size else |candidates|;
      var rest := Gathered(candidates, size, answers, next);
      assert Gathered(candidates, size, answers, offset + size) == rest;
      GatheredNames(candidates, size, answers, next);
      GoodBatchSize(batch, part);
      NamesAppend(part, rest);
      assert candidates[offset..] == batch + candidates[next..];
      if WellFormed(part + rest) {
        assert WellFormed(part) && WellFormed(rest) by {
          assert forall d | d in part :: d in part + rest;
          assert forall d | d in rest :: d in part + rest;
        }
      }
    }
  }

  method CheckBatch<Id(==)>(batch: seq<Option<Id>>, part: seq<Decision<Id>>) returns (covered: bool)
    ensures covered <==> GoodBatch(batch, Some(part))
  {
    var ids := PartIds(part);
    ElementsBound(ids);
    covered := |ids| == |Elements(ids)| && Elements(ids) == Elements(batch);
  }

  lemma ClosingCheck<Id>(candidates: seq<Option<Id>>, size: nat, answers: nat -> Option<seq<Decision<Id>>>)
    requires size >= 1 && AllGood(candidates, size, answers, 0)
    ensures NamedIds(Gathered(candidates, size, answers, 0), true) == Elements(candidates)
  {
    GatheredNames(candidates, size, answers, 0);
    assert candidates[0..] == candidates;
  }

  /**
   The batch loop. It returns exactly when there are candidates, all with an id, every answer covers
   its batch, and no entry is malformed; the closing comparison of all ids adds no further condition.
   */
  method Classify<Id(==)>(candidates: seq<Option<Id>>, size: nat, answers: nat -> Option<seq<Decision<Id>>>)
    returns (outcome: Outcome<Id>)
    requires 1 <= size <= MAX_BATCH
    ensures outcome.Classified? <==>
              && candidates != [] && None !in candidates
              && AllGood(candidates, size, answers, 0)
              && WellFormed(Gathered(candidates, size, answers, 0))
    ensures outcome.Classified? ==> outcome.decisions == Gathered(candidates, size, answers, 0)
  {
    if candidates == [] || None in candidates { return Raised; }
    ghost var whole := Gathered(candidates, size, answers, 0);
    ghost var good := AllGood(candidates, size, answers, 0);
    var decisions, offset := [], 0;
    while offset < |candidates|
      invariant whole == decisions + Gathered(candidates, size, answers, offset)
      invariant good <==> AllGood(candidates, size, answers, offset)
      decreases |candidates| - offset
    {
      var answer := answers(offset);
      if answer.None? { return Raised; }
      var covered := CheckBatch(Batch(candidates, offset, size), answer.value);
      if !covered { return Raised; }
      ghost var rest := Gathered(candidates, size, answers, offset + size);
      assert decisions + (answer.value + rest) == (decisions + answer.value) + rest;
      decisions := decisions + answer.value;
      offset := offset + size;
    }
    if !WellFormed(decisions) { return Raised; }
    ClosingCheck(candidates, size, answers);
    outcome := if NamedIds(decisions, true) != Elements(candidates) then Raised else Classified(decisions);
  }

  /** What the worker returns for distinct candidates passes the store's test, for every batch size. */
  lemma ClassifiedCovers<Id>(ids: seq<Id>, size: nat, answers: nat -> Option<seq<Decision<Id>>>)
    requires size >= 1 && Distinct(ids)
    requires AllGood(Somes(ids), size, answers, 0) && WellFormed(Gathered(Somes(ids), size, answers, 0))
    ensures Covers(Gathered(Somes(ids), size, answers, 0), true, ids)
  {
    GatheredNames(Somes(ids), size, answers, 0);
    assert Somes(ids)[0..] == Somes(ids);
    ElementsBound(ids);
    forall o ensures o in Elements(Somes(ids)) <==> o in (set a | a in ids :: Some(a)) {
      if a :| a in ids && o == Some(a) {
        var i :| 0 <= i < |ids| && ids[i] == a;
        assert Somes(ids)[i] == o;
      }
      if o in Somes(ids) {
        var i :| 0 <= i < |ids| && Somes(ids)[i] == o;
        assert ids[i] in ids;
      }
    }
  }

  /** A recommendation filter that is still leased accepts whatever the worker returns, if the scores are in range. */
  lemma FilterAcceptsTheWorker(db: Db, id: JobId, token: nat, now: real, size: nat,
                               answers: nat -> Option<seq<Decision<Revision>>>)
    requires Inv(db) && id.Filter? && Holds(db, id, token, now) && size >= 1
    requires var candidates := Somes(db.jobs[id].payload.candidates);
             && AllGood(candidates, size, answers, 0)
             && WellFormed(Gathered(candidates, size, answers, 0))
    ensures var items := Gathered(Somes(db.jobs[id].payload.candidates), size, answers, 0);
            Complete(db, id, token, Decisions(items), now).1
            == if forall i | 0 <= i < |items| :: Acceptable(items[i], true) then Done else Invalid
  {
    assert ShapeAt(db, id) && LinksAt(db, id);
    ClassifiedCovers(db.jobs[id].payload.candidates, size, answers);
  }

  /** The store's test for notes has no fallback to note_id, so it asks one thing more. */
  lemma NoteFilterAsksForCandidateIds<Id>(items: seq<Decision<Id>>, allowed: seq<Id>)
    requires Covers(items, true, allowed)
    ensures Covers(items, false, allowed) <==> forall d | d in items :: d.Decision? ==> d.candidateId.Some?
  {
    if forall d | d in items :: d.Decision? ==> d.candidateId.Some? {
      forall d | d in items && d.Decision? ensures IdOf(d, false) == IdOf(d, true) {}
      assert NamedIds(items, false) == NamedIds(items, true);
    } else {
      var d :| d in items && d.Decision? && d.candidateId.None?;
      assert IdOf(d, false) in NamedIds(items, false);
    }
  }

  /** An answer that names its note under note_id passes the worker and is refused by the store. */
  lemma NoteIdAnswerIsRefused()
    ensures var r := Revision("a", "b");
            var answer := [Decision(None, Some(r), Some(Include), Some(1.0), Some(1.0))];
            && AllGood(Somes([r]), 10, (offset: nat) => Some(answer), 0)
            && WellFormed(Gathered(Somes([r]), 10, (offset: nat) => Some(answer), 0))
            && Gathered(Somes([r]), 10, (offset: nat) => Some(answer), 0) == answer
            && Covers(answer, true, [r]) && !Covers(answer, false, [r])
  {
    var r := Revision("a", "b");
    var d := Decision(None, Some(r), Some(Include), Some(1.0), Some(1.0));
    var answers := (offset: nat) => Some([d]);
    assert PartIds([d]) == [Some(r)];
    assert Batch(Somes([r]), 0, 10) == [Some(r)];
    assert GoodBatch(Batch(Somes([r]), 0, 10), answers(0));
    assert Gathered(Somes([r]), 10, answers, 0) == [d];
    ClassifiedCovers([r], 10, answers);
    NoteFilterAsksForCandidateIds([d], [r]);
    assert d in [d];
  }
}
