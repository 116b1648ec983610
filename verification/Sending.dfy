/** The delivery thread as it runs: one attempt at a ready job is a run of courier acts. */
module Sending {
  import opened Sequences
  import opened Tables
  import opened QueueInvariant
  import opened DeliveryChunks
  import opened Delivery
  import EdgeStore

  /** How a post ends: recorded, not sent at all, or sent without the record being written. */
  datatype Fate = Fine | Refused | Lost

  lemma {:induction false} StepsSplit(s: System, run: seq<Act>, more: seq<Act>)
    ensures Steps(s, run + more) == Steps(Steps(s, run), more)
  {
    if more == [] {
      assert run + more == run;
    } else {
      StepsSplit(s, run, more[..|more| - 1]);
      assert (run + more)[..|run + more| - 1] == run + more[..|more| - 1];
    }
  }

  lemma OneStep(s: System, a: Act)
    ensures Steps(s, [a]) == Step(s, a)
  {}

  lemma TwoSteps(s: System, a: Act, b: Act)
    ensures Steps(s, [a, b]) == Step(Step(s, a), b)
  {
    OneStep(s, a);
    assert [a, b][..1] == [a];
  }

  /** The part is in the ledger, and if it was not there before, this content was posted. */
  predicate Done(before: Db, after: Db, posts: seq<Post>, id: JobId, part: nat, content: string) {
    Recorded(after, id, part) && (Recorded(before, id, part) || Post(id, part, content) in posts)
  }

  /** One turn of the loop that did not stop. */
  predicate PartDone(before: Db, after: Db, soFar: seq<Post>, posts: seq<Post>, id: JobId, part: nat, content: string) {
    && Recorded(after, id, part)
    && (posts == soFar + [Post(id, part, content)] || (posts == soFar && Recorded(before, id, part)))
  }

  predicate AllDone(before: Db, after: Db, posts: seq<Post>, id: JobId, chunks: seq<string>, upTo: nat) {
    forall i | 0 <= i < upTo && i < |chunks| :: Done(before, after, posts, id, i + 1, chunks[i])
  }

  /** The text slice by slice, then the messages with the links. */
  ghost predicate AllPosted(before: Db, after: Db, posts: seq<Post>, id: JobId, text: string, links: seq<string>) {
    && (forall i: nat | i == 0 || 3000 * i < |text| :: Done(before, after, posts, id, i + 1, Slice(text, i)))
    && (forall j: nat | j < |LinkChunks(links)| ::
          Done(before, after, posts, id, |TextChunks(text)| + j + 1, LinkChunks(links)[j]))
  }

  lemma OneMoreDone(before: Db, current: Db, after: Db, start: seq<Post>, soFar: seq<Post>, posts: seq<Post>,
                    id: JobId, chunks: seq<string>, part: nat)
    requires 1 <= part <= |chunks| && start <= soFar && AllDone(before, current, soFar[|start|..], id, chunks, part - 1)
    requires PartDone(current, after, soFar, posts, id, part, chunks[part - 1])
    requires Recorded(current, id, part) <==> Recorded(before, id, part)
    requires forall p: nat | p != part :: Recorded(after, id, p) <==> Recorded(current, id, p)
    ensures start <= posts && AllDone(before, after, posts[|start|..], id, chunks, part)
  {
    assert posts[|start|..] == soFar[|start|..] || posts[|start|..] == soFar[|start|..] + [Post(id, part, chunks[part - 1])];
    forall i | 0 <= i < part && i < |chunks| ensures Done(before, after, posts[|start|..], id, i + 1, chunks[i]) {
      if i < part - 1 { assert Done(before, current, soFar[|start|..], id, i + 1, chunks[i]); }
    }
  }

  lemma DoneIsPosted(before: Db, last: Db, after: Db, posts: seq<Post>, id: JobId, text: string, links: seq<string>)
    requires after.parts == last.parts
    requires AllDone(before, last, posts, id, TextChunks(text) + LinkChunks(links), |TextChunks(text) + LinkChunks(links)|)
    ensures AllPosted(before, after, posts, id, text, links)
  {
    var chunks := TextChunks(text) + LinkChunks(links);
    TextChunksCount(text);
    forall i: nat | i == 0 || 3000 * i < |text| ensures Done(before, after, posts, id, i + 1, Slice(text, i)) {
      TextChunkIs(text, i);
      assert Done(before, last, posts, id, i + 1, chunks[i]);
    }
    forall j: nat | j < |LinkChunks(links)|
      ensures Done(before, after, posts, id, |TextChunks(text)| + j + 1, LinkChunks(links)[j])
    {
      assert Done(before, last, posts, id, |TextChunks(text)| + j + 1, chunks[|TextChunks(text)| + j]);
    }
  }

  class Sender {
    const store: EdgeStore.Store
    var posts: seq<Post>

    constructor (store: EdgeStore.Store)
      ensures this.store == store && posts == []
    {
      this.store := store;
      posts := [];
    }

    /** The system while the delivery thread is at `courier`. */
    function At(courier: Courier): System
      reads this, store
    {
      System(store.State(), courier, posts)
    }

    method PostPart(id: JobId, part: nat, content: string)
      modifies this`posts
      ensures posts == old(posts) + [Post(id, part, content)]
    {
      posts := posts + [Post(id, part, content)];
    }

    /** One turn of the loop, for a part of a ready job. */
    method DeliverPart(id: JobId, chunks: seq<string>, part: nat, fate: Fate) returns (ok: bool, ghost run: seq<Act>)
      requires store.Valid() && 1 <= part <= |chunks|
      modifies this`posts, store
      ensures store.Valid() && store.jobs == old(store.jobs)
      ensures forall a | a in run :: !a.Queue?
      ensures At(if ok then Courier.At(id, chunks, part + 1, false) else Idle)
              == Steps(old(At(Courier.At(id, chunks, part, false))), run)
      ensures ok <==> Recorded(old(store.State()), id, part) || fate.Fine?
      ensures old(posts) <= posts
      ensures ok ==> PartDone(old(store.State()), store.State(), old(posts), posts, id, part, chunks[part - 1])
      ensures forall p: nat | p != part :: Recorded(store.State(), id, p) <==> Recorded(old(store.State()), id, p)
    {
      ghost var s := At(Courier.At(id, chunks, part, false));
      OneStep(s, Advance);
      OneStep(s, Crash);
      TwoSteps(s, Advance, Crash);
      TwoSteps(s, Advance, Advance);
      var recorded := store.DeliveredPart(id, part);
      if recorded { return true, [Advance]; }
      if fate.Refused? { return false, [Crash]; }
      PostPart(id, part, chunks[part - 1]);
      if fate.Lost? { return false, [Advance, Crash]; }
      store.RecordDelivery(id, part);
      return true, [Advance, Advance];
    }

    /**
     One call of deliver_one for a ready job; `fate` says how the post of each part ends. An
     exception leaves the job ready. It is marked sent exactly when every part not yet in the
     ledger could be posted and recorded.
     */
    method DeliverOne(id: JobId, links: seq<string>, configured: bool, fate: nat -> Fate)
      returns (sent: bool, ghost run: seq<Act>)
      requires store.Valid() && JobAt(store.State(), id, Ready)
      modifies this`posts, store
      ensures store.Valid()
      ensures At(Idle) == Steps(old(At(Idle)), run)
      ensures forall a | a in run :: !a.Queue?
      ensures JobAt(store.State(), id, if sent then Sent else Ready)
      ensures sent <==> configured && forall part: nat | 1 <= part <= |Parts(old(store.State()), id) + LinkChunks(links)| ::
                          Recorded(old(store.State()), id, part) || fate(part).Fine?
      ensures old(posts) <= posts
      ensures old(store.jobs)[id].result.Some? && old(store.jobs)[id].result.value.Text? && old(store.jobs)[id].result.value.summary.Some?
      ensures sent ==> AllPosted(old(store.State()), store.State(), posts[|old(posts)|..], id,
                                 old(store.jobs)[id].result.value.summary.value, links)
    {
      assert ShapeAt(store.State(), id);
      ghost var before := store.State();
      ghost var start := At(Idle);
      ghost var text := store.jobs[id].result.value.summary.value;
      var chunks := Chunks(store.jobs[id].result.value.summary.value, links);
      run := [Begin(id, links)];
      OneStep(start, Begin(id, links));
      if !configured {
        TwoSteps(start, Begin(id, links), Crash);
        return false, [Begin(id, links), Crash];
      }
      var part := 1;
      while part <= |chunks|
        invariant 1 <= part <= |chunks| + 1
        invariant store.Valid() && JobAt(store.State(), id, Ready)
        invariant At(Courier.At(id, chunks, part, false)) == Steps(start, run)
        invariant forall a | a in run :: !a.Queue?
        invariant forall p: nat | part <= p :: Recorded(store.State(), id, p) <==> Recorded(before, id, p)
        invariant forall p: nat | 1 <= p < part :: Recorded(before, id, p) || fate(p).Fine?
        invariant old(posts) <= posts && store.jobs == before.jobs
        invariant AllDone(before, store.State(), posts[|old(posts)|..], id, chunks, part - 1)
      {
        assert Recorded(store.State(), id, part) <==> Recorded(before, id, part);
        ghost var soFar, current := posts, store.State();
        var ok, acts := DeliverPart(id, chunks, part, fate(part));
        StepsSplit(start, run, acts);
        run := run + acts;
        if !ok { return false, run; }
        OneMoreDone(before, current, store.State(), old(posts), soFar, posts, id, chunks, part);
        part := part + 1;
      }
      StepsSplit(start, run, [Advance]);
      OneStep(At(Courier.At(id, chunks, part, false)), Advance);
      run := run + [Advance];
      ghost var last := store.State();
      store.Delivered(id);
      DoneIsPosted(before, last, store.State(), posts[|old(posts)|..], id, text, links);
      sent := true;
    }
  }
}
