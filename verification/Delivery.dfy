/**
 Posting a ready job to the chat in parts. The ledger of recorded parts survives crashes; the chat
 itself has no idempotency key, so a crash between a post and its record makes the part repeat.
 */
module Delivery {
  import opened Sequences
  import opened Tables
  import opened Transactions
  import opened QueueInvariant
  import opened JobMoves
  import opened DeliveryChunks

  /** A message in the chat: which part of which job, counted from 1, and what it says. */
  datatype Post = Post(job: JobId, part: nat, content: string)

  /** The delivery thread: idle, or about to handle `part`; `posted` says it awaits its record. */
  datatype Courier = Idle | At(job: JobId, chunks: seq<string>, part: nat, posted: bool)

  datatype System = System(db: Db, courier: Courier, posts: seq<Post>)

  /** `Crash` is any exception or restart; `Queue` is a transaction of some other thread. */
  datatype Act = Queue(event: Event) | Begin(job: JobId, links: seq<string>) | Advance | Crash

  const START := System(EMPTY, Idle, [])

  function SummaryText(db: Db, id: JobId): string {
    if id in db.jobs && db.jobs[id].result.Some? && db.jobs[id].result.value.Text?
       && db.jobs[id].result.value.summary.Some?
    then db.jobs[id].result.value.summary.value
    else ""
  }

  function Parts(db: Db, id: JobId): seq<string> { TextChunks(SummaryText(db, id)) }

  predicate CourierOnly(e: Event) { e.RecordPartEvent? || e.DeliveredEvent? }

  function AdvanceStep(s: System): System
    requires s.courier.At?
  {
    var c := s.courier;
    if c.part < 1 || |c.chunks| < c.part then System(Delivered(s.db, c.job), Idle, s.posts)
    else if c.posted then
      System(RecordPart(s.db, c.job, c.part), At(c.job, c.chunks, c.part + 1, false), s.posts)
    else if (c.job, c.part) in s.db.parts then s.(courier := At(c.job, c.chunks, c.part + 1, false))
    else System(s.db, c.(posted := true), s.posts + [Post(c.job, c.part, c.chunks[c.part - 1])])
  }

  function Step(s: System, a: Act): System {
    match a
    case Queue(e) => if CourierOnly(e) then s else s.(db := Next(s.db, e))
    case Begin(id, links) =>
      if s.courier.At? || !JobAt(s.db, id, Ready) then s
      else s.(courier := At(id, Parts(s.db, id) + LinkChunks(links), 1, false))
    case Advance => if s.courier.At? then AdvanceStep(s) else s
    case Crash => s.(courier := Idle)
  }

  function Steps(s: System, run: seq<Act>): System {
    if run == [] then s else Step(Steps(s, run[..|run| - 1]), run[|run| - 1])
  }

  /** How often a part was posted. */
  function Times(posts: seq<Post>, id: JobId, part: nat): nat {
    if posts == [] then 0
    else
      var last := posts[|posts| - 1];
      Times(posts[..|posts| - 1], id, part) + if last.job == id && last.part == part then 1 else 0
  }

  predicate InFlight(s: System, id: JobId, part: nat) {
    s.courier.At? && s.courier.posted && s.courier.job == id && s.courier.part == part
  }

  /** How often a run crashed between the post of a part and its record. */
  function Interrupted(run: seq<Act>, id: JobId, part: nat): nat {
    if run == [] then 0
    else
      var front := run[..|run| - 1];
      Interrupted(front, id, part)
      + if run[|run| - 1].Crash? && InFlight(Steps(START, front), id, part) then 1 else 0
  }

  function One(b: bool): nat { if b then 1 else 0 }

  // ---- What the other threads leave alone -----------------------------------------------

  /** A ready job stays ready, and none is sent. */
  predicate Undelivered(a: Db, b: Db, id: JobId) {
    (JobAt(a, id, Ready) ==> JobAt(b, id, Ready)) && (JobAt(b, id, Sent) ==> JobAt(a, id, Sent))
  }

  lemma OthersDeliverNothing(db: Db, e: Event, id: JobId)
    requires !CourierOnly(e)
    ensures Undelivered(db, Next(db, e), id) && Next(db, e).parts == db.parts
  {
    EveryMove(db, e, id);
    TokensAndParts(db, e);
  }

  /** A text, once there, never changes; so neither do its parts. */
  lemma TextStays(a: Db, b: Db, id: JobId)
    requires Evolves(a, b) && id in a.jobs && a.jobs[id].result.Some?
    ensures id in b.jobs && b.jobs[id].result == a.jobs[id].result && Parts(b, id) == Parts(a, id)
  {
    assert JobGrows(a, b, id);
  }

  // ---- The invariant --------------------------------------------------------------------

  predicate Recorded(db: Db, id: JobId, part: nat) { (id, part) in db.parts }

  predicate AllRecorded(db: Db, id: JobId, upTo: nat) {
    forall part: nat | 1 <= part < upTo :: Recorded(db, id, part)
  }

  predicate CourierOk(s: System) {
    s.courier.At? ==>
      var c := s.courier;
      && JobAt(s.db, c.job, Ready)
      && Parts(s.db, c.job) <= c.chunks
      && 1 <= c.part <= |c.chunks| + 1
      && AllRecorded(s.db, c.job, c.part)
      && (c.posted ==> c.part <= |c.chunks| && !Recorded(s.db, c.job, c.part))
  }

  /** A post of a text part says that part. */
  predicate PostOk(db: Db, p: Post) {
    && p.job in db.jobs && db.jobs[p.job].result.Some?
    && 1 <= p.part
    && (p.part <= |Parts(db, p.job)| ==> p.content == Parts(db, p.job)[p.part - 1])
  }

  predicate SentOk(db: Db, id: JobId) {
    JobAt(db, id, Sent) ==> AllRecorded(db, id, |Parts(db, id)| + 1)
  }

  ghost predicate Tidy(s: System) {
    && Inv(s.db)
    && CourierOk(s)
    && (forall i {:trigger s.posts[i]} | 0 <= i < |s.posts| :: PostOk(s.db, s.posts[i]))
    && (forall id {:trigger SentOk(s.db, id)} :: SentOk(s.db, id))
  }

  /** What carries the invariant over a change of the database. */
  lemma PostsStay(a: Db, b: Db, posts: seq<Post>)
    requires Evolves(a, b)
    requires forall i {:trigger posts[i]} | 0 <= i < |posts| :: PostOk(a, posts[i])
    ensures forall i {:trigger posts[i]} | 0 <= i < |posts| :: PostOk(b, posts[i])
  {
    forall i {:trigger posts[i]} | 0 <= i < |posts| ensures PostOk(b, posts[i]) {
      TextStays(a, b, posts[i].job);
    }
  }

  lemma QueueKeepsTidy(s: System, e: Event)
    requires Tidy(s)
    ensures Tidy(Step(s, Queue(e)))
  {
    if CourierOnly(e) { return; }
    var t := Step(s, Queue(e));
    NextKeeps(s.db, e);
    PostsStay(s.db, t.db, s.posts);
    if s.courier.At? {
      OthersDeliverNothing(s.db, e, s.courier.job);
      assert ShapeAt(s.db, s.courier.job);
      TextStays(s.db, t.db, s.courier.job);
      forall part: nat | 1 <= part < s.courier.part ensures Recorded(t.db, s.courier.job, part) {
        assert Recorded(s.db, s.courier.job, part);
      }
      assert CourierOk(t);
    }
    forall id ensures SentOk(t.db, id) {
      OthersDeliverNothing(s.db, e, id);
      assert SentOk(s.db, id);
      if JobAt(t.db, id, Sent) {
        assert ShapeAt(s.db, id);
        TextStays(s.db, t.db, id);
        forall part: nat | 1 <= part < |Parts(t.db, id)| + 1 ensures Recorded(t.db, id, part) {
          assert Recorded(s.db, id, part);
        }
      }
    }
  }

  lemma RecordKeepsTidy(s: System)
    requires Tidy(s) && s.courier.At? && s.courier.posted
    ensures Tidy(AdvanceStep(s))
  {
    var t, c := AdvanceStep(s), s.courier;
    RecordPartKeeps(s.db, c.job, c.part);
    PostsStay(s.db, t.db, s.posts);
    forall part: nat | 1 <= part < c.part + 1 ensures Recorded(t.db, c.job, part) {
      if part < c.part { assert Recorded(s.db, c.job, part); }
    }
    assert CourierOk(t);
    forall id ensures SentOk(t.db, id) {
      assert SentOk(s.db, id);
      if JobAt(t.db, id, Sent) {
        forall part: nat | 1 <= part < |Parts(t.db, id)| + 1 ensures Recorded(t.db, id, part) {
          assert Recorded(s.db, id, part);
        }
      }
    }
  }

  lemma DeliveredKeepsTidy(s: System)
    requires Tidy(s) && s.courier.At? && s.courier.part == |s.courier.chunks| + 1
    ensures Tidy(AdvanceStep(s))
    ensures JobAt(AdvanceStep(s).db, s.courier.job, Sent)
  {
    var t, c := AdvanceStep(s), s.courier;
    DeliveredKeeps(s.db, c.job);
    PostsStay(s.db, t.db, s.posts);
    forall id ensures SentOk(t.db, id) {
      assert SentOk(s.db, id);
      if JobAt(t.db, id, Sent) {
        assert Parts(t.db, id) == Parts(s.db, id);
        forall part: nat | 1 <= part < |Parts(t.db, id)| + 1 ensures Recorded(t.db, id, part) {
          assert Recorded(s.db, id, part);
        }
      }
    }
  }

  lemma AdvanceKeepsTidy(s: System)
    requires Tidy(s)
    ensures Tidy(Step(s, Advance))
  {
    if !s.courier.At? { return; }
    var t, c := AdvanceStep(s), s.courier;
    if |c.chunks| < c.part {
      DeliveredKeepsTidy(s);
    } else if c.posted {
      RecordKeepsTidy(s);
    } else if (c.job, c.part) in s.db.parts {
      assert Recorded(s.db, c.job, c.part);
      assert CourierOk(t);
    } else {
      assert ShapeAt(s.db, c.job);
      forall i {:trigger t.posts[i]} | 0 <= i < |t.posts| ensures PostOk(t.db, t.posts[i]) {
        if i < |s.posts| { assert t.posts[i] == s.posts[i]; }
      }
      assert CourierOk(t);
    }
  }

  lemma BeginKeepsTidy(s: System, id: JobId, links: seq<string>)
    requires Tidy(s)
    ensures Tidy(Step(s, Begin(id, links)))
  {
    var t := Step(s, Begin(id, links));
    assert CourierOk(t);
  }

  lemma StepKeepsTidy(s: System, a: Act)
    requires Tidy(s)
    ensures Tidy(Step(s, a))
  {
    match a
    case Queue(e) => QueueKeepsTidy(s, e);
    case Begin(id, links) => BeginKeepsTidy(s, id, links);
    case Advance => AdvanceKeepsTidy(s);
    case Crash =>
  }

  lemma {:induction false} StepsKeepTidy(s: System, run: seq<Act>)
    requires Tidy(s)
    ensures Tidy(Steps(s, run))
  {
    if run != [] {
      StepsKeepTidy(s, run[..|run| - 1]);
      StepKeepsTidy(Steps(s, run[..|run| - 1]), run[|run| - 1]);
    }
  }

  lemma RunIsTidy(run: seq<Act>)
    ensures Tidy(Steps(START, run))
  {
    EmptyIsFine();
    StepsKeepTidy(START, run);
  }

  // ---- Properties of every run ----------------------------------------------------------

  /** Posts of a part beyond its record and the post in flight. */
  function Excess(s: System, id: JobId, part: nat): int {
    Times(s.posts, id, part) - One(Recorded(s.db, id, part)) - One(InFlight(s, id, part))
  }

  lemma AdvanceAccounts(s: System, id: JobId, part: nat)
    requires CourierOk(s) && s.courier.At?
    ensures Excess(AdvanceStep(s), id, part) == Excess(s, id, part)
    ensures Recorded(s.db, id, part) ==> Recorded(AdvanceStep(s).db, id, part)
    ensures Recorded(s.db, id, part) ==> Times(AdvanceStep(s).posts, id, part) == Times(s.posts, id, part)
  {
    var t, c := AdvanceStep(s), s.courier;
    if |t.posts| > |s.posts| { assert t.posts[..|t.posts| - 1] == s.posts; }
  }

  lemma RecordedIsKept(s: System, a: Act, id: JobId, part: nat)
    requires Tidy(s) && Recorded(s.db, id, part)
    ensures Recorded(Step(s, a).db, id, part)
    ensures Times(Step(s, a).posts, id, part) == Times(s.posts, id, part)
  {
    StepAccounts(s, a, id, part);
  }

  lemma StepAccounts(s: System, a: Act, id: JobId, part: nat)
    requires CourierOk(s)
    ensures Excess(Step(s, a), id, part) == Excess(s, id, part) + One(a.Crash? && InFlight(s, id, part))
    ensures Recorded(s.db, id, part) ==> Recorded(Step(s, a).db, id, part)
    ensures Recorded(s.db, id, part) ==> Times(Step(s, a).posts, id, part) == Times(s.posts, id, part)
  {
    match a
    case Queue(e) => if !CourierOnly(e) { OthersDeliverNothing(s.db, e, id); }
    case Begin(_, _) =>
    case Crash =>
    case Advance => if s.courier.At? { AdvanceAccounts(s, id, part); }
  }

  /** Every post of a part is its recorded one, one cut off by a crash, or the one in flight. */
  lemma {:induction false} PostsAreAccountedFor(run: seq<Act>, id: JobId, part: nat)
    ensures var s := Steps(START, run);
            Times(s.posts, id, part)
            == One(Recorded(s.db, id, part)) + Interrupted(run, id, part) + One(InFlight(s, id, part))
  {
    if run != [] {
      var front := run[..|run| - 1];
      PostsAreAccountedFor(front, id, part);
      RunIsTidy(front);
      StepAccounts(Steps(START, front), run[|run| - 1], id, part);
    }
  }

  /** A part is posted at most once more often than a crash separated its post from its record. */
  lemma PostsAreBounded(run: seq<Act>, id: JobId, part: nat)
    ensures Times(Steps(START, run).posts, id, part) <= 1 + Interrupted(run, id, part)
    ensures Recorded(Steps(START, run).db, id, part)
            ==> Times(Steps(START, run).posts, id, part) == 1 + Interrupted(run, id, part)
  {
    PostsAreAccountedFor(run, id, part);
    RunIsTidy(run);
  }

  /** Once recorded, a part is never posted again, however the run goes on. */
  lemma {:induction false} RecordedPartsAreNotRepeated(s: System, more: seq<Act>, id: JobId, part: nat)
    requires Tidy(s) && Recorded(s.db, id, part)
    ensures Recorded(Steps(s, more).db, id, part)
    ensures Times(Steps(s, more).posts, id, part) == Times(s.posts, id, part)
  {
    if more != [] {
      var less := more[..|more| - 1];
      StepsKeepTidy(s, less);
      RecordedPartsAreNotRepeated(s, less, id, part);
      RecordedIsKept(Steps(s, less), more[|more| - 1], id, part);
    }
  }

  /** Some post of the part says `content`, and no post of the part says anything else. */
  ghost predicate SaysOnly(posts: seq<Post>, id: JobId, part: nat, content: string) {
    && (exists i :: 0 <= i < |posts| && posts[i] == Post(id, part, content))
    && (forall i | 0 <= i < |posts| && posts[i].job == id && posts[i].part == part :: posts[i].content == content)
  }

  lemma {:induction false} PostedSomewhere(posts: seq<Post>, id: JobId, part: nat)
    requires Times(posts, id, part) > 0
    ensures exists i :: 0 <= i < |posts| && posts[i].job == id && posts[i].part == part
  {
    var front, last := posts[..|posts| - 1], posts[|posts| - 1];
    if last.job == id && last.part == part {
      assert posts[|posts| - 1] == last;
    } else {
      PostedSomewhere(front, id, part);
      var i :| 0 <= i < |front| && front[i].job == id && front[i].part == part;
      assert posts[i] == front[i];
    }
  }

  lemma PostsSayThePart(s: System, id: JobId, part: nat)
    requires Tidy(s) && Times(s.posts, id, part) > 0 && 1 <= part <= |Parts(s.db, id)|
    ensures SaysOnly(s.posts, id, part, Parts(s.db, id)[part - 1])
  {
    PostedSomewhere(s.posts, id, part);
    var k :| 0 <= k < |s.posts| && s.posts[k].job == id && s.posts[k].part == part;
    assert PostOk(s.db, s.posts[k]);
    assert s.posts[k] == Post(id, part, Parts(s.db, id)[part - 1]);
  }

  lemma SentHasText(s: System, id: JobId)
    requires Tidy(s) && JobAt(s.db, id, Sent)
    ensures s.db.jobs[id].result.Some? && AllRecorded(s.db, id, |Parts(s.db, id)| + 1)
  {
    assert ShapeAt(s.db, id) && SentOk(s.db, id);
  }

  /** The parts of a job are recorded and in the chat, and say this. */
  ghost predicate InChat(s: System, id: JobId, contents: seq<string>) {
    forall i | 0 <= i < |contents| :: Recorded(s.db, id, i + 1) && SaysOnly(s.posts, id, i + 1, contents[i])
  }

  lemma PartsInChat(run: seq<Act>, id: JobId)
    requires JobAt(Steps(START, run).db, id, Sent)
    ensures var s := Steps(START, run);
            && s.db.jobs[id].result.Some? && s.db.jobs[id].result.value.Text? && s.db.jobs[id].result.value.summary.Some?
            && Parts(s.db, id) == TextChunks(s.db.jobs[id].result.value.summary.value)
            && InChat(s, id, Parts(s.db, id))
  {
    var s := Steps(START, run);
    RunIsTidy(run);
    SentHasText(s, id);
    assert ShapeAt(s.db, id);
    forall i | 0 <= i < |Parts(s.db, id)|
      ensures Recorded(s.db, id, i + 1) && SaysOnly(s.posts, id, i + 1, Parts(s.db, id)[i])
    {
      assert Recorded(s.db, id, i + 1);
      PostsAreAccountedFor(run, id, i + 1);
      PostsSayThePart(s, id, i + 1);
    }
  }

  /** Slice by slice the text is recorded and in the chat. */
  ghost predicate TextInChat(s: System, id: JobId, text: string) {
    forall i: nat | i == 0 || 3000 * i < |text| ::
      Recorded(s.db, id, i + 1) && SaysOnly(s.posts, id, i + 1, Slice(text, i))
  }

  lemma ChunksAreText(s: System, id: JobId, text: string)
    requires InChat(s, id, TextChunks(text))
    ensures TextInChat(s, id, text)
  {
    TextChunksCount(text);
    forall i: nat | i == 0 || 3000 * i < |text|
      ensures Recorded(s.db, id, i + 1) && SaysOnly(s.posts, id, i + 1, Slice(text, i))
    {
      TextChunkIs(text, i);
      assert Recorded(s.db, id, i + 1);
    }
  }

  /** Some list of contents puts together to the text and is recorded and in the chat. */
  ghost predicate ToldInParts(s: System, id: JobId, text: string) {
    exists contents :: Concat(contents) == text && InChat(s, id, contents)
  }

  lemma PartsTell(s: System, id: JobId, text: string)
    requires InChat(s, id, TextChunks(text))
    ensures ToldInParts(s, id, text)
  {
    TextRoundTrip(text);
  }

  /**
   A job is marked sent only when the whole text of its result is in the chat and in the ledger: its
   posts, read in order of their parts, put together to the text, 3000 characters each.
   */
  lemma SentMeansPosted(run: seq<Act>, id: JobId)
    requires JobAt(Steps(START, run).db, id, Sent)
    ensures var s := Steps(START, run);
            && s.db.jobs[id].result.Some? && s.db.jobs[id].result.value.Text? && s.db.jobs[id].result.value.summary.Some?
            && ToldInParts(s, id, s.db.jobs[id].result.value.summary.value)
            && TextInChat(s, id, s.db.jobs[id].result.value.summary.value)
  {
    PartsInChat(run, id);
    PartsTell(Steps(START, run), id, Steps(START, run).db.jobs[id].result.value.summary.value);
    ChunksAreText(Steps(START, run), id, Steps(START, run).db.jobs[id].result.value.summary.value);
  }
}
