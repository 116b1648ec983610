/**
 The notification watcher: which commits a poll announces, that none is announced twice, and how many
 go unannounced.
 */
module CommitWatch {
  import opened Sequences

  const PER_PAGE: nat := 50
  const EXECUTOR_AUTHOR := "b300-exec-agent"
  const EVENT_MAX_AGE_H := 24.0

  datatype Commit = Commit(sha: string, author: string, subject: string)

  /** How an event of the dashboard was dealt with. */
  datatype Mark = AtBaseline | Expired | Logged | Announced

  /** `at` is in hours. */
  datatype Event = Event(id: nat, at: real, trigger: bool, mark: Option<Mark>)

  /** A message: the number in its header, whether it warns of a gap, and the events it lists. */
  datatype Message = Message(count: nat, gap: bool, events: set<nat>)

  /** The state file, the event log, and every message sent or logged so far. */
  datatype Watch = Watch(lastSeen: string, events: seq<Event>, told: seq<Message>)

  /** One run of the watcher: the branch as it is then, oldest commit first, and how each part goes. */
  datatype Round = Round(branch: seq<Commit>, fetched: bool, arrived: seq<Event>, readable: bool, now: real,
                         dryRun: bool, configured: bool, delivered: bool)

  // ---- Commits --------------------------------------------------------------------------

  /** What the branch shows: its latest commits, newest first. */
  function Newest(branch: seq<Commit>): (view: seq<Commit>)
    ensures |view| == if |branch| < PER_PAGE then |branch| else PER_PAGE
    ensures forall i | 0 <= i < |view| :: view[i] == branch[|branch| - 1 - i]
  {
    var n := if |branch| < PER_PAGE then |branch| else PER_PAGE;
    seq(n, i requires 0 <= i < n => branch[|branch| - 1 - i])
  }

  function Until(view: seq<Commit>, sha: string): (n: nat)
    ensures n <= |view|
    ensures forall i | 0 <= i < n :: view[i].sha != sha
    ensures n < |view| ==> view[n].sha == sha
  {
    if view == [] || view[0].sha == sha then 0 else 1 + Until(view[1..], sha)
  }

  function Executor(commits: seq<Commit>): seq<Commit> {
    if commits == [] then []
    else
      Executor(commits[..|commits| - 1])
      + if commits[|commits| - 1].author == EXECUTOR_AUTHOR then [commits[|commits| - 1]] else []
  }

  function Count(commits: seq<Commit>): nat { |Executor(commits)| }

  lemma {:induction false} ExecutorAppend(a: seq<Commit>, b: seq<Commit>)
    ensures Executor(a + b) == Executor(a) + Executor(b)
  {
    if b == [] {
      assert a + b == a;
    } else {
      ExecutorAppend(a, b[..|b| - 1]);
      assert (a + b)[..|a + b| - 1] == a + b[..|b| - 1];
    }
  }

  /** Reading from the newest end counts the same commits. */
  lemma {:induction false} CountNewest(branch: seq<Commit>, k: nat)
    requires k <= |Newest(branch)|
    ensures Count(Newest(branch)[..k]) == Count(branch[|branch| - k..])
  {
    if k > 0 {
      CountNewest(branch, k - 1);
      var view := Newest(branch);
      assert view[..k] == view[..k - 1] + [view[k - 1]];
      ExecutorAppend(view[..k - 1], [view[k - 1]]);
      var rest := branch[|branch| - (k - 1)..];
      assert branch[|branch| - k..] == [view[k - 1]] + rest;
      ExecutorAppend([view[k - 1]], rest);
    }
  }

  method NewCommits(commits: seq<Commit>, lastSeen: string) returns (recent: seq<Commit>, found: bool)
    ensures recent == commits[..Until(commits, lastSeen)]
    ensures found <==> exists c :: c in commits && c.sha == lastSeen
  {
    recent := [];
    for i := 0 to |commits|
      invariant recent == commits[..i]
      invariant forall j | 0 <= j < i :: commits[j].sha != lastSeen
    {
      if commits[i].sha == lastSeen {
        found := true;
        return;
      }
      recent := recent + [commits[i]];
    }
    found := false;
  }

  // ---- Events ---------------------------------------------------------------------------

  predicate Fresh(e: Event, now: real) { now - e.at <= EVENT_MAX_AGE_H }

  /** Ids of events not yet dealt with, either still fresh or already stale. */
  function Unsent(events: seq<Event>, now: real, recent: bool): set<nat> {
    set e | e in events && e.mark.None? && Fresh(e, now) == recent :: e.id
  }

  function MarkOne(e: Event, ids: set<nat>, how: Mark): Event {
    if e.id in ids && e.mark.None? then e.(mark := Some(how)) else e
  }

  function Marked(events: seq<Event>, ids: set<nat>, how: Mark): (marked: seq<Event>)
    ensures |marked| == |events|
    ensures forall i | 0 <= i < |events| :: marked[i] == MarkOne(events[i], ids, how)
  {
    seq(|events|, i requires 0 <= i < |events| => MarkOne(events[i], ids, how))
  }

  predicate Triggered(events: seq<Event>, ids: set<nat>) { exists e :: e in events && e.id in ids && e.trigger }

  // ---- One run --------------------------------------------------------------------------

  predicate Blind(r: Round) { !r.fetched || r.branch == [] }

  function Head(branch: seq<Commit>): string
    requires branch != []
  {
    branch[|branch| - 1].sha
  }

  /** The message a run would send, if it has something to say. */
  function MessageFor(w: Watch, events: seq<Event>, r: Round): Option<Message> {
    var view := Newest(r.branch);
    var n := Until(view, w.lastSeen);
    var ids := if r.readable then Unsent(events, r.now, true) else {};
    if Count(view[..n]) == 0 && !Triggered(events, ids) then None
    else Some(Message(Count(view[..n]), n == |view|, ids))
  }

  /** What the run leaves: a dry run leaves nothing, a failed send keeps the recorded commit. */
  function Next(w: Watch, r: Round): Watch {
    var events := w.events + r.arrived;
    if Blind(r) then w.(events := events)
    else
      var head := Head(r.branch);
      var recent := if r.readable then Unsent(events, r.now, true) else {};
      var stale := if r.readable then Unsent(events, r.now, false) else {};
      if w.lastSeen == "" then
        if r.dryRun then w.(events := events)
        else w.(lastSeen := head, events := Marked(events, recent + stale, AtBaseline))
      else
        var kept := if r.dryRun then events else Marked(events, stale, Expired);
        var message := MessageFor(w, events, r);
        if r.dryRun then w.(events := events)
        else if message.None? then w.(lastSeen := head, events := kept)
        else if !r.configured then Watch(head, Marked(kept, recent, Logged), w.told + [message.value])
        else if !r.delivered then w.(events := kept)
        else Watch(head, Marked(kept, recent, Announced), w.told + [message.value])
  }

  class Watcher {
    var lastSeen: string
    var events: seq<Event>
    ghost var told: seq<Message>

    constructor ()
      ensures State() == Watch("", [], [])
    {
      lastSeen, events, told := "", [], [];
    }

    ghost function State(): Watch
      reads this
    {
      Watch(lastSeen, events, told)
    }

    method MarkEvents(ids: set<nat>, how: Mark)
      modifies this`events
      ensures events == Marked(old(events), ids, how)
    {
      var marked := [];
      for i := 0 to |events|
        invariant marked == Marked(events, ids, how)[..i]
      {
        marked := marked + [MarkOne(events[i], ids, how)];
      }
      events := marked;
    }

    /** False stands for exit code 1: nothing could be read, or the message could not be delivered. */
    method Run(r: Round) returns (ok: bool)
      modifies this
      ensures State() == Next(old(State()), r)
      ensures !ok ==> lastSeen == old(lastSeen) && told == old(told)
      ensures ok && told == old(told) && !r.dryRun && old(lastSeen) != "" ==>
                Count(Newest(r.branch)[..Until(Newest(r.branch), old(lastSeen))]) == 0
    {
      ghost var before := State();
      events := events + r.arrived;
      if !r.fetched || r.branch == [] { return false; }
      var commits := Newest(r.branch);
      var head := commits[0].sha;
      var recent := if r.readable then Unsent(events, r.now, true) else {};
      var stale := if r.readable then Unsent(events, r.now, false) else {};
      if lastSeen == "" {
        if !r.dryRun {
          lastSeen := head;
          MarkEvents(recent + stale, AtBaseline);
        }
        return true;
      }
      ghost var message := MessageFor(before, events, r);
      var triggered := Triggered(events, recent);
      if !r.dryRun { MarkEvents(stale, Expired); }
      var newer, found := NewCommits(commits, lastSeen);
      assert found <==> Until(commits, lastSeen) < |commits|;
      var executor := Executor(newer);
      if executor == [] && !triggered {
        if !r.dryRun { lastSeen := head; }
        return true;
      }
      assert message == Some(Message(|executor|, !found, recent));
      if r.dryRun { return true; }
      if !r.configured {
        lastSeen := head;
        MarkEvents(recent, Logged);
        told := told + [message.value];
        return true;
      }
      if !r.delivered { return false; }
      lastSeen := head;
      MarkEvents(recent, Announced);
      told := told + [message.value];
      ok := true;
    }
  }

  // ---- Runs on a branch that only grows -------------------------------------------------

  const START := Watch("", [], [])

  function After(rounds: seq<Round>): Watch {
    if rounds == [] then START else Next(After(rounds[..|rounds| - 1]), rounds[|rounds| - 1])
  }

  predicate Named(branch: seq<Commit>) {
    && (forall i | 0 <= i < |branch| :: branch[i].sha != "")
    && (forall i, j | 0 <= i < j < |branch| :: branch[i].sha != branch[j].sha)
  }

  predicate Growing(rounds: seq<Round>) {
    && (forall i | 0 <= i < |rounds| :: Named(rounds[i].branch))
    && (forall i | 0 < i < |rounds| :: rounds[i - 1].branch <= rounds[i].branch)
  }

  /** How many commits the branch has up to and including `sha`. */
  function Place(branch: seq<Commit>, sha: string): (p: nat)
    ensures p <= |branch|
    ensures p > 0 ==> branch[p - 1].sha == sha
    ensures p == 0 ==> forall c | c in branch :: c.sha != sha
  {
    if branch == [] then 0
    else if branch[|branch| - 1].sha == sha then |branch|
    else
      assert branch == branch[..|branch| - 1] + [branch[|branch| - 1]];
      Place(branch[..|branch| - 1], sha)
  }

  function Total(told: seq<Message>): nat {
    if told == [] then 0 else Total(told[..|told| - 1]) + told[|told| - 1].count
  }

  /** Executor commits a round moves past without seeing them: those older than the newest fifty. */
  function Missed(w: Watch, r: Round): nat {
    if w.lastSeen == "" || Next(w, r).lastSeen == w.lastSeen then 0 else Hidden(r.branch, w.lastSeen)
  }

  function MissedIn(rounds: seq<Round>): nat {
    if rounds == [] then 0
    else MissedIn(rounds[..|rounds| - 1]) + Missed(After(rounds[..|rounds| - 1]), rounds[|rounds| - 1])
  }

  /** The commit recorded first, without a message. */
  function Baseline(rounds: seq<Round>): string {
    if rounds == [] then ""
    else if After(rounds[..|rounds| - 1]).lastSeen == "" then After(rounds).lastSeen
    else Baseline(rounds[..|rounds| - 1])
  }

  lemma PlaceIs(branch: seq<Commit>, i: nat)
    requires Named(branch) && i < |branch|
    ensures Place(branch, branch[i].sha) == i + 1
  {
    assert branch[i] in branch;
  }

  lemma PlaceStays(a: seq<Commit>, b: seq<Commit>, sha: string)
    requires a <= b && Named(b) && Place(a, sha) > 0
    ensures Place(b, sha) == Place(a, sha)
  {
    PlaceIs(b, Place(a, sha) - 1);
  }

  /** What a poll takes for new: everything after the recorded commit, or the newest fifty. */
  lemma UntilIsNew(branch: seq<Commit>, p: nat)
    requires Named(branch) && 1 <= p <= |branch|
    ensures var view := Newest(branch);
            Until(view, branch[p - 1].sha) == if |branch| - p < |view| then |branch| - p else |view|
  {
    var view := Newest(branch);
    var n := Until(view, branch[p - 1].sha);
    if |branch| - p < |view| { assert view[|branch| - p] == branch[p - 1]; }
    if n < |view| { assert view[n] == branch[|branch| - 1 - n]; }
  }

  lemma NewAndMissed(branch: seq<Commit>, p: nat)
    requires Named(branch) && 1 <= p <= |branch|
    ensures var view, q := Newest(branch), |branch| - |Newest(branch)|;
            Count(view[..Until(view, branch[p - 1].sha)]) + (if q < p then 0 else Count(branch[p..q])) == Count(branch[p..])
  {
    var view, q := Newest(branch), |branch| - |Newest(branch)|;
    var n := Until(view, branch[p - 1].sha);
    UntilIsNew(branch, p);
    CountNewest(branch, n);
    if p <= q {
      assert branch[p..] == branch[p..q] + branch[q..];
      ExecutorAppend(branch[p..q], branch[q..]);
    }
  }

  /** From one recorded commit to the next, the total of the headers goes from `before` to `after`. */
  predicate Tells(branch: seq<Commit>, from: string, to: string, before: nat, after: nat) {
    var news := Count(Newest(branch)[..Until(Newest(branch), from)]);
    if to == from then after == before || (branch != [] && Head(branch) == from && after == before + news)
    else branch != [] && Head(branch) == to && after == before + news
  }

  /** A round that tells something counts the new commits; one that moves on in silence found none. */
  lemma RoundTells(w: Watch, r: Round)
    requires w.lastSeen != ""
    ensures Tells(r.branch, w.lastSeen, Next(w, r).lastSeen, Total(w.told), Total(Next(w, r).told))
    ensures Next(w, r).told == w.told && Next(w, r).lastSeen != w.lastSeen ==>
              Count(Newest(r.branch)[..Until(Newest(r.branch), w.lastSeen)]) == 0
  {
    var v := Next(w, r);
    if v.told != w.told { assert v.told[..|v.told| - 1] == w.told; }
  }

  /** Executor commits after `from` that are older than the newest fifty. */
  function Hidden(branch: seq<Commit>, from: string): nat {
    var p, q := Place(branch, from), |branch| - |Newest(branch)|;
    if q < p then 0 else Count(branch[p..q])
  }

  predicate Accounted(branch: seq<Commit>, from: string, to: string, before: nat, after: nat, missed: nat) {
    if to == from then after == before && missed == 0
    else branch != [] && to == Head(branch) && after + missed == before + Count(branch[Place(branch, from)..])
  }

  lemma TellingAccounts(branch: seq<Commit>, from: string, to: string, before: nat, after: nat)
    requires Named(branch) && Place(branch, from) > 0 && Tells(branch, from, to, before, after)
    ensures Accounted(branch, from, to, before, after, if to == from then 0 else Hidden(branch, from))
  {
    var p := Place(branch, from);
    NewAndMissed(branch, p);
    if to == from && branch != [] && Head(branch) == from {
      PlaceIs(branch, |branch| - 1);
      UntilIsNew(branch, p);
    }
  }

  /** One round: its header and the commits it missed add up to what came after the recorded commit. */
  lemma RoundConserves(w: Watch, r: Round)
    requires Named(r.branch) && Place(r.branch, w.lastSeen) > 0 && w.lastSeen != ""
    ensures Accounted(r.branch, w.lastSeen, Next(w, r).lastSeen, Total(w.told), Total(Next(w, r).told), Missed(w, r))
  {
    RoundTells(w, r);
    TellingAccounts(r.branch, w.lastSeen, Next(w, r).lastSeen, Total(w.told), Total(Next(w, r).told));
  }

  /** A round that moves on without a message drops exactly the executor commits since the recorded one. */
  lemma SilenceDrops(w: Watch, r: Round)
    requires Named(r.branch) && Place(r.branch, w.lastSeen) > 0 && w.lastSeen != ""
    requires Next(w, r).lastSeen != w.lastSeen && Next(w, r).told == w.told
    ensures Missed(w, r) == Count(r.branch[Place(r.branch, w.lastSeen)..])
  {
    RoundTells(w, r);
    NewAndMissed(r.branch, Place(r.branch, w.lastSeen));
  }

  lemma SpanGrows(branch: seq<Commit>, b: nat, p: nat)
    requires b <= p <= |branch|
    ensures Count(branch[b..|branch|]) == Count(branch[b..p]) + Count(branch[p..])
  {
    assert branch[b..|branch|] == branch[b..p] + branch[p..];
    ExecutorAppend(branch[b..p], branch[p..]);
  }

  /** The sum from the baseline on, carried over one round. */
  lemma SumConserves(branch: seq<Commit>, older: seq<Commit>, base: string, from: string, to: string,
                     before: nat, after: nat, missed: nat, more: nat)
    requires Named(branch) && older <= branch && 1 <= Place(older, base) <= Place(older, from)
    requires before + missed == Count(older[Place(older, base)..Place(older, from)])
    requires Accounted(branch, from, to, before, after, more)
    ensures 1 <= Place(branch, base) <= Place(branch, to)
    ensures after + missed + more == Count(branch[Place(branch, base)..Place(branch, to)])
  {
    var b, p := Place(older, base), Place(older, from);
    PlaceStays(older, branch, base);
    PlaceStays(older, branch, from);
    SliceStays(older, branch, b, p);
    if to != from {
      PlaceIs(branch, |branch| - 1);
      SpanGrows(branch, b, p);
    }
  }

  lemma SliceStays(older: seq<Commit>, branch: seq<Commit>, b: nat, p: nat)
    requires older <= branch && b <= p <= |older|
    ensures older[b..p] == branch[b..p]
  {}

  lemma BaselineConserves(w: Watch, r: Round)
    requires Named(r.branch) && w.lastSeen == "" && w.told == [] && Next(w, r).lastSeen != ""
    ensures var v := Next(w, r);
            && Total(v.told) == 0 && Missed(w, r) == 0
            && 1 <= Place(r.branch, v.lastSeen) && Count(r.branch[Place(r.branch, v.lastSeen)..Place(r.branch, v.lastSeen)]) == 0
  {
    PlaceIs(r.branch, |r.branch| - 1);
    assert r.branch[|r.branch|..|r.branch|] == [];
  }

  /**
   Through any number of failed polls and failed sends: the headers of all messages sent or logged
   count every executor commit between the baseline and the last recorded commit exactly once, except
   those that were no longer among the newest fifty when the watcher next looked.
   */
  lemma {:induction false} CommitsAreConserved(rounds: seq<Round>)
    requires Growing(rounds) && rounds != [] && After(rounds).lastSeen != ""
    ensures var w, branch := After(rounds), rounds[|rounds| - 1].branch;
            var b, p := Place(branch, Baseline(rounds)), Place(branch, w.lastSeen);
            1 <= b <= p && Total(w.told) + MissedIn(rounds) == Count(branch[b..p])
  {
    var front, r := rounds[..|rounds| - 1], rounds[|rounds| - 1];
    assert Growing(front);
    if After(front).lastSeen == "" {
      NothingYet(front);
      BaselineConserves(After(front), r);
    } else {
      CommitsAreConserved(front);
      var w, v, older := After(front), After(rounds), front[|front| - 1].branch;
      assert older <= r.branch;
      PlaceStays(older, r.branch, w.lastSeen);
      RoundConserves(w, r);
      SumConserves(r.branch, older, Baseline(front), w.lastSeen, v.lastSeen,
                   Total(w.told), Total(v.told), MissedIn(front), Missed(w, r));
    }
  }

  /** Before the baseline nothing is told and nothing is missed. */
  lemma {:induction false} NothingYet(rounds: seq<Round>)
    requires Growing(rounds) && After(rounds).lastSeen == ""
    ensures After(rounds).told == [] && MissedIn(rounds) == 0
  {
    if rounds != [] {
      var front, r := rounds[..|rounds| - 1], rounds[|rounds| - 1];
      if !Blind(r) { assert r.branch[|r.branch| - 1].sha != ""; }
      NothingYet(front);
    }
  }

  predicate Sees(w: Watch, r: Round) { exists c :: c in Newest(r.branch) && c.sha == w.lastSeen }

  /** A poll that still sees the recorded commit misses nothing; so without a gap the count is exact. */
  lemma SeeingMissesNothing(w: Watch, r: Round)
    requires Named(r.branch) && Sees(w, r)
    ensures Missed(w, r) == 0
  {
    var c :| c in Newest(r.branch) && c.sha == w.lastSeen;
    var i :| 0 <= i < |Newest(r.branch)| && Newest(r.branch)[i] == c;
    PlaceIs(r.branch, |r.branch| - 1 - i);
  }

  lemma {:induction false} WithoutGapsTheCountIsExact(rounds: seq<Round>)
    requires Growing(rounds)
    requires forall i | 0 <= i < |rounds| :: After(rounds[..i]).lastSeen == "" || Sees(After(rounds[..i]), rounds[i])
    ensures MissedIn(rounds) == 0
  {
    if rounds != [] {
      var front, r := rounds[..|rounds| - 1], rounds[|rounds| - 1];
      forall i | 0 <= i < |front| ensures After(front[..i]).lastSeen == "" || Sees(After(front[..i]), front[i]) {
        assert front[..i] == rounds[..i];
      }
      WithoutGapsTheCountIsExact(front);
      assert rounds[..|rounds| - 1] == front;
      if After(front).lastSeen != "" { SeeingMissesNothing(After(front), r); }
    }
  }

  lemma {:induction false} OthersDoNotCount(commits: seq<Commit>)
    requires forall c | c in commits :: c.author != EXECUTOR_AUTHOR
    ensures Executor(commits) == []
  {
    if commits != [] {
      assert commits[|commits| - 1] in commits;
      assert forall c | c in commits[..|commits| - 1] :: c in commits;
      OthersDoNotCount(commits[..|commits| - 1]);
    }
  }

  function Sample(i: nat): Commit { Commit(seq(i + 1, _ => 'x'), if i == 1 then EXECUTOR_AUTHOR else "someone", "") }

  /** A baseline commit, one by the executor, and fifty by someone else. */
  function SampleBranch(): (branch: seq<Commit>)
    ensures |branch| == 52 && forall i | 0 <= i < 52 :: branch[i] == Sample(i) && |branch[i].sha| == i + 1
  {
    seq(52, i requires 0 <= i < 52 => Sample(i))
  }

  lemma SampleIsNamed()
    ensures Named(SampleBranch())
  {
    var branch := SampleBranch();
    forall i, j | 0 <= i < j < |branch| ensures branch[i].sha != branch[j].sha {
      assert |branch[i].sha| != |branch[j].sha|;
    }
    forall i | 0 <= i < |branch| ensures branch[i].sha != "" { assert |branch[i].sha| > 0; }
  }

  lemma SampleHides()
    ensures Hidden(SampleBranch(), SampleBranch()[0].sha) == 1
    ensures Count(Newest(SampleBranch())[..50]) == 0
  {
    var branch := SampleBranch();
    SampleIsNamed();
    PlaceIs(branch, 0);
    OthersDoNotCount(Newest(branch)[..50]);
    var hidden := [branch[1]];
    assert branch[1..2] == hidden && branch[1] == Sample(1);
    assert hidden[..0] == [];
    assert Executor(hidden) == Executor([]) + hidden;
    assert |branch| - |Newest(branch)| == 2;
  }

  /** Behind a gap of fifty commits by others, an executor commit is dropped without a word. */
  lemma SilentLoss()
    ensures var w := Watch(SampleBranch()[0].sha, [], []);
            var r := Round(SampleBranch(), true, [], true, 0.0, false, true, true);
            && Named(r.branch) && Place(r.branch, w.lastSeen) > 0
            && Next(w, r).lastSeen == Head(r.branch) && Next(w, r).told == w.told && Missed(w, r) == 1
  {
    var branch := SampleBranch();
    var w := Watch(branch[0].sha, [], []);
    SampleIsNamed();
    SampleHides();
    PlaceIs(branch, 0);
    UntilIsNew(branch, 1);
    assert |Head(branch)| == 52 && |branch[0].sha| == 1;
    assert MessageFor(w, [], Round(branch, true, [], true, 0.0, false, true, true)).None?;
  }

  // ---- Events ---------------------------------------------------------------------------

  function Ids(events: seq<Event>): (ids: seq<nat>)
    ensures |ids| == |events| && forall i | 0 <= i < |events| :: ids[i] == events[i].id
  {
    seq(|events|, i requires 0 <= i < |events| => events[i].id)
  }

  predicate Dealt(events: seq<Event>, id: nat) { exists e :: e in events && e.id == id && e.mark.Some? }

  /** The same events, and what was dealt with stays as it was. */
  predicate Advances(before: seq<Event>, after: seq<Event>) {
    && |before| == |after|
    && forall i | 0 <= i < |before| :: after[i].id == before[i].id && (before[i].mark.Some? ==> after[i] == before[i])
  }

  lemma NextAdvances(w: Watch, r: Round)
    ensures Advances(w.events + r.arrived, Next(w, r).events)
  {}

  lemma DealtStays(before: seq<Event>, after: seq<Event>, id: nat)
    requires Advances(before, after) && Dealt(before, id)
    ensures Dealt(after, id)
  {
    var e :| e in before && e.id == id && e.mark.Some?;
    var i :| 0 <= i < |before| && before[i] == e;
    assert after[i] in after;
  }

  lemma IdIsUnique(events: seq<Event>, e: Event, f: Event)
    requires Distinct(Ids(events)) && e in events && f in events && e.id == f.id
    ensures e == f
  {
    var i, j :| 0 <= i < |events| && 0 <= j < |events| && events[i] == e && events[j] == f;
    assert Ids(events)[i] == Ids(events)[j];
  }

  lemma UnsentIsNotDealt(events: seq<Event>, now: real, id: nat)
    requires Distinct(Ids(events)) && id in Unsent(events, now, true)
    ensures !Dealt(events, id)
  {
    var e :| e in events && e.id == id && e.mark.None?;
    if f :| f in events && f.id == id && f.mark.Some? { IdIsUnique(events, e, f); }
  }

  /** Every event told is dealt with, and no event is in two messages. */
  predicate ToldOnce(w: Watch) {
    && (forall i, id | 0 <= i < |w.told| && id in w.told[i].events :: Dealt(w.events, id))
    && (forall i, j | 0 <= i < j < |w.told| :: w.told[i].events !! w.told[j].events)
  }

  /** The events a new message tells were unsent before and are dealt with after. */
  lemma NewMessage(w: Watch, r: Round)
    requires Next(w, r).told != w.told
    ensures exists m :: Next(w, r).told == w.told + [m]
                        && m.events <= Unsent(w.events + r.arrived, r.now, true)
                        && forall id | id in m.events :: Dealt(Next(w, r).events, id)
  {
    var events := w.events + r.arrived;
    var m := MessageFor(w, events, r).value;
    assert Next(w, r).told == w.told + [m];
    NewMessageDeals(w, r);
  }

  lemma NewMessageDeals(w: Watch, r: Round)
    requires Next(w, r).told != w.told
    ensures forall id | id in MessageFor(w, w.events + r.arrived, r).value.events :: Dealt(Next(w, r).events, id)
  {
    var events, after := w.events + r.arrived, Next(w, r).events;
    var ids := MessageFor(w, events, r).value.events;
    NextAdvances(w, r);
    assert forall i | 0 <= i < |events| && events[i].id in ids :: after[i].mark.Some?;
    forall id | id in ids ensures Dealt(after, id) {
      var e :| e in events && e.id == id;
      var i :| 0 <= i < |events| && events[i] == e;
      assert after[i] in after;
    }
  }

  lemma RoundTellsOnce(w: Watch, r: Round)
    requires Distinct(Ids(w.events + r.arrived)) && ToldOnce(w)
    ensures ToldOnce(Next(w, r))
  {
    var events, v := w.events + r.arrived, Next(w, r);
    NextAdvances(w, r);
    forall i, id | 0 <= i < |w.told| && id in w.told[i].events ensures Dealt(events, id) && Dealt(v.events, id) {
      assert Dealt(w.events, id);
      var e :| e in w.events && e.id == id && e.mark.Some?;
      assert e in events;
      DealtStays(events, v.events, id);
    }
    if v.told != w.told {
      NewMessage(w, r);
      var m :| v.told == w.told + [m] && m.events <= Unsent(events, r.now, true)
               && forall id | id in m.events :: Dealt(v.events, id);
      forall id | id in m.events ensures !Dealt(events, id) { UnsentIsNotDealt(events, r.now, id); }
    }
  }

  function Arrivals(rounds: seq<Round>): seq<Event> {
    if rounds == [] then [] else Arrivals(rounds[..|rounds| - 1]) + rounds[|rounds| - 1].arrived
  }

  /** However often sending fails and is tried again, no event is told in two messages. */
  lemma {:induction false} EventsAreToldOnce(rounds: seq<Round>)
    requires Distinct(Ids(Arrivals(rounds)))
    ensures ToldOnce(After(rounds)) && Ids(After(rounds).events) == Ids(Arrivals(rounds))
  {
    if rounds != [] {
      var front, r := rounds[..|rounds| - 1], rounds[|rounds| - 1];
      var w := After(front);
      assert Ids(Arrivals(front)) == Ids(Arrivals(rounds))[..|Arrivals(front)|];
      EventsAreToldOnce(front);
      assert Ids(w.events + r.arrived) == Ids(Arrivals(rounds)) by {
        assert Ids(w.events + r.arrived) == Ids(w.events) + Ids(r.arrived);
        assert Ids(Arrivals(rounds)) == Ids(Arrivals(front)) + Ids(r.arrived);
      }
      RoundTellsOnce(w, r);
      NextAdvances(w, r);
      assert Ids(After(rounds).events) == Ids(w.events + r.arrived);
    }
  }

  // ---- One round, by the fields of commits and events -------------------------------------

  /** Among the newest fifty, with no commit recorded last from there on. */
  predicate IsNew(branch: seq<Commit>, lastSeen: string, i: int) {
    0 <= i < |branch| && i >= |branch| - 50 && forall j | i <= j < |branch| :: branch[j].sha != lastSeen
  }

  /** The places of the executor's new commits. */
  function NewByExecutor(branch: seq<Commit>, lastSeen: string): set<int> {
    set i | 0 <= i < |branch| && IsNew(branch, lastSeen, i) && branch[i].author == "b300-exec-agent"
  }

  function ExecutorFrom(branch: seq<Commit>, p: nat): set<int> {
    set i | p <= i < |branch| && branch[i].author == "b300-exec-agent"
  }

  lemma {:induction false} CountIsSize(branch: seq<Commit>, p: nat)
    requires p <= |branch|
    ensures Count(branch[p..]) == |ExecutorFrom(branch, p)|
    decreases |branch| - p
  {
    if p < |branch| {
      CountIsSize(branch, p + 1);
      assert branch[p..] == [branch[p]] + branch[p + 1..];
      ExecutorAppend([branch[p]], branch[p + 1..]);
      var more: set<int> := if branch[p].author == "b300-exec-agent" then {p} else {};
      assert ExecutorFrom(branch, p) == ExecutorFrom(branch, p + 1) + more;
      assert [branch[p]][..0] == [];
    } else {
      assert ExecutorFrom(branch, p) == {};
    }
  }

  lemma UntilSplits(branch: seq<Commit>, lastSeen: string, i: nat)
    requires i < |branch|
    ensures i >= |branch| - Until(Newest(branch), lastSeen) <==> IsNew(branch, lastSeen, i)
  {
    var view := Newest(branch);
    var n := Until(view, lastSeen);
    if i >= |branch| - n {
      forall j | i <= j < |branch| ensures branch[j].sha != lastSeen { assert view[|branch| - 1 - j] == branch[j]; }
    }
    if IsNew(branch, lastSeen, i) && n < |view| { assert view[n] == branch[|branch| - 1 - n]; }
  }

  /** What a poll counts are the executor's commits, newer than the recorded one, among the newest fifty. */
  lemma PollCounts(branch: seq<Commit>, lastSeen: string)
    ensures Count(Newest(branch)[..Until(Newest(branch), lastSeen)]) == |NewByExecutor(branch, lastSeen)|
  {
    var n := Until(Newest(branch), lastSeen);
    CountNewest(branch, n);
    CountIsSize(branch, |branch| - n);
    forall i ensures i in ExecutorFrom(branch, |branch| - n) <==> i in NewByExecutor(branch, lastSeen) {
      if 0 <= i < |branch| { UntilSplits(branch, lastSeen, i); }
    }
    assert ExecutorFrom(branch, |branch| - n) == NewByExecutor(branch, lastSeen);
  }

  /** Not dealt with and at most a day old. */
  predicate Due(e: Event, now: real) { e.mark.None? && now - e.at <= 24.0 }

  predicate TriggerDue(events: seq<Event>, now: real) { exists e :: e in events && e.trigger && Due(e, now) }

  /** The round reads the branch, compares it with a recorded commit, and may write. */
  predicate Working(w: Watch, r: Round) { r.fetched && r.branch != [] && w.lastSeen != "" && !r.dryRun }

  /** There is something to say: new commits by the executor, or an event that asks for a message. */
  predicate HasNews(w: Watch, r: Round) {
    NewByExecutor(r.branch, w.lastSeen) != {} || (r.readable && TriggerDue(w.events + r.arrived, r.now))
  }

  predicate DueIds(events: seq<Event>, now: real, ids: set<nat>) {
    && (forall id | id in ids :: exists e :: e in events && e.id == id && Due(e, now))
    && (forall e | e in events && Due(e, now) :: e.id in ids)
  }

  lemma UnsentIs(events: seq<Event>, now: real)
    ensures DueIds(events, now, Unsent(events, now, true))
    ensures forall e | e in events && e.mark.None? && now - e.at > 24.0 :: e.id in Unsent(events, now, false)
    ensures forall id | id in Unsent(events, now, false) ::
              exists e :: e in events && e.id == id && e.mark.None? && now - e.at > 24.0
  {
    forall id | id in Unsent(events, now, true) ensures exists e :: e in events && e.id == id && Due(e, now) {
      var e :| e in events && e.mark.None? && Fresh(e, now) && e.id == id;
      assert Due(e, now);
    }
  }

  lemma TriggeredIff(events: seq<Event>, now: real)
    requires Distinct(Ids(events))
    ensures Triggered(events, Unsent(events, now, true)) <==> TriggerDue(events, now)
  {
    UnsentIs(events, now);
    if Triggered(events, Unsent(events, now, true)) {
      var e :| e in events && e.id in Unsent(events, now, true) && e.trigger;
      var f :| f in events && f.id == e.id && Due(f, now);
      IdIsUnique(events, e, f);
    }
  }

  /** A message would be sent exactly when there is news. */
  lemma MessageIff(w: Watch, r: Round)
    requires Distinct(Ids(w.events + r.arrived)) && r.branch != []
    ensures MessageFor(w, w.events + r.arrived, r).Some? <==> HasNews(w, r)
    ensures HasNews(w, r) ==>
              var m := MessageFor(w, w.events + r.arrived, r).value;
              && m.count == |NewByExecutor(r.branch, w.lastSeen)|
              && (m.gap <==> forall i | 0 <= i < |r.branch| && i >= |r.branch| - 50 :: r.branch[i].sha != w.lastSeen)
              && (if r.readable then DueIds(w.events + r.arrived, r.now, m.events) else m.events == {})
  {
    var events := w.events + r.arrived;
    PollCounts(r.branch, w.lastSeen);
    UnsentIs(events, r.now);
    TriggeredIff(events, r.now);
    GapIff(r.branch, w.lastSeen);
  }

  lemma GapIff(branch: seq<Commit>, lastSeen: string)
    ensures Until(Newest(branch), lastSeen) == |Newest(branch)|
            <==> forall i | 0 <= i < |branch| && i >= |branch| - 50 :: branch[i].sha != lastSeen
  {
    var view := Newest(branch);
    var n := Until(view, lastSeen);
    if n == |view| {
      forall i | 0 <= i < |branch| && i >= |branch| - 50 ensures branch[i].sha != lastSeen {
        assert view[|branch| - 1 - i] == branch[i];
      }
    } else {
      assert view[n] == branch[|branch| - 1 - n];
    }
  }

  /**
   When a round speaks and where it leaves the recorded commit: a message goes out, or to the log,
   exactly when there is news and no failing send; the recorded commit moves to the newest one unless
   a send fails.
   */
  lemma RoundSpeaksIff(w: Watch, r: Round)
    requires Distinct(Ids(w.events + r.arrived))
    ensures var v := Next(w, r);
            && (v.told != w.told <==> Working(w, r) && HasNews(w, r) && (r.configured ==> r.delivered))
            && (v.told != w.told ==> exists m :: v.told == w.told + [m] && m.count == |NewByExecutor(r.branch, w.lastSeen)|)
            && v.lastSeen == (if !r.fetched || r.branch == [] || r.dryRun
                                 || (w.lastSeen != "" && HasNews(w, r) && r.configured && !r.delivered)
                              then w.lastSeen else r.branch[|r.branch| - 1].sha)
  {
    var v, events := Next(w, r), w.events + r.arrived;
    if r.branch != [] {
      MessageIff(w, r);
      var message := MessageFor(w, events, r);
      if message.Some? { assert w.told + [message.value] != w.told; }
    }
  }

  /** What becomes of an event. */
  datatype Fate = Kept | Gone | Told | Settled

  function FateOf(w: Watch, r: Round, e: Event): Fate {
    if e.mark.Some? || !r.fetched || r.branch == [] || r.dryRun || !r.readable then Kept
    else if w.lastSeen == "" then Settled
    else if r.now - e.at > 24.0 then Gone
    else if HasNews(w, r) && (r.configured ==> r.delivered) then Told
    else Kept
  }

  /**
   The fate of every event: it expires exactly when a working round finds it more than a day old, and
   a fresh one is in the message of the first round that speaks; if sending fails it waits.
   */
  lemma EventFate(w: Watch, r: Round, i: nat)
    requires Distinct(Ids(w.events + r.arrived)) && i < |w.events + r.arrived|
    ensures |Next(w, r).events| == |w.events + r.arrived|
    ensures var e, f := (w.events + r.arrived)[i], Next(w, r).events[i];
            match FateOf(w, r, e)
            case Kept => f == e
            case Settled => f == e.(mark := Some(AtBaseline))
            case Gone => f == e.(mark := Some(Expired))
            case Told =>
              && f == e.(mark := Some(if r.configured then Announced else Logged))
              && exists m :: Next(w, r).told == w.told + [m] && e.id in m.events
  {
    var events, v := w.events + r.arrived, Next(w, r);
    var e := events[i];
    UnsentIs(events, r.now);
    forall f | f in events && f.id == e.id ensures f == e { IdIsUnique(events, e, f); }
    if r.branch != [] { MessageIff(w, r); }
  }

  /** So an event that asks for a message is told in the very round that finds it fresh, or waits for the next. */
  lemma FreshTriggerIsTold(w: Watch, r: Round, i: nat)
    requires Distinct(Ids(w.events + r.arrived)) && i < |w.events + r.arrived| && Working(w, r) && r.readable
    requires var e := (w.events + r.arrived)[i]; e.trigger && e.mark.None? && r.now - e.at <= 24.0
    ensures |Next(w, r).events| == |w.events + r.arrived|
    ensures var e, v := (w.events + r.arrived)[i], Next(w, r);
            if r.configured && !r.delivered then v.events[i] == e && v.lastSeen == w.lastSeen && v.told == w.told
            else v.events[i].mark in {Some(Announced), Some(Logged)}
                 && exists m :: v.told == w.told + [m] && e.id in m.events
  {
    assert (w.events + r.arrived)[i] in w.events + r.arrived;
    EventFate(w, r, i);
    RoundSpeaksIff(w, r);
  }
}
