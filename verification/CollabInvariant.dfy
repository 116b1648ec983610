/** What every step on the refs keeps, whoever takes it: no discipline is asked of anybody. */
module CollabInvariant {
  import opened Sequences
  import opened CollabBranch

  predicate CloneOk(w: World, c: nat)
    requires c in w.clones
  {
    w.clones[c].main in w.mains && w.clones[c].collab in w.shared
  }

  /** A commit known only to one script run, made from two shared ones. */
  predicate Private(w: World, k: nat) {
    && k < |w.commits| && k !in w.shared && |w.commits[k].parents| == 2
    && w.commits[k].parents[0] in w.shared && w.commits[k].parents[1] in w.shared
  }

  /** What a run knows before it merges. */
  predicate ReadsOk(w: World, s: nat, base: nat, since: nat, tested: nat)
    requires At(w, s)
  {
    && base in w.mains && since in w.mains && tested in w.shared
    && Ancestor(w.commits, base, since) && Ancestor(w.commits, since, Tracked(w, s).main)
    && HistoryKept(w.commits, since, tested)
  }

  ghost predicate SessionOk(w: World, s: nat)
    requires s in w.sessions
  {
    At(w, s) &&
    match w.sessions[s].stage
    case Opened(base) => base in w.mains && Ancestor(w.commits, base, Tracked(w, s).main)
    case Probed(base, since) =>
      && base in w.mains && since in w.mains
      && Ancestor(w.commits, base, since) && Ancestor(w.commits, since, Tracked(w, s).main)
    case Tested(base, since, tested) => ReadsOk(w, s, base, since, tested)
    case Counted(base, since, tested) => ReadsOk(w, s, base, since, tested)
    case Staged(base, since, tested, other, tree) => ReadsOk(w, s, base, since, tested) && other in w.shared
    case Checked(k, since, tested, checked) =>
      && Private(w, k) && w.commits[k].merge && ReadsOk(w, s, w.commits[k].parents[0], since, tested)
      && checked in w.mains && Ancestor(w.commits, since, checked)
      && CleanTree(TreeOf(w, k)) && Keeps(TreeOf(w, checked), TreeOf(w, k))
    case Merged(k) => k in w.mains && CleanTree(TreeOf(w, k))
    case SyncAsked => true
    case SyncOpened(base) => base in w.shared
    case SyncBehind(base) => base in w.shared
    case SyncApart(base) => base in w.shared
    case SyncStaged(base, other, tree) => base in w.shared && other in w.mains
    case SyncCompared(base, other, tree, main) =>
      && base in w.shared && other in w.mains && main in w.mains && CleanTree(tree) && Keeps(TreeOf(w, main), tree)
    case SyncChecked(k, main, collab) =>
      && Private(w, k) && w.commits[k].parents[1] in w.mains && main in w.mains && collab in w.shared && CleanTree(TreeOf(w, k))
      && Keeps(TreeOf(w, main), TreeOf(w, k)) && Keeps(TreeOf(w, collab), TreeOf(w, k))
    case SyncForward(k) => k in w.shared
  }

  /** The private commit of a script run, if it has one. */
  function Own(stage: Stage): Option<nat> {
    match stage
    case Checked(k, _, _, _) => Some(k)
    case SyncChecked(k, _, _) => Some(k)
    case _ => None
  }

  predicate OwnersDiffer(w: World, s: nat, t: nat)
    requires s in w.sessions && t in w.sessions
  {
    s != t && Own(w.sessions[s].stage).Some? ==> Own(w.sessions[s].stage) != Own(w.sessions[t].stage)
  }

  /** Main only moves forward, and a tip this script pushed is one clean chain. */
  ghost predicate MainOk(w: World, m: nat) {
    Ancestor(w.commits, m, w.remote.main) && (m in w.imports || CleanTree(TreeOf(w, m)))
  }

  ghost predicate RefsOk(w: World) {
    && WellFormed(w.commits) && DownClosed(w.commits, w.shared)
    && w.remote.main in w.mains && w.mains <= w.shared && w.remote.collab in w.shared && w.imports <= w.mains
    && (forall m {:trigger MainOk(w, m)} | m in w.mains :: MainOk(w, m))
  }

  ghost predicate Inv(w: World) {
    && RefsOk(w)
    && (forall c {:trigger CloneOk(w, c)} | c in w.clones :: CloneOk(w, c))
    && (forall s {:trigger SessionOk(w, s)} | s in w.sessions :: SessionOk(w, s))
    && (forall s, t {:trigger OwnersDiffer(w, s, t)} | s in w.sessions && t in w.sessions :: OwnersDiffer(w, s, t))
  }

  /** What any step leaves in place. */
  ghost predicate Extends(a: World, b: World) {
    && a.commits <= b.commits && a.shared <= b.shared && a.mains <= b.mains && a.imports <= b.imports
    && RefsOk(b)
  }

  // ---- What growth preserves ------------------------------------------------------------

  lemma ReadsStay(a: World, b: World, s: nat, base: nat, since: nat, tested: nat)
    requires Inv(a) && Extends(a, b) && At(a, s) && At(b, s) && Ancestor(b.commits, Tracked(a, s).main, Tracked(b, s).main)
    requires Tracked(a, s).main in a.mains && ReadsOk(a, s, base, since, tested)
    ensures ReadsOk(b, s, base, since, tested)
  {
    AncestorStays(a.commits, b.commits, base, since);
    AncestorStays(a.commits, b.commits, since, Tracked(a, s).main);
    AncestorTransitive(b.commits, since, Tracked(a, s).main, Tracked(b, s).main);
    HistoryStays(a.commits, b.commits, since, tested);
  }

  /** A script run that does nothing keeps its invariant while others work. */
  lemma SessionStays(a: World, b: World, s: nat)
    requires Inv(a) && Extends(a, b) && At(a, s) && At(b, s) && b.sessions[s] == a.sessions[s]
    requires Ancestor(b.commits, Tracked(a, s).main, Tracked(b, s).main)
    requires Own(a.sessions[s].stage).Some? ==> Own(a.sessions[s].stage).value !in b.shared
    ensures SessionOk(b, s)
  {
    assert SessionOk(a, s) && CloneOk(a, a.sessions[s].clone);
    var tracked := Tracked(a, s).main;
    match a.sessions[s].stage
    case Opened(base) =>
      AncestorStays(a.commits, b.commits, base, tracked);
      AncestorTransitive(b.commits, base, tracked, Tracked(b, s).main);
    case Probed(base, since) =>
      AncestorStays(a.commits, b.commits, base, since);
      AncestorStays(a.commits, b.commits, since, tracked);
      AncestorTransitive(b.commits, since, tracked, Tracked(b, s).main);
    case Tested(base, since, tested) => ReadsStay(a, b, s, base, since, tested);
    case Counted(base, since, tested) => ReadsStay(a, b, s, base, since, tested);
    case Staged(base, since, tested, _, _) => ReadsStay(a, b, s, base, since, tested);
    case Checked(k, since, tested, checked) =>
      ReadsStay(a, b, s, a.commits[k].parents[0], since, tested);
      AncestorStays(a.commits, b.commits, since, checked);
    case _ =>
  }

  /** What is left to show of a step: the clones it moves and the one run it is about. */
  lemma StepKeepsInv(a: World, b: World, s: nat)
    requires Inv(a) && Extends(a, b)
    requires b.clones == a.clones && b.sessions.Keys - {s} == a.sessions.Keys - {s}
    requires forall t | t in a.sessions && t != s :: t in b.sessions && b.sessions[t] == a.sessions[t]
    requires forall k | k in b.shared && k !in a.shared ::
               k >= |a.commits| || (s in a.sessions && Own(a.sessions[s].stage) == Some(k))
    requires s in b.sessions ==> SessionOk(b, s)
    requires s in b.sessions && Own(b.sessions[s].stage).Some?
             ==> Own(b.sessions[s].stage).value >= |a.commits| || (s in a.sessions && b.sessions[s] == a.sessions[s])
    ensures Inv(b)
  {
    forall c | c in b.clones ensures CloneOk(b, c) { assert CloneOk(a, c); }
    forall t | t in b.sessions ensures SessionOk(b, t) {
      if t != s {
        assert t in b.sessions.Keys - {s} && SessionOk(a, t);
        if s in a.sessions { assert OwnersDiffer(a, t, s); }
        SessionStays(a, b, t);
      }
    }
    forall t, u | t in b.sessions && u in b.sessions ensures OwnersDiffer(b, t, u) {
      if t != s { assert t in b.sessions.Keys - {s}; }
      if u != s { assert u in b.sessions.Keys - {s}; }
      if t in a.sessions && u in a.sessions {
        assert OwnersDiffer(a, t, u) && SessionOk(a, t) && SessionOk(a, u);
      } else if t in a.sessions {
        assert SessionOk(a, t);
      } else if u in a.sessions {
        assert SessionOk(a, u);
      }
    }
  }

  lemma MainStays(a: World, b: World, m: nat)
    requires RefsOk(a) && a.commits <= b.commits && m in a.mains && b.imports >= a.imports
    requires Ancestor(b.commits, a.remote.main, b.remote.main)
    ensures MainOk(b, m)
  {
    assert MainOk(a, m);
    AncestorStays(a.commits, b.commits, m, a.remote.main);
    AncestorTransitive(b.commits, m, a.remote.main, b.remote.main);
  }

  lemma ExtendsItself(a: World, b: World)
    requires Inv(a) && b.commits == a.commits && b.shared == a.shared && b.mains == a.mains && b.imports == a.imports
    requires b.remote.main == a.remote.main && b.remote.collab in a.shared
    ensures Extends(a, b)
  {
    forall m | m in b.mains ensures MainOk(b, m) { MainStays(a, b, m); }
  }

  lemma ExtendsByCommit(a: World, b: World, commit: Commit, public: bool)
    requires Inv(a) && b.commits == a.commits + [commit] && b.mains == a.mains && b.imports == a.imports && b.remote == a.remote
    requires b.shared == if public then a.shared + {|a.commits|} else a.shared
    requires forall p | p in commit.parents :: p in a.shared
    ensures Extends(a, b)
  {
    forall m | m in b.mains ensures MainOk(b, m) { MainStays(a, b, m); }
  }

  /** Publishing a commit whose parents are shared. */
  lemma SharedByOne(a: World, b: World, k: nat)
    requires Inv(a) && k < |a.commits| && forall p | p in a.commits[k].parents :: p in a.shared
    requires b.commits == a.commits && b.shared == a.shared + {k} && b.mains == a.mains && b.imports == a.imports
    requires b.remote.main == a.remote.main && b.remote.collab in b.shared
    ensures Extends(a, b)
  {
    forall m | m in b.mains ensures MainOk(b, m) { MainStays(a, b, m); }
  }

  /** Main moves forward to a commit whose parents are shared. */
  lemma ExtendsByTip(a: World, b: World, k: nat)
    requires Inv(a) && k < |a.commits| && (forall p | p in a.commits[k].parents :: p in a.shared)
    requires b.commits == a.commits && b.shared == a.shared + {k} && b.mains == a.mains + {k}
    requires b.remote == a.remote.(main := k) && Ancestor(a.commits, a.remote.main, k)
    requires b.imports == a.imports + {k} || (b.imports == a.imports && CleanTree(TreeOf(a, k)))
    ensures Extends(a, b)
  {
    forall m | m in b.mains ensures MainOk(b, m) {
      if m in a.mains { MainStays(a, b, m); }
    }
  }

  // ---- Step by step ---------------------------------------------------------------------

  lemma FetchKeepsInv(w: World, clone: nat)
    requires Inv(w)
    ensures Inv(Step(w, Fetch(clone)))
  {
    var b := Step(w, Fetch(clone));
    ExtendsItself(w, b);
    forall c | c in b.clones ensures CloneOk(b, c) {
      if c != clone { assert CloneOk(w, c); }
    }
    forall s | s in b.sessions ensures SessionOk(b, s) {
      assert SessionOk(w, s) && CloneOk(w, w.sessions[s].clone);
      assert MainOk(w, Tracked(w, s).main);
      SessionStays(w, b, s);
    }
    forall s, t | s in b.sessions && t in b.sessions ensures OwnersDiffer(b, s, t) { assert OwnersDiffer(w, s, t); }
  }

  /** Steps of other people: nothing happens to any script run. */
  lemma OthersKeepInv(w: World, b: World)
    requires Inv(w) && Extends(w, b) && b.clones == w.clones && b.sessions == w.sessions
    requires forall k | k in b.shared && k !in w.shared :: k >= |w.commits|
    ensures Inv(b)
  {
    forall c | c in b.clones ensures CloneOk(b, c) { assert CloneOk(w, c); }
    forall s | s in b.sessions ensures SessionOk(b, s) {
      assert SessionOk(w, s);
      SessionStays(w, b, s);
    }
    forall s, t | s in b.sessions && t in b.sessions ensures OwnersDiffer(b, s, t) { assert OwnersDiffer(w, s, t); }
  }

  lemma OwnerKeepsInv(w: World, a: Act)
    requires Inv(w) && (a.OwnerCommit? || a.OwnerMoves? || a.MainMoves?)
    ensures Inv(Step(w, a))
  {
    var b := Step(w, a);
    if b == w { return; }
    match a
    case OwnerCommit(commit) => ExtendsByCommit(w, b, commit, true); OthersKeepInv(w, b);
    case OwnerMoves(_) => ExtendsItself(w, b); OthersKeepInv(w, b);
    case MainMoves(to) =>
      assert w.shared + {to} == w.shared;
      ExtendsByTip(w, b, to);
      OthersKeepInv(w, b);
  }

  lemma OpenKeepsInv(w: World, a: Act)
    requires Inv(w) && (a.Open? || a.OpenSync?)
    ensures Inv(Step(w, a))
  {
    var b := Step(w, a);
    if b == w { return; }
    ExtendsItself(w, b);
    assert CloneOk(w, a.clone);
    assert SessionOk(b, a.session);
    StepKeepsInv(w, b, a.session);
  }

  lemma LeaveKeepsInv(w: World, b: World, s: nat)
    requires Inv(w) && b == Closed(w, s).(remote := b.remote)
    requires b.remote.main == w.remote.main && b.remote.collab in w.shared
    ensures Inv(b)
  {
    ExtendsItself(w, b);
    StepKeepsInv(w, b, s);
  }

  lemma ReadKeepsInv(w: World, s: nat, a: Act)
    requires Inv(w) && At(w, s)
    ensures Inv(ReadStep(w, s, a))
  {
    var b := ReadStep(w, s, a);
    if b == w { return; }
    assert SessionOk(w, s) && CloneOk(w, w.sessions[s].clone);
    ExtendsItself(w, b);
    assert SessionOk(b, s);
    StepKeepsInv(w, b, s);
  }

  lemma MergeKeepsInv(w: World, s: nat, tree: Tree)
    requires Inv(w) && At(w, s)
    ensures Inv(MergeStep(w, s, tree))
  {
    var b := MergeStep(w, s, tree);
    if b == w { return; }
    assert SessionOk(w, s) && CloneOk(w, w.sessions[s].clone);
    ExtendsItself(w, b);
    assert SessionOk(b, s);
    StepKeepsInv(w, b, s);
  }

  lemma CheckKeepsInv(w: World, s: nat)
    requires Inv(w) && At(w, s)
    ensures Inv(CheckStep(w, s))
  {
    var b := CheckStep(w, s);
    if b == w { return; }
    var stage, main := w.sessions[s].stage, Tracked(w, s).main;
    assert SessionOk(w, s) && CloneOk(w, w.sessions[s].clone);
    ExtendsByCommit(w, b, Commit([stage.base, stage.other], stage.tree, true), false);
    ReadsStay(w, b, s, stage.base, stage.since, stage.tested);
    AncestorStays(w.commits, b.commits, stage.since, main);
    assert TreeOf(b, main) == TreeOf(w, main);
    assert SessionOk(b, s);
    StepKeepsInv(w, b, s);
  }

  lemma CheckSyncKeepsInv(w: World, s: nat)
    requires Inv(w) && At(w, s)
    ensures Inv(CheckSyncStep(w, s))
  {
    var b := CheckSyncStep(w, s);
    if b == w { return; }
    var stage, collab := w.sessions[s].stage, Tracked(w, s).collab;
    assert SessionOk(w, s) && CloneOk(w, w.sessions[s].clone);
    ExtendsByCommit(w, b, Commit([stage.base, stage.other], stage.tree, false), false);
    assert TreeOf(b, stage.main) == TreeOf(w, stage.main) && TreeOf(b, collab) == TreeOf(w, collab);
    assert SessionOk(b, s);
    StepKeepsInv(w, b, s);
  }

  lemma ReadSyncKeepsInv(w: World, s: nat, b: World, a: Act)
    requires Inv(w) && At(w, s) && (b == ReadSyncStep(w, s, a) || b == CompareSyncStep(w, s))
    ensures Inv(b)
  {
    if b == w { return; }
    assert SessionOk(w, s) && CloneOk(w, w.sessions[s].clone);
    ExtendsItself(w, b);
    assert SessionOk(b, s);
    StepKeepsInv(w, b, s);
  }

  lemma StageSyncKeepsInv(w: World, s: nat, tree: Tree)
    requires Inv(w) && At(w, s)
    ensures Inv(StageSyncStep(w, s, tree))
  {
    var b := StageSyncStep(w, s, tree);
    if b == w { return; }
    assert SessionOk(w, s) && CloneOk(w, w.sessions[s].clone);
    ExtendsItself(w, b);
    if s in b.sessions { assert SessionOk(b, s); }
    StepKeepsInv(w, b, s);
  }

  lemma PushMainKeepsInv(w: World, s: nat)
    requires Inv(w) && At(w, s)
    ensures Inv(PushMainStep(w, s))
  {
    var b, stage := PushMainStep(w, s), w.sessions[s].stage;
    if b == w { return; }
    if !Ancestor(w.commits, w.remote.main, stage.commit) {
      LeaveKeepsInv(w, b, s);
    } else {
      assert SessionOk(w, s);
      ExtendsByTip(w, b, stage.commit);
      assert SessionOk(b, s);
      StepKeepsInv(w, b, s);
    }
  }

  lemma PushSyncKeepsInv(w: World, s: nat)
    requires Inv(w) && At(w, s)
    ensures Inv(PushSyncStep(w, s))
  {
    var b, stage := PushSyncStep(w, s), w.sessions[s].stage;
    if b == w { return; }
    if !Ancestor(w.commits, w.remote.collab, stage.commit) {
      LeaveKeepsInv(w, b, s);
    } else {
      assert SessionOk(w, s);
      SharedByOne(w, b, stage.commit);
      StepKeepsInv(w, b, s);
    }
  }

  lemma PushCollabKeepsInv(w: World, s: nat)
    requires Inv(w) && At(w, s)
    ensures Inv(PushCollabStep(w, s))
  {
    var b := PushCollabStep(w, s);
    if b == w { return; }
    assert SessionOk(w, s);
    LeaveKeepsInv(w, b, s);
  }

  lemma ActKeepsInv(w: World, a: Act)
    requires Inv(w)
    ensures Inv(Step(w, a))
  {
    match a
    case Fetch(clone) => FetchKeepsInv(w, clone);
    case Open(_, _) => OpenKeepsInv(w, a);
    case OpenSync(_, _) => OpenKeepsInv(w, a);
    case Probe(s) => if At(w, s) { ReadKeepsInv(w, s, a); }
    case Test(s) => if At(w, s) { ReadKeepsInv(w, s, a); }
    case Count(s) => if At(w, s) { ReadKeepsInv(w, s, a); }
    case Merge(s, tree) => if At(w, s) { MergeKeepsInv(w, s, tree); }
    case Check(s) => if At(w, s) { CheckKeepsInv(w, s); }
    case PushMain(s) => if At(w, s) { PushMainKeepsInv(w, s); }
    case PushCollab(s) => if At(w, s) { PushCollabKeepsInv(w, s); }
    case StageSync(s, tree) => if At(w, s) { StageSyncKeepsInv(w, s, tree); }
    case EnterSync(s) => if At(w, s) { ReadSyncKeepsInv(w, s, ReadSyncStep(w, s, a), a); }
    case DecideSync(s) => if At(w, s) { ReadSyncKeepsInv(w, s, ReadSyncStep(w, s, a), a); }
    case CompareSync(s) => if At(w, s) { ReadSyncKeepsInv(w, s, CompareSyncStep(w, s), a); }
    case CheckSync(s) => if At(w, s) { CheckSyncKeepsInv(w, s); }
    case PushSync(s) => if At(w, s) { PushSyncKeepsInv(w, s); }
    case Abandon(s) => LeaveKeepsInv(w, Closed(w, s), s);
    case _ => OwnerKeepsInv(w, a);
  }

  lemma {:induction false} RunKeepsInv(w: World, run: seq<Act>)
    requires Inv(w)
    ensures Inv(Steps(w, run))
  {
    if run != [] {
      RunKeepsInv(w, run[..|run| - 1]);
      ActKeepsInv(Steps(w, run[..|run| - 1]), run[|run| - 1]);
    }
  }

  /** A repository no script has looked at yet. */
  lemma StartIsFine(w: World)
    requires WellFormed(w.commits) && DownClosed(w.commits, w.shared)
    requires w.mains == w.imports == {w.remote.main} && w.remote.main in w.shared && w.remote.collab in w.shared
    requires w.clones == map[] && w.sessions == map[]
    ensures Inv(w)
  {}
}
