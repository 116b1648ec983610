/**
 What the script vouches for over every run of everybody: which pushes to main are accepted, what main
 and its merge history keep, and what a sync brings to the branch.
 */
module CollabProperties {
  import opened Sequences
  import opened CollabBranch
  import opened CollabInvariant
  import Gate = MigrationGate

  function MainTree(w: World): Tree { TreeOf(w, w.remote.main) }

  predicate Ready(w: World, s: nat) {
    At(w, s) && w.sessions[s].stage.Checked? && w.sessions[s].stage.commit < |w.commits|
    && |w.commits[w.sessions[s].stage.commit].parents| == 2
  }

  predicate Accepted(w: World, s: nat) {
    Ready(w, s) && Ancestor(w.commits, w.remote.main, w.sessions[s].stage.commit)
  }

  function Base(w: World, s: nat): nat
    requires Ready(w, s)
  {
    w.commits[w.sessions[s].stage.commit].parents[0]
  }

  /** The branch commit a run merged. */
  function Other(w: World, s: nat): nat
    requires Ready(w, s)
  {
    w.commits[w.sessions[s].stage.commit].parents[1]
  }

  // ---- Which pushes are accepted --------------------------------------------------------

  /** A push to main is accepted exactly when main is still at the base or the merged branch commit contains it. */
  lemma AcceptedIff(w: World, s: nat)
    requires Inv(w) && Ready(w, s)
    ensures Accepted(w, s) <==> w.remote.main == Base(w, s) || Ancestor(w.commits, w.remote.main, Other(w, s))
  {
    assert SessionOk(w, s) && MainOk(w, Base(w, s));
    AncestorOfMerge(w.commits, w.remote.main, w.sessions[s].stage.commit);
    if Ancestor(w.commits, w.remote.main, Base(w, s)) {
      AncestorAntisymmetric(w.commits, w.remote.main, Base(w, s));
    }
  }

  /** Accepted although main is no longer the tip the merge result was compared with. */
  predicate Uncompared(w: World, s: nat) { Accepted(w, s) && w.remote.main != w.sessions[s].stage.checked }

  /** That happens exactly when main has moved and the merged branch commit contains where it moved to. */
  lemma UncomparedIff(w: World, s: nat)
    requires Inv(w) && Ready(w, s)
    ensures Uncompared(w, s)
            <==> w.remote.main != w.sessions[s].stage.checked && Ancestor(w.commits, w.remote.main, Other(w, s))
  {
    var stage := w.sessions[s].stage;
    AcceptedIff(w, s);
    assert SessionOk(w, s) && MainOk(w, stage.checked);
    if w.remote.main == Base(w, s) {
      AncestorTransitive(w.commits, Base(w, s), stage.since, stage.checked);
      AncestorAntisymmetric(w.commits, stage.checked, Base(w, s));
    }
  }

  // ---- Migrations on main ---------------------------------------------------------------

  lemma PushedTree(w: World, s: nat)
    requires Accepted(w, s)
    ensures MainTree(Step(w, PushMain(s))) == TreeOf(w, w.sessions[s].stage.commit)
  {}

  lemma CheckedTree(w: World, s: nat)
    requires Inv(w) && Ready(w, s)
    ensures Keeps(TreeOf(w, w.sessions[s].stage.checked), TreeOf(w, w.sessions[s].stage.commit))
  {
    assert SessionOk(w, s);
  }

  /** A push that was compared with the tip it replaces keeps that tip's migrations. */
  lemma ComparedPushKeeps(w: World, s: nat)
    requires Inv(w) && Accepted(w, s) && !Uncompared(w, s)
    ensures Keeps(MainTree(w), MainTree(Step(w, PushMain(s))))
  {
    PushedTree(w, s);
    CheckedTree(w, s);
  }

  /** Main moves, and this script did not compare the new tip with the old one. */
  predicate Unvouched(w: World, a: Act) {
    (a.MainMoves? && MovesMain(w, a.to)) || (a.PushMain? && Uncompared(w, a.session))
  }

  lemma OnlyPushesMoveMain(w: World, a: Act)
    requires Inv(w)
    ensures w.commits <= Step(w, a).commits
    ensures !(a.MainMoves? && MovesMain(w, a.to)) && !(a.PushMain? && Accepted(w, a.session))
            ==> Step(w, a).remote.main == w.remote.main
  {
    if a.PushMain? && At(w, a.session) { assert SessionOk(w, a.session); }
  }

  lemma ActKeepsMain(w: World, a: Act)
    requires Inv(w) && !Unvouched(w, a)
    ensures Keeps(MainTree(w), MainTree(Step(w, a)))
  {
    if a.PushMain? && Accepted(w, a.session) {
      ComparedPushKeeps(w, a.session);
    } else {
      OnlyPushesMoveMain(w, a);
    }
  }

  /** Step `i` of the run edits or drops a migration on main, unvouched for. */
  ghost predicate CostAt(w: World, run: seq<Act>, i: nat)
    requires i < |run|
  {
    Unvouched(Steps(w, run[..i]), run[i]) && !Keeps(MainTree(Steps(w, run[..i])), MainTree(Steps(w, run[..i + 1])))
  }

  lemma CostStays(w: World, run: seq<Act>, i: nat)
    requires i < |run| - 1 && CostAt(w, run[..|run| - 1], i)
    ensures CostAt(w, run, i)
  {
    assert run[..|run| - 1][..i] == run[..i] && run[..|run| - 1][..i + 1] == run[..i + 1];
  }

  /**
   Whatever is pushed to either branch, by whomever and however, and however script runs overlap: a
   migration on main stays there byte for byte, unless a step this script does not vouch for took it.
   Such a step is an outside push that edits migrations itself, or a push of a merge whose branch
   commit already contained a main it was not compared with.
   */
  lemma {:induction false} MainIsAppendOnly(w: World, run: seq<Act>)
    requires Inv(w)
    ensures Keeps(MainTree(w), MainTree(Steps(w, run))) || exists i :: 0 <= i < |run| && CostAt(w, run, i)
  {
    if run != [] {
      var front, a := run[..|run| - 1], run[|run| - 1];
      var mid, end := Steps(w, front), Steps(w, run);
      MainIsAppendOnly(w, front);
      RunKeepsInv(w, front);
      if i :| 0 <= i < |front| && CostAt(w, front, i) {
        CostStays(w, run, i);
      } else if Keeps(MainTree(mid), MainTree(end)) {
        KeepsTransitive(MainTree(w), MainTree(mid), MainTree(end));
      } else {
        if !Unvouched(mid, a) { ActKeepsMain(mid, a); }
        assert run[..|run|] == run;
        assert CostAt(w, run, |run| - 1);
      }
    }
  }

  // ---- Outside pushes that do no harm ---------------------------------------------------

  /** The branch commit a run has staged or committed a merge of. */
  function Taken(w: World, s: nat): Option<nat>
    requires s in w.sessions
  {
    match w.sessions[s].stage
    case Staged(_, _, _, other, _) => Some(other)
    case Checked(k, _, _, _) => if Ready(w, s) then Some(Other(w, s)) else None
    case _ => None
  }

  /** The main a merge was or will be compared with. */
  function Compared(w: World, s: nat): nat
    requires At(w, s)
  {
    if w.sessions[s].stage.Checked? then w.sessions[s].stage.checked else Tracked(w, s).main
  }

  predicate CloneFresh(w: World, c: nat)
    requires c in w.clones
  {
    w.remote.main == w.clones[c].main || !Ancestor(w.commits, w.remote.main, w.clones[c].collab)
  }

  predicate RunFresh(w: World, s: nat)
    requires s in w.sessions
  {
    At(w, s) && Taken(w, s).Some? ==>
      w.remote.main == Compared(w, s) || !Ancestor(w.commits, w.remote.main, Taken(w, s).value)
  }

  /** No branch commit that is tracked, staged or committed contains a main it was not compared with. */
  ghost predicate Fresh(w: World) {
    && (forall c {:trigger CloneFresh(w, c)} | c in w.clones :: CloneFresh(w, c))
    && (forall s {:trigger RunFresh(w, s)} | s in w.sessions :: RunFresh(w, s))
  }

  predicate UnseenByClone(w: World, to: nat, c: nat)
    requires c in w.clones
  {
    !Ancestor(w.commits, to, w.clones[c].collab)
  }

  predicate UnseenByRun(w: World, to: nat, s: nat)
    requires s in w.sessions
  {
    At(w, s) && Taken(w, s).Some? ==> !Ancestor(w.commits, to, Taken(w, s).value)
  }

  /** No checkout has fetched, and no run has merged, a branch commit that contains `to`. */
  ghost predicate Harmless(w: World, to: nat) {
    && (forall c {:trigger UnseenByClone(w, to, c)} | c in w.clones :: UnseenByClone(w, to, c))
    && (forall s {:trigger UnseenByRun(w, to, s)} | s in w.sessions :: UnseenByRun(w, to, s))
  }

  /** The exact condition on an outside push. */
  lemma OutsidePushIsHarmlessIff(w: World, to: nat)
    requires Inv(w) && Fresh(w) && MovesMain(w, to)
    ensures Fresh(Step(w, MainMoves(to))) <==> Harmless(w, to)
  {
    var b := Step(w, MainMoves(to));
    forall c | c in w.clones ensures CloneFresh(b, c) <==> UnseenByClone(w, to, c) {
      assert CloneOk(w, c);
      TipIsOlder(w, w.clones[c].main, to);
    }
    forall s | s in w.sessions ensures RunFresh(b, s) <==> UnseenByRun(w, to, s) {
      assert SessionOk(w, s) && CloneOk(w, w.sessions[s].clone);
      TipIsOlder(w, Compared(w, s), to);
    }
  }

  lemma TipIsOlder(w: World, m: nat, to: nat)
    requires Inv(w) && m in w.mains && MovesMain(w, to)
    ensures m != to
  {
    assert MainOk(w, m);
    if m == to { AncestorAntisymmetric(w.commits, m, w.remote.main); }
  }

  /** What was shared before cannot contain a commit that was not. */
  lemma NewTipIsUnseen(a: World, b: World, tip: nat, id: nat)
    requires DownClosed(a.commits, a.shared) && a.commits <= b.commits && id in a.shared && tip !in a.shared
    ensures !Ancestor(b.commits, tip, id)
  {
    AncestorStays(a.commits, b.commits, tip, id);
    if Ancestor(a.commits, tip, id) { AncestorsAreShared(a.commits, a.shared, tip, id); }
  }

  /** Main stays, or moves to a commit nobody had. */
  predicate MainQuiet(a: World, b: World) {
    a.commits <= b.commits && (b.remote.main == a.remote.main || b.remote.main !in a.shared)
  }

  lemma CloneStaysFresh(a: World, b: World, c: nat)
    requires Inv(a) && MainQuiet(a, b) && c in a.clones && c in b.clones && b.clones[c] == a.clones[c] && CloneFresh(a, c)
    ensures CloneFresh(b, c)
  {
    assert CloneOk(a, c);
    if b.remote.main != a.remote.main {
      NewTipIsUnseen(a, b, b.remote.main, a.clones[c].collab);
    } else {
      AncestorStays(a.commits, b.commits, a.remote.main, a.clones[c].collab);
    }
  }

  lemma RunStaysFresh(a: World, b: World, s: nat)
    requires Inv(a) && MainQuiet(a, b) && s in a.sessions && s in b.sessions && b.sessions[s] == a.sessions[s]
    requires At(a, s) && At(b, s) && (Tracked(b, s) == Tracked(a, s) || Tracked(b, s).main == b.remote.main)
    requires RunFresh(a, s)
    ensures RunFresh(b, s)
  {
    assert SessionOk(a, s);
    if Taken(a, s).Some? {
      if b.remote.main != a.remote.main {
        NewTipIsUnseen(a, b, b.remote.main, Taken(a, s).value);
      } else {
        AncestorStays(a.commits, b.commits, a.remote.main, Taken(a, s).value);
      }
    }
  }

  /** What is left to show of a step about one run. */
  lemma StepKeepsFresh(a: World, b: World, s: nat)
    requires Inv(a) && Fresh(a) && MainQuiet(a, b) && b.clones == a.clones
    requires forall t | t in b.sessions && t != s :: t in a.sessions && b.sessions[t] == a.sessions[t]
    requires s in b.sessions ==> RunFresh(b, s)
    ensures Fresh(b)
  {
    forall c | c in b.clones ensures CloneFresh(b, c) {
      assert CloneFresh(a, c);
      CloneStaysFresh(a, b, c);
    }
    forall t | t in b.sessions ensures RunFresh(b, t) {
      if t != s {
        assert SessionOk(a, t) && RunFresh(a, t);
        RunStaysFresh(a, b, t);
      }
    }
  }

  lemma FetchKeepsFresh(w: World, clone: nat)
    requires Inv(w) && Fresh(w)
    ensures Fresh(Step(w, Fetch(clone)))
  {
    var b := Step(w, Fetch(clone));
    forall c | c in b.clones ensures CloneFresh(b, c) {
      if c != clone { assert CloneFresh(w, c); }
    }
    forall s | s in b.sessions ensures RunFresh(b, s) {
      assert SessionOk(w, s) && RunFresh(w, s);
      RunStaysFresh(w, b, s);
    }
  }

  lemma MergeKeepsFresh(w: World, s: nat, tree: Tree)
    requires Inv(w) && Fresh(w) && At(w, s)
    ensures Fresh(MergeStep(w, s, tree))
  {
    var b := MergeStep(w, s, tree);
    if b != w {
      assert CloneFresh(w, w.sessions[s].clone);
      assert RunFresh(b, s);
      StepKeepsFresh(w, b, s);
    }
  }

  lemma CheckKeepsFresh(w: World, s: nat)
    requires Inv(w) && Fresh(w) && At(w, s)
    ensures Fresh(CheckStep(w, s))
  {
    var b := CheckStep(w, s);
    if b != w {
      assert SessionOk(w, s) && RunFresh(w, s);
      AncestorStays(w.commits, b.commits, w.remote.main, w.sessions[s].stage.other);
      assert RunFresh(b, s);
      StepKeepsFresh(w, b, s);
    }
  }

  lemma PushKeepsFresh(w: World, s: nat, b: World)
    requires Inv(w) && Fresh(w) && At(w, s)
    requires b == PushMainStep(w, s) || b == PushCollabStep(w, s) || b == PushSyncStep(w, s)
    ensures Fresh(b)
  {
    if b != w {
      assert SessionOk(w, s);
      StepKeepsFresh(w, b, s);
    }
  }

  lemma ReadKeepsFresh(w: World, s: nat, a: Act, tree: Tree)
    requires Inv(w) && Fresh(w) && At(w, s)
    ensures Fresh(ReadStep(w, s, a)) && Fresh(StageSyncStep(w, s, tree))
  {
    if ReadStep(w, s, a) != w { StepKeepsFresh(w, ReadStep(w, s, a), s); }
    if StageSyncStep(w, s, tree) != w { StepKeepsFresh(w, StageSyncStep(w, s, tree), s); }
  }

  lemma CheckSyncKeepsFresh(w: World, s: nat, a: Act)
    requires Inv(w) && Fresh(w) && At(w, s)
    ensures Fresh(ReadSyncStep(w, s, a)) && Fresh(CompareSyncStep(w, s)) && Fresh(CheckSyncStep(w, s))
  {
    if ReadSyncStep(w, s, a) != w { StepKeepsFresh(w, ReadSyncStep(w, s, a), s); }
    if CompareSyncStep(w, s) != w { StepKeepsFresh(w, CompareSyncStep(w, s), s); }
    if CheckSyncStep(w, s) != w { StepKeepsFresh(w, CheckSyncStep(w, s), s); }
  }

  /** The step is no harmful outside push. */
  ghost predicate Careful(w: World, a: Act) { a.MainMoves? && MovesMain(w, a.to) ==> Harmless(w, a.to) }

  lemma ActKeepsFresh(w: World, a: Act)
    requires Inv(w) && Fresh(w) && Careful(w, a)
    ensures Fresh(Step(w, a))
  {
    match a
    case Fetch(clone) => FetchKeepsFresh(w, clone);
    case MainMoves(to) => if MovesMain(w, to) { OutsidePushIsHarmlessIff(w, to); }
    case Merge(s, tree) => if At(w, s) { MergeKeepsFresh(w, s, tree); }
    case Check(s) => if At(w, s) { CheckKeepsFresh(w, s); }
    case PushMain(s) => if At(w, s) { PushKeepsFresh(w, s, PushMainStep(w, s)); }
    case PushCollab(s) => if At(w, s) { PushKeepsFresh(w, s, PushCollabStep(w, s)); }
    case PushSync(s) => if At(w, s) { PushKeepsFresh(w, s, PushSyncStep(w, s)); }
    case StageSync(s, tree) => if At(w, s) { ReadKeepsFresh(w, s, a, tree); }
    case EnterSync(s) => if At(w, s) { CheckSyncKeepsFresh(w, s, a); }
    case DecideSync(s) => if At(w, s) { CheckSyncKeepsFresh(w, s, a); }
    case CompareSync(s) => if At(w, s) { CheckSyncKeepsFresh(w, s, a); }
    case CheckSync(s) => if At(w, s) { CheckSyncKeepsFresh(w, s, a); }
    case Probe(s) => if At(w, s) { ReadKeepsFresh(w, s, a, map[]); }
    case Test(s) => if At(w, s) { ReadKeepsFresh(w, s, a, map[]); }
    case Count(s) => if At(w, s) { ReadKeepsFresh(w, s, a, map[]); }
    case OwnerCommit(_) => if Step(w, a) != w { OwnerKeepsFresh(w, a); }
    case OwnerMoves(_) => OwnerKeepsFresh(w, a);
    case _ => if Step(w, a) != w { StepKeepsFresh(w, Step(w, a), a.session); }
  }

  lemma OwnerKeepsFresh(w: World, a: Act)
    requires Inv(w) && Fresh(w) && (a.OwnerCommit? || a.OwnerMoves?)
    ensures Fresh(Step(w, a))
  {
    var b := Step(w, a);
    if 0 in w.sessions {
      assert SessionOk(w, 0) && RunFresh(w, 0);
      RunStaysFresh(w, b, 0);
    }
    StepKeepsFresh(w, b, 0);
  }

  ghost predicate CarefulRun(w: World, run: seq<Act>) {
    run == [] || (CarefulRun(w, run[..|run| - 1]) && Careful(Steps(w, run[..|run| - 1]), run[|run| - 1]))
  }

  lemma {:induction false} RunKeepsFresh(w: World, run: seq<Act>)
    requires Inv(w) && Fresh(w) && CarefulRun(w, run)
    ensures Inv(Steps(w, run)) && Fresh(Steps(w, run))
  {
    if run != [] {
      RunKeepsFresh(w, run[..|run| - 1]);
      ActKeepsInv(Steps(w, run[..|run| - 1]), run[|run| - 1]);
      ActKeepsFresh(Steps(w, run[..|run| - 1]), run[|run| - 1]);
    }
  }

  lemma FreshPushIsCompared(w: World, s: nat)
    requires Inv(w) && Fresh(w)
    ensures !Uncompared(w, s)
  {
    if Accepted(w, s) {
      UncomparedIff(w, s);
      assert RunFresh(w, s);
    }
  }

  /**
   Outside pushes included, as long as none is of a commit that a fetched branch tip or a merge in
   progress already contains: every accepted push was compared with the very tip it replaces and keeps
   its migrations, so that only an outside push can ever take a migration off main.
   */
  lemma CarefulPushesKeepMain(w: World, run: seq<Act>, a: Act)
    requires Inv(w) && Fresh(w) && CarefulRun(w, run) && !a.MainMoves?
    ensures var v := Steps(w, run);
            && Keeps(MainTree(v), MainTree(Step(v, a)))
            && (a.PushMain? ==> !Uncompared(v, a.session))
  {
    RunKeepsFresh(w, run);
    var v := Steps(w, run);
    if a.PushMain? { FreshPushIsCompared(v, a.session); }
    ActKeepsMain(v, a);
  }

  // ---- Merge history --------------------------------------------------------------------

  /** What main took in last is still part of what it takes in later. */
  predicate HistoryGrows(a: World, b: World) {
    var before, after := LastMerged(a.commits, a.remote.main), LastMerged(b.commits, b.remote.main);
    before.Some? ==> after.Some? && Ancestor(b.commits, before.value, after.value)
  }

  /**
   An accepted push keeps the merge history of main exactly when the commit it merged passes the test.
   The test was made on an earlier reading of the branch; if the merged commit contains that one, as it
   does unless the branch was rewritten in between, it passes too.
   */
  lemma PushKeepsHistoryIff(w: World, s: nat)
    requires Inv(w) && Accepted(w, s)
    ensures HistoryGrows(w, Step(w, PushMain(s))) <==> HistoryKept(w.commits, w.remote.main, Other(w, s))
    ensures Ancestor(w.commits, w.sessions[s].stage.tested, Other(w, s)) ==> HistoryGrows(w, Step(w, PushMain(s)))
  {
    var stage, main := w.sessions[s].stage, w.remote.main;
    assert SessionOk(w, s);
    AcceptedIff(w, s);
    assert LastMerged(w.commits, stage.commit) == Some(Other(w, s));
    if LastMerged(w.commits, main).Some? {
      LastMergedIsAncestor(w.commits, main);
      var last := LastMerged(w.commits, main).value;
      if Ancestor(w.commits, main, Other(w, s)) {
        AncestorTransitive(w.commits, last, main, Other(w, s));
      } else {
        assert MainOk(w, stage.since);
        AncestorAntisymmetric(w.commits, stage.since, main);
        if Ancestor(w.commits, stage.tested, Other(w, s)) {
          AncestorTransitive(w.commits, last, stage.tested, Other(w, s));
        }
      }
    }
  }

  /** Main moves from outside, or by a merge of a branch that was rewritten after it was tested. */
  predicate Untested(w: World, a: Act) {
    || (a.MainMoves? && MovesMain(w, a.to))
    || (a.PushMain? && Accepted(w, a.session)
        && !Ancestor(w.commits, w.sessions[a.session].stage.tested, Other(w, a.session)))
  }

  lemma ActKeepsHistory(w: World, a: Act)
    requires Inv(w) && !Untested(w, a)
    ensures HistoryGrows(w, Step(w, a))
  {
    OnlyPushesMoveMain(w, a);
    if a.PushMain? && Accepted(w, a.session) {
      PushKeepsHistoryIff(w, a.session);
    } else {
      LastMergedStays(w.commits, Step(w, a).commits, w.remote.main);
    }
  }

  ghost predicate HistoryLostAt(w: World, run: seq<Act>, i: nat)
    requires i < |run|
  {
    Untested(Steps(w, run[..i]), run[i]) && !HistoryGrows(Steps(w, run[..i]), Steps(w, run[..i + 1]))
  }

  lemma HistoryTransitive(a: World, b: World, c: World)
    requires Inv(b) && b.commits <= c.commits && HistoryGrows(a, b) && HistoryGrows(b, c)
    ensures HistoryGrows(a, c)
  {
    if LastMerged(a.commits, a.remote.main).Some? {
      var first, second := LastMerged(a.commits, a.remote.main).value, LastMerged(b.commits, b.remote.main).value;
      LastMergedIsAncestor(b.commits, b.remote.main);
      AncestorStays(b.commits, c.commits, first, second);
      AncestorTransitive(c.commits, first, second, LastMerged(c.commits, c.remote.main).value);
    }
  }

  /**
   No merged branch commit is ever rewritten away, whatever owners force onto the branch, unless a step
   lost it whose merged commit was not the one tested, or that came from outside the script.
   */
  lemma {:induction false} HistoryIsKept(w: World, run: seq<Act>)
    requires Inv(w)
    ensures HistoryGrows(w, Steps(w, run)) || exists i :: 0 <= i < |run| && HistoryLostAt(w, run, i)
  {
    if run != [] {
      var front, a := run[..|run| - 1], run[|run| - 1];
      var mid, end := Steps(w, front), Steps(w, run);
      HistoryIsKept(w, front);
      RunKeepsInv(w, front);
      OnlyPushesMoveMain(mid, a);
      if i :| 0 <= i < |front| && HistoryLostAt(w, front, i) {
        assert front[..i] == run[..i] && front[..i + 1] == run[..i + 1];
        assert HistoryLostAt(w, run, i);
      } else if HistoryGrows(mid, end) {
        HistoryTransitive(w, mid, end);
      } else {
        if !Untested(mid, a) { ActKeepsHistory(mid, a); }
        assert run[..|run|] == run;
        assert HistoryLostAt(w, run, |run| - 1);
      }
    } else {
      if LastMerged(w.commits, w.remote.main).Some? { LastMergedIsAncestor(w.commits, w.remote.main); }
    }
  }

  // ---- Clean trees ----------------------------------------------------------------------

  /** Public commits that this script neither made nor pushed to main. */
  function Foreign(w: World): set<nat> { w.shared - (w.mains - w.imports) }

  ghost predicate CleanOrForeign(w: World, k: nat) { CleanTree(TreeOf(w, k)) || k in Foreign(w) }

  lemma MainPushIsClean(w: World, s: nat)
    requires Inv(w) && At(w, s)
    ensures var b := PushMainStep(w, s);
            b.remote != w.remote ==> b.remote.collab == w.remote.collab && CleanTree(TreeOf(w, b.remote.main))
  {
    assert SessionOk(w, s);
  }

  lemma BranchPushIsClean(w: World, s: nat, b: World)
    requires Inv(w) && At(w, s) && (b == PushCollabStep(w, s) || b == PushSyncStep(w, s))
    ensures b.remote != w.remote ==> b.remote.main == w.remote.main && CleanOrForeign(w, b.remote.collab)
  {
    assert SessionOk(w, s);
    var stage := w.sessions[s].stage;
    if stage.SyncForward? && stage.commit in w.mains { assert MainOk(w, stage.commit); }
  }

  /**
   Every tree the script pushes to main is one clean chain, and every tree it pushes to the branch is
   one or belongs to a public commit of somebody else.
   */
  lemma ScriptPushesAreClean(w: World, run: seq<Act>, a: Act)
    requires Inv(w) && (a.PushMain? || a.PushCollab? || a.PushSync?)
    ensures var before, after := Steps(w, run), Step(Steps(w, run), a);
            && (after.remote.main != before.remote.main ==> CleanTree(TreeOf(before, after.remote.main)))
            && (after.remote.collab != before.remote.collab ==> CleanOrForeign(before, after.remote.collab))
  {
    RunKeepsInv(w, run);
    var v := Steps(w, run);
    if At(v, a.session) {
      match a
      case PushMain(s) => MainPushIsClean(v, s);
      case PushCollab(s) => BranchPushIsClean(v, s, PushCollabStep(v, s));
      case PushSync(s) => BranchPushIsClean(v, s, PushSyncStep(v, s));
    }
  }

  // ---- Syncs ----------------------------------------------------------------------------

  predicate CloneLinear(w: World, c: nat)
    requires c in w.clones
  {
    Ancestor(w.commits, w.clones[c].collab, w.remote.collab)
  }

  /** The branch commit a sync started from. */
  function SyncBase(stage: Stage): Option<nat> {
    match stage
    case SyncOpened(base) => Some(base)
    case SyncBehind(base) => Some(base)
    case SyncApart(base) => Some(base)
    case SyncStaged(base, _, _) => Some(base)
    case SyncCompared(base, _, _, _) => Some(base)
    case _ => None
  }

  predicate CheckedLinear(w: World, k: nat, collab: nat) {
    && k < |w.commits| && |w.commits[k].parents| == 2
    && Ancestor(w.commits, w.commits[k].parents[0], collab) && Ancestor(w.commits, collab, w.remote.collab)
  }

  predicate RunLinear(w: World, s: nat)
    requires s in w.sessions
  {
    var stage := w.sessions[s].stage;
    && At(w, s)
    && (SyncBase(stage).Some? ==> Ancestor(w.commits, SyncBase(stage).value, Tracked(w, s).collab))
    && (stage.SyncChecked? ==> CheckedLinear(w, stage.commit, stage.collab))
  }

  /** No branch tip a sync works from has been rewritten. */
  ghost predicate Linear(w: World) {
    && (forall c {:trigger CloneLinear(w, c)} | c in w.clones :: CloneLinear(w, c))
    && (forall s {:trigger RunLinear(w, s)} | s in w.sessions :: RunLinear(w, s))
  }

  /** The step does not force the branch. */
  predicate BranchForward(w: World, a: Act) {
    a.OwnerMoves? && a.to in w.shared ==> Ancestor(w.commits, w.remote.collab, a.to)
  }

  predicate CollabGrows(a: World, b: World) {
    && a.commits <= b.commits
    && Ancestor(b.commits, a.remote.collab, b.remote.collab)
  }

  lemma CloneStaysLinear(a: World, b: World, c: nat)
    requires Inv(a) && CollabGrows(a, b) && c in a.clones && c in b.clones && b.clones[c] == a.clones[c] && CloneLinear(a, c)
    ensures CloneLinear(b, c)
  {
    AncestorStays(a.commits, b.commits, a.clones[c].collab, a.remote.collab);
    AncestorTransitive(b.commits, a.clones[c].collab, a.remote.collab, b.remote.collab);
  }

  lemma RunStaysLinear(a: World, b: World, s: nat)
    requires Inv(a) && Linear(a) && CollabGrows(a, b) && s in a.sessions && s in b.sessions && b.sessions[s] == a.sessions[s]
    requires At(a, s) && At(b, s) && (Tracked(b, s) == Tracked(a, s) || Tracked(b, s).collab == a.remote.collab)
    ensures RunLinear(b, s)
  {
    assert SessionOk(a, s) && RunLinear(a, s) && CloneLinear(a, a.sessions[s].clone) && CloneOk(a, a.sessions[s].clone);
    var tracked := Tracked(a, s).collab;
    AncestorStays(a.commits, b.commits, tracked, a.remote.collab);
    var stage := a.sessions[s].stage;
    if stage.SyncChecked? {
      AncestorStays(a.commits, b.commits, a.commits[stage.commit].parents[0], stage.collab);
      AncestorStays(a.commits, b.commits, stage.collab, a.remote.collab);
      AncestorTransitive(b.commits, stage.collab, a.remote.collab, b.remote.collab);
    } else if SyncBase(stage).Some? {
      AncestorStays(a.commits, b.commits, SyncBase(stage).value, tracked);
      AncestorTransitive(b.commits, SyncBase(stage).value, tracked, Tracked(b, s).collab);
    }
  }

  lemma StepKeepsLinear(a: World, b: World, s: nat)
    requires Inv(a) && Linear(a) && CollabGrows(a, b) && b.clones == a.clones
    requires forall t | t in b.sessions && t != s :: t in a.sessions && b.sessions[t] == a.sessions[t]
    requires s in b.sessions ==> RunLinear(b, s)
    ensures Linear(b)
  {
    forall c | c in b.clones ensures CloneLinear(b, c) {
      assert CloneLinear(a, c);
      CloneStaysLinear(a, b, c);
    }
    forall t | t in b.sessions ensures RunLinear(b, t) {
      if t != s {
        assert SessionOk(a, t);
        RunStaysLinear(a, b, t);
      }
    }
  }

  lemma FetchKeepsLinear(w: World, clone: nat)
    requires Inv(w) && Linear(w)
    ensures Linear(Step(w, Fetch(clone)))
  {
    var b := Step(w, Fetch(clone));
    forall c | c in b.clones ensures CloneLinear(b, c) {
      if c != clone { assert CloneLinear(w, c); }
    }
    forall s | s in b.sessions ensures RunLinear(b, s) {
      assert SessionOk(w, s);
      RunStaysLinear(w, b, s);
    }
  }

  lemma CheckSyncKeepsLinear(w: World, s: nat)
    requires Inv(w) && Linear(w) && At(w, s)
    ensures Linear(CheckSyncStep(w, s))
  {
    var b := CheckSyncStep(w, s);
    if b != w {
      var stage, refs := w.sessions[s].stage, Tracked(w, s);
      assert SessionOk(w, s) && RunLinear(w, s) && CloneLinear(w, w.sessions[s].clone) && CloneOk(w, w.sessions[s].clone);
      AncestorStays(w.commits, b.commits, stage.base, refs.collab);
      AncestorStays(w.commits, b.commits, refs.collab, w.remote.collab);
      assert RunLinear(b, s);
      StepKeepsLinear(w, b, s);
    }
  }

  /** A step that leaves the tips and the commits alone, and brings its run no new base but the tracked one. */
  lemma RunActKeepsLinear(w: World, b: World, s: nat)
    requires Inv(w) && Linear(w) && CollabGrows(w, b) && At(w, s) && b.clones == w.clones
    requires forall t | t in b.sessions && t != s :: t in w.sessions && b.sessions[t] == w.sessions[t]
    requires s in b.sessions ==> b.sessions[s].clone == w.sessions[s].clone && !b.sessions[s].stage.SyncChecked?
    requires s in b.sessions && SyncBase(b.sessions[s].stage).Some?
             ==> b.commits == w.commits
                 && SyncBase(b.sessions[s].stage) in {SyncBase(w.sessions[s].stage), Some(Tracked(w, s).collab)}
    ensures Linear(b)
  {
    assert RunLinear(w, s);
    if s in b.sessions { assert RunLinear(b, s); }
    StepKeepsLinear(w, b, s);
  }

  lemma ReadKeepsLinear(w: World, s: nat, a: Act, tree: Tree)
    requires Inv(w) && Linear(w) && At(w, s)
    ensures Linear(ReadStep(w, s, a)) && Linear(MergeStep(w, s, tree)) && Linear(ReadSyncStep(w, s, a))
  {
    if ReadStep(w, s, a) != w { RunActKeepsLinear(w, ReadStep(w, s, a), s); }
    if MergeStep(w, s, tree) != w { RunActKeepsLinear(w, MergeStep(w, s, tree), s); }
    if ReadSyncStep(w, s, a) != w { RunActKeepsLinear(w, ReadSyncStep(w, s, a), s); }
  }

  lemma CheckKeepsLinear(w: World, s: nat, tree: Tree)
    requires Inv(w) && Linear(w) && At(w, s)
    ensures Linear(CheckStep(w, s)) && Linear(StageSyncStep(w, s, tree)) && Linear(CompareSyncStep(w, s))
  {
    AncestorStays(w.commits, CheckStep(w, s).commits, w.remote.collab, w.remote.collab);
    if CheckStep(w, s) != w { RunActKeepsLinear(w, CheckStep(w, s), s); }
    if StageSyncStep(w, s, tree) != w { RunActKeepsLinear(w, StageSyncStep(w, s, tree), s); }
    if CompareSyncStep(w, s) != w { RunActKeepsLinear(w, CompareSyncStep(w, s), s); }
  }

  lemma PushKeepsLinear(w: World, s: nat)
    requires Inv(w) && Linear(w) && At(w, s)
    ensures Linear(PushMainStep(w, s)) && Linear(PushCollabStep(w, s)) && Linear(PushSyncStep(w, s))
  {
    if PushMainStep(w, s) != w { RunActKeepsLinear(w, PushMainStep(w, s), s); }
    if PushCollabStep(w, s) != w { RunActKeepsLinear(w, PushCollabStep(w, s), s); }
    if PushSyncStep(w, s) != w { RunActKeepsLinear(w, PushSyncStep(w, s), s); }
  }

  lemma ActKeepsLinear(w: World, a: Act)
    requires Inv(w) && Linear(w) && BranchForward(w, a)
    ensures Linear(Step(w, a))
  {
    match a
    case Fetch(clone) => FetchKeepsLinear(w, clone);
    case Probe(s) => if At(w, s) { ReadKeepsLinear(w, s, a, map[]); }
    case Test(s) => if At(w, s) { ReadKeepsLinear(w, s, a, map[]); }
    case Count(s) => if At(w, s) { ReadKeepsLinear(w, s, a, map[]); }
    case Merge(s, tree) => if At(w, s) { ReadKeepsLinear(w, s, a, tree); }
    case Check(s) => if At(w, s) { CheckKeepsLinear(w, s, map[]); }
    case PushMain(s) => if At(w, s) { PushKeepsLinear(w, s); }
    case PushCollab(s) => if At(w, s) { PushKeepsLinear(w, s); }
    case PushSync(s) => if At(w, s) { PushKeepsLinear(w, s); }
    case StageSync(s, tree) => if At(w, s) { CheckKeepsLinear(w, s, tree); }
    case EnterSync(s) => if At(w, s) { ReadKeepsLinear(w, s, a, map[]); }
    case DecideSync(s) => if At(w, s) { ReadKeepsLinear(w, s, a, map[]); }
    case CompareSync(s) => if At(w, s) { CheckKeepsLinear(w, s, map[]); }
    case CheckSync(s) => if At(w, s) { CheckSyncKeepsLinear(w, s); }
    case Open(_, _) => OpenKeepsLinear(w, a);
    case OpenSync(_, _) => OpenKeepsLinear(w, a);
    case Abandon(s) => StepKeepsLinear(w, Closed(w, s), s);
    case _ => OwnerKeepsLinear(w, a);
  }

  lemma OpenKeepsLinear(w: World, a: Act)
    requires Inv(w) && Linear(w) && (a.Open? || a.OpenSync?)
    ensures Linear(Step(w, a))
  {
    var b := Step(w, a);
    if b != w {
      assert RunLinear(b, a.session);
      StepKeepsLinear(w, b, a.session);
    }
  }

  lemma OwnerKeepsLinear(w: World, a: Act)
    requires Inv(w) && Linear(w) && BranchForward(w, a) && (a.OwnerCommit? || a.OwnerMoves? || a.MainMoves?)
    ensures Linear(Step(w, a))
  {
    var b := Step(w, a);
    AncestorStays(w.commits, b.commits, w.remote.collab, w.remote.collab);
    if 0 in w.sessions {
      assert SessionOk(w, 0);
      RunStaysLinear(w, b, 0);
    }
    StepKeepsLinear(w, b, 0);
  }

  ghost predicate ForwardRun(w: World, run: seq<Act>) {
    run == [] || (ForwardRun(w, run[..|run| - 1]) && BranchForward(Steps(w, run[..|run| - 1]), run[|run| - 1]))
  }

  lemma {:induction false} RunKeepsLinear(w: World, run: seq<Act>)
    requires Inv(w) && Linear(w) && ForwardRun(w, run)
    ensures Inv(Steps(w, run)) && Linear(Steps(w, run))
  {
    if run != [] {
      RunKeepsLinear(w, run[..|run| - 1]);
      ActKeepsInv(Steps(w, run[..|run| - 1]), run[|run| - 1]);
      ActKeepsLinear(Steps(w, run[..|run| - 1]), run[|run| - 1]);
    }
  }

  predicate SyncReady(w: World, s: nat) {
    At(w, s) && w.sessions[s].stage.SyncChecked? && w.sessions[s].stage.commit < |w.commits|
    && |w.commits[w.sessions[s].stage.commit].parents| == 2
  }

  predicate SyncAccepted(w: World, s: nat) {
    SyncReady(w, s) && Ancestor(w.commits, w.remote.collab, w.sessions[s].stage.commit)
  }

  /** The tip of main a sync merged. */
  function SyncedMain(w: World, s: nat): nat
    requires SyncReady(w, s)
  {
    w.commits[w.sessions[s].stage.commit].parents[1]
  }

  function SyncedBranch(w: World, s: nat): nat
    requires SyncReady(w, s)
  {
    w.commits[w.sessions[s].stage.commit].parents[0]
  }

  /** The push of a sync is accepted exactly when the branch commit or the main it merged contains the branch. */
  lemma SyncAcceptedIff(w: World, s: nat)
    requires Inv(w) && SyncReady(w, s)
    ensures SyncAccepted(w, s)
            <==> Ancestor(w.commits, w.remote.collab, SyncedBranch(w, s))
                 || Ancestor(w.commits, w.remote.collab, SyncedMain(w, s))
  {
    assert SessionOk(w, s);
    AncestorOfMerge(w.commits, w.remote.collab, w.sessions[s].stage.commit);
  }

  /**
   On a branch that was not rewritten, an accepted sync replaces a tip it was not compared with exactly
   when the branch has moved on to a commit that the merged main contains.
   */
  lemma SyncUncomparedIff(w: World, s: nat)
    requires Inv(w) && Linear(w) && SyncReady(w, s)
    ensures var collab := w.remote.collab;
            SyncAccepted(w, s) && collab != w.sessions[s].stage.collab
            <==> collab != w.sessions[s].stage.collab && Ancestor(w.commits, collab, SyncedMain(w, s))
  {
    var stage, collab := w.sessions[s].stage, w.remote.collab;
    SyncAcceptedIff(w, s);
    assert RunLinear(w, s);
    if Ancestor(w.commits, collab, SyncedBranch(w, s)) {
      AncestorTransitive(w.commits, collab, SyncedBranch(w, s), stage.collab);
      AncestorAntisymmetric(w.commits, collab, stage.collab);
    }
  }

  /**
   Over every run in which the branch only moves forward: a sync that merged pushes a clean tree with
   every migration of the main it was compared with, and with every migration of the branch tip it
   replaces unless that tip is part of the main it merged.
   */
  lemma AcceptedSyncKeepsBoth(w: World, run: seq<Act>, s: nat)
    requires Inv(w) && Linear(w) && ForwardRun(w, run) && SyncAccepted(Steps(w, run), s)
    ensures var before, after := Steps(w, run), Step(Steps(w, run), PushSync(s));
            && after.remote.collab == before.sessions[s].stage.commit
            && (Keeps(TreeOf(before, before.remote.collab), TreeOf(after, after.remote.collab))
                || Ancestor(before.commits, before.remote.collab, SyncedMain(before, s)))
            && Keeps(TreeOf(before, before.sessions[s].stage.main), TreeOf(after, after.remote.collab))
            && CleanTree(TreeOf(after, after.remote.collab))
  {
    RunKeepsLinear(w, run);
    SyncUncomparedIff(Steps(w, run), s);
    assert SessionOk(Steps(w, run), s);
  }

  /** A repository no script has looked at yet satisfies everything the theorems start from. */
  lemma StartIsCalm(w: World)
    requires w.clones == map[] && w.sessions == map[]
    ensures Fresh(w) && Linear(w)
  {}

  // ---- What an outside push can cost ----------------------------------------------------

  /** The rest of a run that is about to merge, with `to` pushed to main before its own push. */
  ghost function Overtaken(w: World, s: nat, to: nat, tree: Tree): World {
    Step(Step(Step(w, Merge(s, tree)), Check(s)), MainMoves(to))
  }

  ghost predicate Costs(w: World, s: nat, to: nat, tree: Tree) {
    var v := Overtaken(w, s, to, tree);
    Accepted(v, s) && !Keeps(MainTree(v), MainTree(Step(v, PushMain(s))))
  }

  lemma OvertakenIs(w: World, s: nat, to: nat, tree: Tree)
    requires Inv(w) && At(w, s) && w.sessions[s].stage.Counted? && MovesMain(w, to)
    requires !Ancestor(w.commits, Tracked(w, s).collab, w.sessions[s].stage.base)
    requires CleanTree(tree) && Keeps(TreeOf(w, Tracked(w, s).main), tree)
    ensures var v := Overtaken(w, s, to, tree);
            && Inv(v) && Ready(v, s) && w.commits <= v.commits && v.remote.main == to
            && Base(v, s) == w.sessions[s].stage.base && Other(v, s) == Tracked(w, s).collab
            && v.sessions[s].stage.checked == Tracked(w, s).main
            && TreeOf(v, v.sessions[s].stage.commit) == tree && TreeOf(v, to) == TreeOf(w, to)
  {
    var merged := Step(w, Merge(s, tree));
    var checked := Step(merged, Check(s));
    ActKeepsInv(w, Merge(s, tree));
    ActKeepsInv(merged, Check(s));
    AncestorStays(w.commits, checked.commits, w.remote.main, to);
    assert MovesMain(checked, to);
    ActKeepsInv(checked, MainMoves(to));
  }

  /** Once main is no longer at the base, the push is accepted exactly when the merged commit contains main. */
  lemma OvertakenIsAccepted(w: World, v: World, s: nat)
    requires Inv(v) && Ready(v, s) && w.commits <= v.commits && Other(v, s) < |w.commits| && Base(v, s) != v.remote.main
    ensures Accepted(v, s) <==> Ancestor(w.commits, v.remote.main, Other(v, s))
  {
    AcceptedIff(v, s);
    AncestorStays(w.commits, v.commits, v.remote.main, Other(v, s));
  }

  lemma CostIs(w: World, s: nat, to: nat, tree: Tree)
    requires Inv(w) && At(w, s) && w.sessions[s].stage.Counted? && MovesMain(w, to)
    requires !Ancestor(w.commits, Tracked(w, s).collab, w.sessions[s].stage.base)
    requires CleanTree(tree) && Keeps(TreeOf(w, Tracked(w, s).main), tree)
    ensures Costs(w, s, to, tree) <==> Ancestor(w.commits, to, Tracked(w, s).collab) && !Keeps(TreeOf(w, to), tree)
  {
    var v := Overtaken(w, s, to, tree);
    OvertakenIs(w, s, to, tree);
    assert Base(v, s) != to && Other(v, s) < |w.commits| by {
      assert SessionOk(w, s) && CloneOk(w, w.sessions[s].clone);
      TipIsOlder(w, w.sessions[s].stage.base, to);
    }
    OvertakenIsAccepted(w, v, s);
    if Accepted(v, s) { PushedTree(v, s); }
  }

  /**
   A run has counted new branch commits and will merge the tracked tip; before its push, somebody
   moves main to `to`. Some merge result passes every gate, is pushed, and takes a migration off main
   exactly when the branch tip already contains `to` and `to` has a migration the tracked main lacks
   or has otherwise.
   */
  lemma OutsidePushCostsIff(w: World, s: nat, to: nat)
    requires Inv(w) && At(w, s) && w.sessions[s].stage.Counted? && MovesMain(w, to)
    requires !Ancestor(w.commits, Tracked(w, s).collab, w.sessions[s].stage.base)
    requires CleanTree(TreeOf(w, Tracked(w, s).main))
    ensures var main := TreeOf(w, Tracked(w, s).main);
            (exists tree :: CleanTree(tree) && Keeps(main, tree) && Costs(w, s, to, tree))
            <==> Ancestor(w.commits, to, Tracked(w, s).collab) && !Keeps(TreeOf(w, to), main)
  {
    var main := TreeOf(w, Tracked(w, s).main);
    forall tree | CleanTree(tree) && Keeps(main, tree)
      ensures Costs(w, s, to, tree) <==> Ancestor(w.commits, to, Tracked(w, s).collab) && !Keeps(TreeOf(w, to), tree)
    {
      CostIs(w, s, to, tree);
    }
    if tree :| CleanTree(tree) && Keeps(main, tree) && Costs(w, s, to, tree) {
      if Keeps(TreeOf(w, to), main) { KeepsTransitive(TreeOf(w, to), main, tree); }
    }
    assert CleanTree(main) && Keeps(main, main);
  }
}
