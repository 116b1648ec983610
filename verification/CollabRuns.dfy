/** What a script run comes to when nothing else moves the refs while it works. */
module CollabRuns {
  import opened Sequences
  import opened CollabBranch
  import opened CollabInvariant

  /** Run `s` of checkout `c`, which has just fetched, at some stage. */
  function Mid(w: World, c: nat, s: nat, stage: Stage): World {
    w.(clones := w.clones[c := w.remote], sessions := w.sessions[s := Session(c, stage)])
  }

  lemma Twice(w: World, c: nat, s: nat, first: Stage, second: Stage)
    ensures Goto(Mid(w, c, s, first), s, second) == Mid(w, c, s, second)
  {
    assert w.sessions[s := Session(c, first)][s := Session(c, second)] == w.sessions[s := Session(c, second)];
  }

  /** The gates of a merge. */
  ghost predicate Passes(w: World, tree: Tree) {
    && HistoryKept(w.commits, w.remote.main, w.remote.collab)
    && !Ancestor(w.commits, w.remote.collab, w.remote.main)
    && CleanTree(tree) && Keeps(TreeOf(w, w.remote.main), tree)
  }

  /** The stage that the reads before the merge lead to. */
  function ReadTo(w: World): Stage {
    var main, collab := w.remote.main, w.remote.collab;
    if !HistoryKept(w.commits, main, collab) then Probed(main, main)
    else if Ancestor(w.commits, collab, main) then Tested(main, main, collab)
    else Counted(main, main, collab)
  }

  lemma Opens(w: World, c: nat, s: nat)
    requires s !in w.sessions
    ensures Steps(w, [Fetch(c), Open(s, c), Probe(s)]) == Mid(w, c, s, Probed(w.remote.main, w.remote.main))
  {
    Steps3(w, Fetch(c), Open(s, c), Probe(s));
    Twice(w, c, s, Opened(w.remote.main), Probed(w.remote.main, w.remote.main));
  }

  lemma Reads(w: World, c: nat, s: nat)
    ensures Steps(Mid(w, c, s, Probed(w.remote.main, w.remote.main)), [Test(s), Count(s)]) == Mid(w, c, s, ReadTo(w))
  {
    var main, collab := w.remote.main, w.remote.collab;
    Steps2(Mid(w, c, s, Probed(main, main)), Test(s), Count(s));
    Twice(w, c, s, Probed(main, main), Tested(main, main, collab));
    Twice(w, c, s, Tested(main, main, collab), Counted(main, main, collab));
  }

  /** The world after the merge commit was made, if the gates let it through. */
  function Committed(w: World, c: nat, s: nat, tree: Tree): World {
    Mid(w, c, s, Checked(|w.commits|, w.remote.main, w.remote.collab, w.remote.main))
    .(commits := w.commits + [Commit([w.remote.main, w.remote.collab], tree, true)])
  }

  lemma MergeStages(w: World, c: nat, s: nat, tree: Tree)
    requires !Ancestor(w.commits, w.remote.collab, w.remote.main)
    ensures Step(Mid(w, c, s, Counted(w.remote.main, w.remote.main, w.remote.collab)), Merge(s, tree))
            == Mid(w, c, s, Staged(w.remote.main, w.remote.main, w.remote.collab, w.remote.collab, tree))
  {
    var main, collab := w.remote.main, w.remote.collab;
    Twice(w, c, s, Counted(main, main, collab), Staged(main, main, collab, collab, tree));
  }

  lemma MergeCommits(w: World, c: nat, s: nat, tree: Tree)
    ensures var u := Mid(w, c, s, Staged(w.remote.main, w.remote.main, w.remote.collab, w.remote.collab, tree));
            Step(u, Check(s)) == if CleanTree(tree) && Keeps(TreeOf(w, w.remote.main), tree) then Committed(w, c, s, tree) else u
  {
    var main, collab := w.remote.main, w.remote.collab;
    Twice(w, c, s, Staged(main, main, collab, collab, tree), Checked(|w.commits|, main, collab, main));
  }

  lemma Merges(w: World, c: nat, s: nat, tree: Tree)
    ensures var v := Steps(Mid(w, c, s, ReadTo(w)), [Merge(s, tree), Check(s)]);
            if Passes(w, tree) then v == Committed(w, c, s, tree)
            else v.remote == w.remote && v.commits == w.commits && At(v, s) && !v.sessions[s].stage.Checked?
                 && !v.sessions[s].stage.Merged?
  {
    Steps2(Mid(w, c, s, ReadTo(w)), Merge(s, tree), Check(s));
    if ReadTo(w).Counted? {
      MergeStages(w, c, s, tree);
      MergeCommits(w, c, s, tree);
    }
  }

  lemma Pushes(w: World, c: nat, s: nat, tree: Tree)
    ensures var v := Steps(Committed(w, c, s, tree), [PushMain(s), PushCollab(s)]);
            && v.remote == Refs(|w.commits|, |w.commits|)
            && v.commits == w.commits + [Commit([w.remote.main, w.remote.collab], tree, true)]
            && s !in v.sessions
    requires w.remote.main < |w.commits| && w.remote.collab < |w.commits|
  {
    var u := Committed(w, c, s, tree);
    Steps2(u, PushMain(s), PushCollab(s));
    var k := |w.commits|;
    assert u.commits[k] == Commit([w.remote.main, w.remote.collab], tree, true);
    assert w.remote.main in u.commits[k].parents && w.remote.collab in u.commits[k].parents;
    assert Ancestor(u.commits, w.remote.main, k) && Ancestor(u.commits, w.remote.collab, k);
  }

  lemma NothingToPush(v: World, s: nat)
    requires At(v, s) && !v.sessions[s].stage.Checked? && !v.sessions[s].stage.Merged?
    ensures Steps(v, [PushMain(s), PushCollab(s)]) == v
  {
    Steps2(v, PushMain(s), PushCollab(s));
  }

  /**
   A merge that nobody disturbs puts one commit on both branches, with main and the branch as its
   parents and the merged tree, exactly when every gate passes; otherwise it moves neither.
   */
  lemma UndisturbedMerge(w: World, c: nat, s: nat, tree: Tree)
    requires Inv(w) && s !in w.sessions
    ensures var v := Steps(w, [Fetch(c), Open(s, c), Probe(s)] + [Test(s), Count(s)] + [Merge(s, tree), Check(s)]
                              + [PushMain(s), PushCollab(s)]);
            if Passes(w, tree) then
              && v.remote == Refs(|w.commits|, |w.commits|)
              && v.commits == w.commits + [Commit([w.remote.main, w.remote.collab], tree, true)]
            else v.remote == w.remote && v.commits == w.commits
  {
    var opens, looks: seq<Act> := [Fetch(c), Open(s, c), Probe(s)], [Test(s), Count(s)];
    var merges, pushes: seq<Act> := [Merge(s, tree), Check(s)], [PushMain(s), PushCollab(s)];
    Opens(w, c, s);
    Reads(w, c, s);
    Merges(w, c, s, tree);
    StepsConcat(w, opens, looks);
    StepsConcat(w, opens + looks, merges);
    StepsConcat(w, opens + looks + merges, pushes);
    if Passes(w, tree) { Pushes(w, c, s, tree); } else { NothingToPush(Steps(w, opens + looks + merges), s); }
  }

  // ---- Syncs ----------------------------------------------------------------------------

  ghost predicate SyncPasses(w: World, tree: Tree) {
    CleanTree(tree) && Keeps(TreeOf(w, w.remote.main), tree) && Keeps(TreeOf(w, w.remote.collab), tree)
  }

  lemma SyncOpens(w: World, c: nat, s: nat)
    requires s !in w.sessions
    ensures var v := Steps(w, [Fetch(c), OpenSync(s, c), EnterSync(s)]);
            if Ancestor(w.commits, w.remote.main, w.remote.collab)
            then s !in v.sessions && v.remote == w.remote && v.commits == w.commits
            else v == Mid(w, c, s, SyncOpened(w.remote.collab))
  {
    Steps3(w, Fetch(c), OpenSync(s, c), EnterSync(s));
    Twice(w, c, s, SyncAsked, SyncOpened(w.remote.collab));
  }

  lemma NoSyncNoPush(v: World, s: nat, tree: Tree)
    requires s !in v.sessions
    ensures Steps(v, [DecideSync(s), StageSync(s, tree), CompareSync(s)]) == v
    ensures Steps(v, [CheckSync(s), PushSync(s)]) == v
  {
    Steps3(v, DecideSync(s), StageSync(s, tree), CompareSync(s));
    Steps2(v, CheckSync(s), PushSync(s));
  }

  lemma SyncDecides(w: World, c: nat, s: nat)
    ensures Step(Mid(w, c, s, SyncOpened(w.remote.collab)), DecideSync(s))
            == Mid(w, c, s, if Ancestor(w.commits, w.remote.collab, w.remote.main) then SyncBehind(w.remote.collab)
                            else SyncApart(w.remote.collab))
  {
    Twice(w, c, s, SyncOpened(w.remote.collab), SyncBehind(w.remote.collab));
    Twice(w, c, s, SyncOpened(w.remote.collab), SyncApart(w.remote.collab));
  }

  lemma SyncForwardMoves(w: World, c: nat, s: nat, tree: Tree)
    requires Ancestor(w.commits, w.remote.collab, w.remote.main)
    ensures Step(Mid(w, c, s, SyncBehind(w.remote.collab)), StageSync(s, tree)) == Mid(w, c, s, SyncForward(w.remote.main))
    ensures Step(Mid(w, c, s, SyncForward(w.remote.main)), CompareSync(s)) == Mid(w, c, s, SyncForward(w.remote.main))
  {
    Twice(w, c, s, SyncBehind(w.remote.collab), SyncForward(w.remote.main));
  }

  lemma SyncForwardPushes(w: World, c: nat, s: nat)
    requires Ancestor(w.commits, w.remote.collab, w.remote.main)
    ensures var v := Steps(Mid(w, c, s, SyncForward(w.remote.main)), [CheckSync(s), PushSync(s)]);
            v.remote == Refs(w.remote.main, w.remote.main) && v.commits == w.commits
  {
    Steps2(Mid(w, c, s, SyncForward(w.remote.main)), CheckSync(s), PushSync(s));
  }

  /** The branch has nothing of its own: a fast-forward. */
  lemma SyncForwards(w: World, c: nat, s: nat, tree: Tree)
    requires Ancestor(w.commits, w.remote.collab, w.remote.main)
    ensures Steps(Mid(w, c, s, SyncOpened(w.remote.collab)), [DecideSync(s), StageSync(s, tree), CompareSync(s)])
            == Mid(w, c, s, SyncForward(w.remote.main))
  {
    Steps3(Mid(w, c, s, SyncOpened(w.remote.collab)), DecideSync(s), StageSync(s, tree), CompareSync(s));
    SyncDecides(w, c, s);
    SyncForwardMoves(w, c, s, tree);
  }

  /** A merge of main that passes its first gates, or does not. */
  function SyncMerged(w: World, tree: Tree, passed: bool): Stage {
    if passed then SyncCompared(w.remote.collab, w.remote.main, tree, w.remote.main)
    else SyncStaged(w.remote.collab, w.remote.main, tree)
  }

  lemma SyncMergeMoves(w: World, c: nat, s: nat, tree: Tree, passed: bool)
    requires !Ancestor(w.commits, w.remote.main, w.remote.collab)
    requires passed <==> CleanTree(tree) && Keeps(TreeOf(w, w.remote.main), tree)
    ensures Step(Mid(w, c, s, SyncApart(w.remote.collab)), StageSync(s, tree)) == Mid(w, c, s, SyncMerged(w, tree, false))
    ensures Step(Mid(w, c, s, SyncMerged(w, tree, false)), CompareSync(s)) == Mid(w, c, s, SyncMerged(w, tree, passed))
  {
    Twice(w, c, s, SyncApart(w.remote.collab), SyncMerged(w, tree, false));
    Twice(w, c, s, SyncMerged(w, tree, false), SyncMerged(w, tree, true));
  }

  lemma SyncStages(w: World, c: nat, s: nat, tree: Tree, passed: bool)
    requires !Ancestor(w.commits, w.remote.collab, w.remote.main) && !Ancestor(w.commits, w.remote.main, w.remote.collab)
    requires passed <==> CleanTree(tree) && Keeps(TreeOf(w, w.remote.main), tree)
    ensures Steps(Mid(w, c, s, SyncOpened(w.remote.collab)), [DecideSync(s), StageSync(s, tree), CompareSync(s)])
            == Mid(w, c, s, SyncMerged(w, tree, passed))
  {
    Steps3(Mid(w, c, s, SyncOpened(w.remote.collab)), DecideSync(s), StageSync(s, tree), CompareSync(s));
    SyncDecides(w, c, s);
    SyncMergeMoves(w, c, s, tree, passed);
  }

  lemma SyncEnds(w: World, c: nat, s: nat, stage: Stage)
    requires w.remote.main < |w.commits| && w.remote.collab < |w.commits|
    requires stage.SyncCompared? || stage.SyncStaged?
    requires stage.base == w.remote.collab && stage.other == w.remote.main
    ensures var v := Steps(Mid(w, c, s, stage), [CheckSync(s), PushSync(s)]);
            if stage.SyncCompared? && Keeps(TreeOf(w, w.remote.collab), stage.tree) then
              && v.remote == Refs(w.remote.main, |w.commits|)
              && v.commits == w.commits + [Commit([w.remote.collab, w.remote.main], stage.tree, false)]
            else v.remote == w.remote && v.commits == w.commits
  {
    Steps2(Mid(w, c, s, stage), CheckSync(s), PushSync(s));
    var k := |w.commits|;
    var u := Step(Mid(w, c, s, stage), CheckSync(s));
    if stage.SyncCompared? && Keeps(TreeOf(w, w.remote.collab), stage.tree) {
      assert u.commits[k] == Commit([w.remote.collab, w.remote.main], stage.tree, false);
      assert w.remote.collab in u.commits[k].parents;
      assert Ancestor(u.commits, w.remote.collab, k);
    }
  }

  /**
   A sync that nobody disturbs leaves a branch alone that contains main, fast-forwards one that has
   nothing of its own, and otherwise puts a merge of both on the branch exactly when the gates pass.
   */
  lemma UndisturbedSync(w: World, c: nat, s: nat, tree: Tree)
    requires Inv(w) && s !in w.sessions
    ensures var main, collab := w.remote.main, w.remote.collab;
            var v := Steps(w, [Fetch(c), OpenSync(s, c), EnterSync(s)] + [DecideSync(s), StageSync(s, tree), CompareSync(s)]
                              + [CheckSync(s), PushSync(s)]);
            if Ancestor(w.commits, main, collab) then v.remote == w.remote && v.commits == w.commits
            else if Ancestor(w.commits, collab, main) then v.remote == Refs(main, main) && v.commits == w.commits
            else if SyncPasses(w, tree) then
              v.remote == Refs(main, |w.commits|) && v.commits == w.commits + [Commit([collab, main], tree, false)]
            else v.remote == w.remote && v.commits == w.commits
  {
    var opens, merges, ends: seq<Act> :=
      [Fetch(c), OpenSync(s, c), EnterSync(s)], [DecideSync(s), StageSync(s, tree), CompareSync(s)], [CheckSync(s), PushSync(s)];
    SyncOpens(w, c, s);
    StepsConcat(w, opens, merges);
    StepsConcat(w, opens + merges, ends);
    if Ancestor(w.commits, w.remote.main, w.remote.collab) {
      NoSyncNoPush(Steps(w, opens), s, tree);
    } else if Ancestor(w.commits, w.remote.collab, w.remote.main) {
      SyncForwards(w, c, s, tree);
      SyncForwardPushes(w, c, s);
    } else {
      var passed := CleanTree(tree) && Keeps(TreeOf(w, w.remote.main), tree);
      SyncStages(w, c, s, tree, passed);
      SyncEnds(w, c, s, SyncMerged(w, tree, passed));
    }
  }

  /** A merge is staged exactly when it brings the worktree something. */
  lemma MergeStagesIff(w: World, s: nat, tree: Tree)
    requires At(w, s) && w.sessions[s].stage.Counted?
    ensures var v := Step(w, Merge(s, tree));
            if Ancestor(w.commits, Tracked(w, s).collab, w.sessions[s].stage.base) then v == w
            else At(v, s) && v.sessions[s].stage.Staged? && v.sessions[s].stage.tree == tree
                 && v.sessions[s].stage.base == w.sessions[s].stage.base && v.sessions[s].stage.other == Tracked(w, s).collab
  {}

  /** Anybody may build on public commits, and anybody may then use what was built. */
  lemma OwnersBuild(w: World, commit: Commit, next: Commit)
    requires (forall p | p in commit.parents :: p in w.shared) && next.parents == [|w.commits|]
    ensures var v := Step(Step(w, OwnerCommit(commit)), OwnerCommit(next));
            v.commits == w.commits + [commit] + [next] && v.shared == w.shared + {|w.commits|} + {|w.commits| + 1}
  {}

  // ---- Nothing is forced ----------------------------------------------------------------

  /** Whoever pushes to main, and whatever the script pushes to the branch: the old tip is part of the new one. */
  lemma NothingIsForced(w: World, a: Act)
    requires Inv(w)
    ensures var v := Step(w, a);
            && w.commits <= v.commits && Ancestor(v.commits, w.remote.main, v.remote.main)
            && (!a.OwnerMoves? ==> Ancestor(v.commits, w.remote.collab, v.remote.collab))
  {}
}
