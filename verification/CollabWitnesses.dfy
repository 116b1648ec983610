/**
 Reachable runs that show where the guarantees end. Checkout 0 and run 0 do the work; every run starts
 from a repository that no script has looked at yet.
 */
module CollabWitnesses {
  import opened Sequences
  import opened CollabBranch
  import opened CollabInvariant
  import opened CollabProperties
  import Gate = MigrationGate

  const LOST: Tree := map["a.py" := Source("a", Gate.Parsed("1", []))]
  const NONE: Tree := map[]

  lemma NothingIsClean()
    ensures CleanTree(NONE)
  {
    var files: seq<Gate.File> := [];
    assert Lists(files, NONE);
    assert Gate.AllReadable(files) && Gate.NoDuplicates(files) && Gate.AllResolved(files);
    assert forall r :: !Gate.Defined(files, r);
    assert Gate.Clean(files);
  }

  lemma LosingIsNotKeeping()
    ensures !Keeps(LOST, NONE)
  {
    assert "a.py" in Edited(LOST, NONE);
  }

  lemma Newer(commits: seq<Commit>, a: nat, b: nat)
    requires a > b
    ensures !Ancestor(commits, a, b)
  {
    if Ancestor(commits, a, b) { AncestorIsOlder(commits, a, b); }
  }

  lemma ByParent(commits: seq<Commit>, a: nat, b: nat, i: nat)
    requires b < |commits| && i < |commits[b].parents| && commits[b].parents[i] < b
    requires Ancestor(commits, a, commits[b].parents[i])
    ensures Ancestor(commits, a, b)
  {
    assert commits[b].parents[i] in commits[b].parents;
  }

  /** An empty merge result passes the gates against an empty main. */
  lemma CheckPasses(w: World, s: nat, stage: Stage)
    requires At(w, s) && w.sessions[s].stage == stage && stage.Staged? && stage.tree == NONE
    requires TreeOf(w, Tracked(w, s).main) == NONE
    ensures Step(w, Check(s)) == Goto(w, s, Checked(|w.commits|, stage.since, stage.tested, Tracked(w, s).main))
                                 .(commits := w.commits + [Commit([stage.base, stage.other], NONE, true)])
  {
    NothingIsClean();
  }

  lemma ComparePasses(w: World, s: nat, stage: Stage)
    requires At(w, s) && w.sessions[s].stage == stage && stage.SyncStaged? && stage.tree == NONE
    requires TreeOf(w, Tracked(w, s).main) == NONE
    ensures Step(w, CompareSync(s)) == Goto(w, s, SyncCompared(stage.base, stage.other, NONE, Tracked(w, s).main))
  {
    NothingIsClean();
  }

  function Start(commits: seq<Commit>, shared: set<nat>, main: nat, collab: nat): World {
    World(commits, shared, {main}, {main}, Refs(main, collab), map[], map[])
  }

  function Running(w: World, commits: seq<Commit>, tips: set<nat>, remote: Refs, tracked: Refs, stage: Stage): World {
    w.(commits := commits, mains := tips, imports := tips, remote := remote,
       clones := map[0 := tracked], sessions := map[0 := Session(0, stage)])
  }

  // ---- An outside push between the comparison and the push --------------------------------

  const SLIP_COMMITS: seq<Commit> := [Commit([], NONE, false), Commit([0], LOST, false), Commit([1], NONE, false)]
  const SLIP_DONE := SLIP_COMMITS + [Commit([0, 2], NONE, true)]
  const SLIP_START := Start(SLIP_COMMITS, {0, 1, 2}, 0, 2)
  const SLIP_READS: seq<Act> := [Fetch(0), Open(0, 0), Probe(0)]
  const SLIP_MERGES: seq<Act> := [Test(0), Count(0), Merge(0, NONE)]
  const SLIP_ENDS: seq<Act> := [Check(0), MainMoves(1)]
  const SLIP_RUN := SLIP_READS + SLIP_MERGES + SLIP_ENDS

  function Slip(commits: seq<Commit>, main: nat, stage: Stage): World {
    Running(SLIP_START, commits, {0, main}, Refs(main, 2), Refs(0, 2), stage)
  }

  lemma SlipOpens()
    ensures Steps(SLIP_START, SLIP_READS) == Slip(SLIP_COMMITS, 0, Probed(0, 0))
  {
    Steps3(SLIP_START, Fetch(0), Open(0, 0), Probe(0));
  }

  lemma SlipMerges()
    ensures Steps(Slip(SLIP_COMMITS, 0, Probed(0, 0)), SLIP_MERGES) == Slip(SLIP_COMMITS, 0, Staged(0, 0, 2, 2, NONE))
  {
    Steps3(Slip(SLIP_COMMITS, 0, Probed(0, 0)), Test(0), Count(0), Merge(0, NONE));
    Newer(SLIP_COMMITS, 2, 0);
  }

  lemma SlipEnds()
    ensures Steps(Slip(SLIP_COMMITS, 0, Staged(0, 0, 2, 2, NONE)), SLIP_ENDS) == Slip(SLIP_DONE, 1, Checked(3, 0, 2, 0))
  {
    var w, stage := Slip(SLIP_COMMITS, 0, Staged(0, 0, 2, 2, NONE)), Staged(0, 0, 2, 2, NONE);
    Steps2(w, Check(0), MainMoves(1));
    CheckPasses(w, 0, stage);
    ByParent(SLIP_DONE, 0, 1, 0);
  }

  lemma SlipRuns()
    ensures Steps(SLIP_START, SLIP_RUN) == Slip(SLIP_DONE, 1, Checked(3, 0, 2, 0))
  {
    SlipOpens();
    SlipMerges();
    SlipEnds();
    StepsConcat(SLIP_START, SLIP_READS, SLIP_MERGES);
    StepsConcat(SLIP_START, SLIP_READS + SLIP_MERGES, SLIP_ENDS);
  }

  lemma SlipDrops(v: World)
    requires v == Slip(SLIP_DONE, 1, Checked(3, 0, 2, 0))
    ensures Uncompared(v, 0) && !Keeps(MainTree(v), MainTree(Step(v, PushMain(0))))
  {
    ByParent(SLIP_DONE, 1, 2, 0);
    ByParent(SLIP_DONE, 1, 3, 1);
    PushedTree(v, 0);
    LosingIsNotKeeping();
  }

  /**
   A push to main from outside the script, of a commit the branch already held, slips between the
   comparison and the push: the push is accepted and drops the migration that main had gained.
   */
  lemma OutsidePushSlipsThrough()
    ensures Inv(SLIP_START) && Fresh(SLIP_START) && MovesMain(Slip(SLIP_DONE, 0, Checked(3, 0, 2, 0)), 1)
    ensures var v := Steps(SLIP_START, SLIP_RUN);
            Uncompared(v, 0) && !Keeps(MainTree(v), MainTree(Step(v, PushMain(0))))
  {
    StartIsFine(SLIP_START);
    SlipRuns();
    SlipDrops(Steps(SLIP_START, SLIP_RUN));
    ByParent(SLIP_DONE, 0, 1, 0);
  }

  // ---- A branch rewritten between the history test and the merge --------------------------

  const RACE_COMMITS: seq<Commit> := [Commit([], NONE, false), Commit([0], NONE, false), Commit([0, 1], NONE, true),
                                      Commit([2], NONE, false), Commit([0], NONE, false)]
  const RACE_DONE := RACE_COMMITS + [Commit([2, 4], NONE, true)]
  const RACE_START := Start(RACE_COMMITS, {0, 1, 2, 3, 4}, 2, 3)
  const RACE_READS: seq<Act> := [Fetch(0), Open(0, 0), Probe(0)]
  const RACE_TESTS: seq<Act> := [Test(0), Count(0), OwnerMoves(4)]
  const RACE_ENDS: seq<Act> := [Fetch(0), Merge(0, NONE), Check(0)]
  const RACE_RUN := RACE_READS + RACE_TESTS + RACE_ENDS

  function Race(commits: seq<Commit>, collab: nat, tracked: nat, stage: Stage): World {
    Running(RACE_START, commits, {2}, Refs(2, collab), Refs(2, tracked), stage)
  }

  lemma RaceOpens()
    ensures Steps(RACE_START, RACE_READS) == Race(RACE_COMMITS, 3, 3, Probed(2, 2))
  {
    Steps3(RACE_START, Fetch(0), Open(0, 0), Probe(0));
  }

  lemma RaceTests()
    ensures Steps(Race(RACE_COMMITS, 3, 3, Probed(2, 2)), RACE_TESTS) == Race(RACE_COMMITS, 4, 3, Counted(2, 2, 3))
  {
    Steps3(Race(RACE_COMMITS, 3, 3, Probed(2, 2)), Test(0), Count(0), OwnerMoves(4));
    ByParent(RACE_COMMITS, 1, 2, 1);
    ByParent(RACE_COMMITS, 1, 3, 0);
    assert LastMerged(RACE_COMMITS, 2) == Some(1);
    Newer(RACE_COMMITS, 3, 2);
  }

  lemma RaceMerges()
    ensures Step(Step(Race(RACE_COMMITS, 4, 3, Counted(2, 2, 3)), Fetch(0)), Merge(0, NONE))
            == Race(RACE_COMMITS, 4, 4, Staged(2, 2, 3, 4, NONE))
  {
    Newer(RACE_COMMITS, 4, 2);
  }

  lemma RaceChecks()
    ensures Step(Race(RACE_COMMITS, 4, 4, Staged(2, 2, 3, 4, NONE)), Check(0)) == Race(RACE_DONE, 4, 4, Checked(5, 2, 3, 2))
  {
    CheckPasses(Race(RACE_COMMITS, 4, 4, Staged(2, 2, 3, 4, NONE)), 0, Staged(2, 2, 3, 4, NONE));
  }

  lemma RaceRuns()
    ensures Steps(RACE_START, RACE_RUN) == Race(RACE_DONE, 4, 4, Checked(5, 2, 3, 2))
  {
    RaceOpens();
    RaceTests();
    RaceMerges();
    RaceChecks();
    Steps3(Race(RACE_COMMITS, 4, 3, Counted(2, 2, 3)), Fetch(0), Merge(0, NONE), Check(0));
    StepsConcat(RACE_START, RACE_READS, RACE_TESTS);
    StepsConcat(RACE_START, RACE_READS + RACE_TESTS, RACE_ENDS);
  }

  lemma RaceLoses(v: World)
    requires Inv(v) && v == Race(RACE_DONE, 4, 4, Checked(5, 2, 3, 2))
    ensures Accepted(v, 0) && !Uncompared(v, 0) && !HistoryGrows(v, Step(v, PushMain(0)))
  {
    ByParent(RACE_DONE, 2, 5, 0);
    PushKeepsHistoryIff(v, 0);
    assert LastMerged(RACE_DONE, 2) == Some(1) && RACE_DONE[4].parents == [0];
    Newer(RACE_DONE, 1, 0);
  }

  /**
   The branch is rewritten and fetched by another run of the checkout between the history test and the
   merge: the push is accepted, and the branch commit main took in before is not part of the new merge.
   */
  lemma RewrittenTipSlipsThrough()
    ensures Inv(RACE_START)
    ensures var v := Steps(RACE_START, RACE_RUN);
            Accepted(v, 0) && !Uncompared(v, 0) && !HistoryGrows(v, Step(v, PushMain(0)))
  {
    StartIsFine(RACE_START);
    RaceRuns();
    RunKeepsInv(RACE_START, RACE_RUN);
    RaceLoses(Steps(RACE_START, RACE_RUN));
  }

  // ---- Syncs that drop a migration of the tip they replace --------------------------------

  const FORCE_COMMITS: seq<Commit> := [Commit([], NONE, false), Commit([0], LOST, false), Commit([1], NONE, false),
                                       Commit([0], NONE, false)]
  const FORCE_DONE := FORCE_COMMITS + [Commit([2, 3], NONE, false)]
  const FORCE_START := Start(FORCE_COMMITS, {0, 1, 2, 3}, 3, 2)
  const FORCE_READS: seq<Act> := [Fetch(0), OpenSync(0, 0), EnterSync(0)]
  const FORCE_MERGES: seq<Act> := [DecideSync(0), StageSync(0, NONE), CompareSync(0)]
  const FORCE_ENDS: seq<Act> := [CheckSync(0), OwnerMoves(1)]
  const FORCE_RUN := FORCE_READS + FORCE_MERGES + FORCE_ENDS

  function Force(commits: seq<Commit>, collab: nat, stage: Stage): World {
    Running(FORCE_START, commits, {3}, Refs(3, collab), Refs(3, 2), stage)
  }

  lemma ForceOpens()
    ensures Steps(FORCE_START, FORCE_READS) == Force(FORCE_COMMITS, 2, SyncOpened(2))
  {
    Steps3(FORCE_START, Fetch(0), OpenSync(0, 0), EnterSync(0));
    Newer(FORCE_COMMITS, 3, 2);
  }

  lemma ForceStages()
    ensures Step(Step(Force(FORCE_COMMITS, 2, SyncOpened(2)), DecideSync(0)), StageSync(0, NONE))
            == Force(FORCE_COMMITS, 2, SyncStaged(2, 3, NONE))
  {
    Newer(FORCE_COMMITS, 3, 2);
    Newer(FORCE_COMMITS, 2, 0);
    assert FORCE_COMMITS[3].parents == [0];
  }

  lemma ForceCompares()
    ensures Step(Force(FORCE_COMMITS, 2, SyncStaged(2, 3, NONE)), CompareSync(0))
            == Force(FORCE_COMMITS, 2, SyncCompared(2, 3, NONE, 3))
  {
    ComparePasses(Force(FORCE_COMMITS, 2, SyncStaged(2, 3, NONE)), 0, SyncStaged(2, 3, NONE));
  }

  lemma ForceEnds()
    ensures Steps(Force(FORCE_COMMITS, 2, SyncCompared(2, 3, NONE, 3)), FORCE_ENDS)
            == Force(FORCE_DONE, 1, SyncChecked(4, 3, 2))
  {
    Steps2(Force(FORCE_COMMITS, 2, SyncCompared(2, 3, NONE, 3)), CheckSync(0), OwnerMoves(1));
  }

  lemma ForceRuns()
    ensures Steps(FORCE_START, FORCE_RUN) == Force(FORCE_DONE, 1, SyncChecked(4, 3, 2))
  {
    ForceOpens();
    ForceStages();
    ForceCompares();
    ForceEnds();
    Steps3(Force(FORCE_COMMITS, 2, SyncOpened(2)), DecideSync(0), StageSync(0, NONE), CompareSync(0));
    StepsConcat(FORCE_START, FORCE_READS, FORCE_MERGES);
    StepsConcat(FORCE_START, FORCE_READS + FORCE_MERGES, FORCE_ENDS);
  }

  lemma ForceDrops(v: World)
    requires v == Force(FORCE_DONE, 1, SyncChecked(4, 3, 2))
    ensures SyncAccepted(v, 0) && !Ancestor(v.commits, v.remote.collab, SyncedMain(v, 0))
    ensures !Keeps(TreeOf(v, v.remote.collab), TreeOf(v, Step(v, PushSync(0)).remote.collab))
  {
    ByParent(FORCE_DONE, 1, 2, 0);
    ByParent(FORCE_DONE, 1, 4, 0);
    Newer(FORCE_DONE, 1, 0);
    assert FORCE_DONE[3].parents == [0];
    LosingIsNotKeeping();
  }

  /**
   The branch is forced back to a commit the sync already contains: its push is accepted and drops a
   migration of the tip it replaces, which no main contains.
   */
  lemma ForcedBranchLosesMigration()
    ensures Inv(FORCE_START) && Linear(FORCE_START)
    ensures var v := Steps(FORCE_START, FORCE_RUN);
            && SyncAccepted(v, 0) && !Ancestor(v.commits, v.remote.collab, SyncedMain(v, 0))
            && !Keeps(TreeOf(v, v.remote.collab), TreeOf(v, Step(v, PushSync(0)).remote.collab))
  {
    StartIsFine(FORCE_START);
    ForceRuns();
    ForceDrops(Steps(FORCE_START, FORCE_RUN));
  }

  const CATCH_COMMITS: seq<Commit> := [Commit([], NONE, false), Commit([0], NONE, false), Commit([0], NONE, false),
                                       Commit([2, 1], LOST, false), Commit([3], NONE, false)]
  const CATCH_DONE := CATCH_COMMITS + [Commit([1, 4], NONE, false)]
  const CATCH_START := Start(CATCH_COMMITS, {0, 1, 2, 3, 4}, 2, 1)
  const CATCH_READS: seq<Act> := [Fetch(0), OpenSync(0, 0), EnterSync(0)]
  const CATCH_MOVES: seq<Act> := [DecideSync(0), MainMoves(4), Fetch(0)]
  const CATCH_MERGES: seq<Act> := [StageSync(0, NONE), CompareSync(0), CheckSync(0)]
  const CATCH_RUN := CATCH_READS + CATCH_MOVES + CATCH_MERGES + [OwnerMoves(3)]

  function Catch(commits: seq<Commit>, main: nat, collab: nat, tracked: nat, stage: Stage): World {
    Running(CATCH_START, commits, {2, main}, Refs(main, collab), Refs(tracked, 1), stage)
  }

  lemma CatchOpens()
    ensures Steps(CATCH_START, CATCH_READS) == Catch(CATCH_COMMITS, 2, 1, 2, SyncOpened(1))
  {
    Steps3(CATCH_START, Fetch(0), OpenSync(0, 0), EnterSync(0));
    Newer(CATCH_COMMITS, 2, 1);
  }

  lemma CatchMoves()
    ensures Steps(Catch(CATCH_COMMITS, 2, 1, 2, SyncOpened(1)), CATCH_MOVES) == Catch(CATCH_COMMITS, 4, 1, 4, SyncApart(1))
  {
    Steps3(Catch(CATCH_COMMITS, 2, 1, 2, SyncOpened(1)), DecideSync(0), MainMoves(4), Fetch(0));
    Newer(CATCH_COMMITS, 1, 0);
    assert CATCH_COMMITS[2].parents == [0];
    ByParent(CATCH_COMMITS, 2, 3, 0);
    ByParent(CATCH_COMMITS, 2, 4, 0);
  }

  lemma CatchStages()
    ensures Step(Catch(CATCH_COMMITS, 4, 1, 4, SyncApart(1)), StageSync(0, NONE))
            == Catch(CATCH_COMMITS, 4, 1, 4, SyncStaged(1, 4, NONE))
  {
    Newer(CATCH_COMMITS, 4, 1);
  }

  lemma CatchCompares()
    ensures Step(Catch(CATCH_COMMITS, 4, 1, 4, SyncStaged(1, 4, NONE)), CompareSync(0))
            == Catch(CATCH_COMMITS, 4, 1, 4, SyncCompared(1, 4, NONE, 4))
  {
    ComparePasses(Catch(CATCH_COMMITS, 4, 1, 4, SyncStaged(1, 4, NONE)), 0, SyncStaged(1, 4, NONE));
  }

  lemma CatchChecks()
    ensures Step(Catch(CATCH_COMMITS, 4, 1, 4, SyncCompared(1, 4, NONE, 4)), CheckSync(0))
            == Catch(CATCH_DONE, 4, 1, 4, SyncChecked(5, 4, 1))
    ensures Step(Catch(CATCH_DONE, 4, 1, 4, SyncChecked(5, 4, 1)), OwnerMoves(3))
            == Catch(CATCH_DONE, 4, 3, 4, SyncChecked(5, 4, 1))
  {}

  lemma CatchRuns()
    ensures Steps(CATCH_START, CATCH_RUN) == Catch(CATCH_DONE, 4, 3, 4, SyncChecked(5, 4, 1))
  {
    CatchOpens();
    CatchMoves();
    CatchStages();
    CatchCompares();
    CatchChecks();
    Steps3(Catch(CATCH_COMMITS, 4, 1, 4, SyncApart(1)), StageSync(0, NONE), CompareSync(0), CheckSync(0));
    StepsConcat(CATCH_START, CATCH_READS, CATCH_MOVES);
    StepsConcat(CATCH_START, CATCH_READS + CATCH_MOVES, CATCH_MERGES);
    StepsAppend(CATCH_START, CATCH_READS + CATCH_MOVES + CATCH_MERGES, OwnerMoves(3));
  }

  lemma CatchDrops(v: World)
    requires v == Catch(CATCH_DONE, 4, 3, 4, SyncChecked(5, 4, 1))
    ensures Ancestor(v.commits, 1, 3) && SyncAccepted(v, 0) && Ancestor(v.commits, 3, SyncedMain(v, 0))
    ensures !Keeps(TreeOf(v, 3), TreeOf(v, Step(v, PushSync(0)).remote.collab))
  {
    ByParent(CATCH_DONE, 1, 3, 1);
    ByParent(CATCH_DONE, 3, 4, 0);
    ByParent(CATCH_DONE, 3, 5, 1);
    LosingIsNotKeeping();
  }

  lemma CatchIsLinear(v: World)
    requires v == Catch(CATCH_DONE, 4, 3, 4, SyncChecked(5, 4, 1)) && Ancestor(v.commits, 1, 3)
    ensures Linear(v)
  {
    assert CloneLinear(v, 0) && RunLinear(v, 0);
  }

  /**
   Also a branch that only moves forward can lose a migration to a sync: main takes the branch in while
   the sync runs, drops the migration afterwards, and the branch then catches up to the commit in between.
   */
  lemma CaughtUpBranchLosesMigration()
    ensures Inv(CATCH_START) && Linear(CATCH_START)
    ensures var v := Steps(CATCH_START, CATCH_RUN);
            && Linear(v) && SyncAccepted(v, 0) && Ancestor(v.commits, v.remote.collab, SyncedMain(v, 0))
            && !Keeps(TreeOf(v, v.remote.collab), TreeOf(v, Step(v, PushSync(0)).remote.collab))
  {
    StartIsFine(CATCH_START);
    CatchRuns();
    CatchDrops(Steps(CATCH_START, CATCH_RUN));
    CatchIsLinear(Steps(CATCH_START, CATCH_RUN));
  }
}
