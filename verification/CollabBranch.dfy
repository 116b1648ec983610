/**
 Merging the collaboration branch into main and bringing main back to it, as steps over refs. Any
 number of script runs work at once from any number of checkouts; the runs of one checkout share its
 tracking refs, which a fetch by any of them moves, also between two reads of the same run. Owners
 push to the collaboration branch as they like, by force too, and anyone may fast-forward main. A
 plain push is accepted only as a fast-forward.
 */
module CollabBranch {
  import opened Sequences
  import Gate = MigrationGate

  /** A migration file: its bytes and what they say. */
  datatype Source = Source(text: string, parsed: Gate.Parsed)

  /** The migrations of a tree, by file name. */
  type Tree = map<string, Source>

  /** `merge` says that the message names a merge of the collaboration branch by this script. */
  datatype Commit = Commit(parents: seq<nat>, tree: Tree, merge: bool)

  datatype Refs = Refs(main: nat, collab: nat)

  /** How far a script run has come, with what it has read; commits are numbered in order of creation. */
  datatype Stage =
    | Opened(base: nat)                                // worktree at the tracked main
    | Probed(base: nat, since: nat)                    // looked up the last merge on main, then at `since`
    | Tested(base: nat, since: nat, tested: nat)       // that merge is part of the branch, then at `tested`
    | Counted(base: nat, since: nat, tested: nat)      // the branch has commits that main lacks
    | Staged(base: nat, since: nat, tested: nat, other: nat, tree: Tree)   // `other` merged, uncommitted
    | Checked(commit: nat, since: nat, tested: nat, checked: nat)  // committed after comparing with `checked`
    | Merged(commit: nat)                              // main moved; the branch is to follow
    | SyncAsked                                        // main has commits that the branch lacks
    | SyncOpened(base: nat)                            // worktree at the tracked branch
    | SyncBehind(base: nat)                            // the branch has nothing that main lacks
    | SyncApart(base: nat)                             // it has commits of its own
    | SyncStaged(base: nat, other: nat, tree: Tree)    // main at `other` merged, uncommitted
    | SyncCompared(base: nat, other: nat, tree: Tree, main: nat)   // ... and compared with `main`
    | SyncChecked(commit: nat, main: nat, collab: nat) // committed after comparing with both tips
    | SyncForward(commit: nat)                         // fast-forwarded

  datatype Session = Session(clone: nat, stage: Stage)

  /**
   `shared` holds the commits outside the worktrees of script runs, `mains` the tips main has had, and
   `imports` those among them that this script did not push.
   */
  datatype World = World(commits: seq<Commit>, shared: set<nat>, mains: set<nat>, imports: set<nat>,
                         remote: Refs, clones: map<nat, Refs>, sessions: map<nat, Session>)

  // ---- Trees and ancestry ---------------------------------------------------------------

  /** Migrations of `before` that `after` changed or dropped. */
  function Edited(before: Tree, after: Tree): set<string> {
    set name | name in before && (name !in after || after[name] != before[name])
  }

  predicate Keeps(before: Tree, after: Tree) { Edited(before, after) == {} }

  ghost predicate Lists(files: seq<Gate.File>, tree: Tree) {
    && (forall i, j | 0 <= i < j < |files| :: files[i].name != files[j].name)
    && (forall f | f in files :: f.name in tree && tree[f.name].parsed == f.parsed)
    && (forall name | name in tree :: Gate.File(name, tree[name].parsed) in files)
  }

  ghost predicate CleanTree(tree: Tree) { exists files :: Lists(files, tree) && Gate.Clean(files) }

  predicate Ancestor(commits: seq<Commit>, a: nat, b: nat) {
    || a == b
    || (b < |commits| && exists p :: p in commits[b].parents && p < b && Ancestor(commits, a, p))
  }

  /** The branch commit that the latest merge on the first-parent line of `tip` took in. */
  function LastMerged(commits: seq<Commit>, tip: nat): Option<nat> {
    if tip >= |commits| || commits[tip].parents == [] then None
    else if commits[tip].merge && |commits[tip].parents| >= 2 then Some(commits[tip].parents[1])
    else if commits[tip].parents[0] < tip then LastMerged(commits, commits[tip].parents[0])
    else None
  }

  predicate HistoryKept(commits: seq<Commit>, main: nat, collab: nat) {
    LastMerged(commits, main).Some? ==> Ancestor(commits, LastMerged(commits, main).value, collab)
  }

  // ---- Steps ----------------------------------------------------------------------------

  datatype Act =
    | Fetch(clone: nat)
    | OwnerCommit(commit: Commit)
    | OwnerMoves(to: nat)
    | MainMoves(to: nat)
    | Open(session: nat, clone: nat)
    | Probe(session: nat)
    | Test(session: nat)
    | Count(session: nat)
    | Merge(session: nat, tree: Tree)
    | Check(session: nat)
    | PushMain(session: nat)
    | PushCollab(session: nat)
    | OpenSync(session: nat, clone: nat)
    | EnterSync(session: nat)
    | DecideSync(session: nat)
    | StageSync(session: nat, tree: Tree)
    | CompareSync(session: nat)
    | CheckSync(session: nat)
    | PushSync(session: nat)
    | Abandon(session: nat)

  predicate At(w: World, s: nat) { s in w.sessions && w.sessions[s].clone in w.clones }

  function Tracked(w: World, s: nat): Refs
    requires At(w, s)
  {
    w.clones[w.sessions[s].clone]
  }

  function Goto(w: World, s: nat, stage: Stage): World
    requires At(w, s)
  {
    w.(sessions := w.sessions[s := w.sessions[s].(stage := stage)])
  }

  function TreeOf(w: World, id: nat): Tree { if id < |w.commits| then w.commits[id].tree else map[] }

  function Closed(w: World, s: nat): World { w.(sessions := w.sessions - {s}) }

  /** The reads before the merge, each of the tracking refs as they are then. */
  function ReadStep(w: World, s: nat, a: Act): World
    requires At(w, s)
  {
    var stage, refs := w.sessions[s].stage, Tracked(w, s);
    if a.Probe? && stage.Opened? then Goto(w, s, Probed(stage.base, refs.main))
    else if a.Test? && stage.Probed? && HistoryKept(w.commits, stage.since, refs.collab)
    then Goto(w, s, Tested(stage.base, stage.since, refs.collab))
    else if a.Count? && stage.Tested? && !Ancestor(w.commits, refs.collab, refs.main)
    then Goto(w, s, Counted(stage.base, stage.since, stage.tested))
    else w
  }

  /** The trial merge of the tracked branch; nothing is staged when the worktree already contains it. */
  function MergeStep(w: World, s: nat, tree: Tree): World
    requires At(w, s)
  {
    var stage, other := w.sessions[s].stage, Tracked(w, s).collab;
    if stage.Counted? && !Ancestor(w.commits, other, stage.base)
    then Goto(w, s, Staged(stage.base, stage.since, stage.tested, other, tree))
    else w
  }

  ghost function CheckStep(w: World, s: nat): World
    requires At(w, s)
  {
    var stage, main := w.sessions[s].stage, Tracked(w, s).main;
    if stage.Staged? && CleanTree(stage.tree) && Keeps(TreeOf(w, main), stage.tree)
    then Goto(w, s, Checked(|w.commits|, stage.since, stage.tested, main))
         .(commits := w.commits + [Commit([stage.base, stage.other], stage.tree, true)])
    else w
  }

  function PushMainStep(w: World, s: nat): World
    requires At(w, s)
  {
    var stage := w.sessions[s].stage;
    if !stage.Checked? then w
    else if Ancestor(w.commits, w.remote.main, stage.commit)
    then Goto(w, s, Merged(stage.commit))
         .(remote := w.remote.(main := stage.commit), shared := w.shared + {stage.commit},
           mains := w.mains + {stage.commit})
    else Closed(w, s)
  }

  function PushCollabStep(w: World, s: nat): World
    requires At(w, s)
  {
    var stage := w.sessions[s].stage;
    if !stage.Merged? then w
    else if Ancestor(w.commits, w.remote.collab, stage.commit)
    then Closed(w, s).(remote := w.remote.(collab := stage.commit))
    else Closed(w, s)
  }

  /** The reads before a sync merges, each of the tracking refs as they are then. */
  function ReadSyncStep(w: World, s: nat, a: Act): World
    requires At(w, s)
  {
    var stage, refs := w.sessions[s].stage, Tracked(w, s);
    if a.EnterSync? && stage.SyncAsked? then Goto(w, s, SyncOpened(refs.collab))
    else if a.DecideSync? && stage.SyncOpened?
    then Goto(w, s, if Ancestor(w.commits, refs.collab, refs.main) then SyncBehind(stage.base) else SyncApart(stage.base))
    else w
  }

  /** The merge of the tracked main into the worktree, as a fast-forward only or never as one. */
  function StageSyncStep(w: World, s: nat, tree: Tree): World
    requires At(w, s)
  {
    var stage, main := w.sessions[s].stage, Tracked(w, s).main;
    if stage.SyncBehind? then
      if Ancestor(w.commits, stage.base, main) then Goto(w, s, SyncForward(main))
      else if Ancestor(w.commits, main, stage.base) then Goto(w, s, SyncForward(stage.base))
      else Closed(w, s)
    else if stage.SyncApart? then
      if Ancestor(w.commits, main, stage.base) then Closed(w, s) else Goto(w, s, SyncStaged(stage.base, main, tree))
    else w
  }

  ghost function CompareSyncStep(w: World, s: nat): World
    requires At(w, s)
  {
    var stage, main := w.sessions[s].stage, Tracked(w, s).main;
    if stage.SyncStaged? && CleanTree(stage.tree) && Keeps(TreeOf(w, main), stage.tree)
    then Goto(w, s, SyncCompared(stage.base, stage.other, stage.tree, main))
    else w
  }

  function CheckSyncStep(w: World, s: nat): World
    requires At(w, s)
  {
    var stage, collab := w.sessions[s].stage, Tracked(w, s).collab;
    if stage.SyncCompared? && Keeps(TreeOf(w, collab), stage.tree)
    then Goto(w, s, SyncChecked(|w.commits|, stage.main, collab))
         .(commits := w.commits + [Commit([stage.base, stage.other], stage.tree, false)])
    else w
  }

  function PushSyncStep(w: World, s: nat): World
    requires At(w, s)
  {
    var stage := w.sessions[s].stage;
    if !stage.SyncChecked? && !stage.SyncForward? then w
    else if Ancestor(w.commits, w.remote.collab, stage.commit)
    then Closed(w, s).(remote := w.remote.(collab := stage.commit), shared := w.shared + {stage.commit})
    else Closed(w, s)
  }

  ghost function Step(w: World, a: Act): World {
    match a
    case Fetch(clone) => w.(clones := w.clones[clone := w.remote])
    case OwnerCommit(commit) =>
      if forall p | p in commit.parents :: p in w.shared
      then w.(commits := w.commits + [commit], shared := w.shared + {|w.commits|})
      else w
    case OwnerMoves(to) => if to in w.shared then w.(remote := w.remote.(collab := to)) else w
    case MainMoves(to) =>
      if MovesMain(w, to)
      then w.(remote := w.remote.(main := to), mains := w.mains + {to}, imports := w.imports + {to})
      else w
    case Open(s, clone) =>
      if s in w.sessions || clone !in w.clones then w
      else w.(sessions := w.sessions[s := Session(clone, Opened(w.clones[clone].main))])
    case OpenSync(s, clone) =>
      if s in w.sessions || clone !in w.clones then w
      else if Ancestor(w.commits, w.clones[clone].main, w.clones[clone].collab) then w
      else w.(sessions := w.sessions[s := Session(clone, SyncAsked)])
    case Probe(s) => if At(w, s) then ReadStep(w, s, a) else w
    case Test(s) => if At(w, s) then ReadStep(w, s, a) else w
    case Count(s) => if At(w, s) then ReadStep(w, s, a) else w
    case Merge(s, tree) => if At(w, s) then MergeStep(w, s, tree) else w
    case Check(s) => if At(w, s) then CheckStep(w, s) else w
    case PushMain(s) => if At(w, s) then PushMainStep(w, s) else w
    case PushCollab(s) => if At(w, s) then PushCollabStep(w, s) else w
    case StageSync(s, tree) => if At(w, s) then StageSyncStep(w, s, tree) else w
    case EnterSync(s) => if At(w, s) then ReadSyncStep(w, s, a) else w
    case DecideSync(s) => if At(w, s) then ReadSyncStep(w, s, a) else w
    case CompareSync(s) => if At(w, s) then CompareSyncStep(w, s) else w
    case CheckSync(s) => if At(w, s) then CheckSyncStep(w, s) else w
    case PushSync(s) => if At(w, s) then PushSyncStep(w, s) else w
    case Abandon(s) => Closed(w, s)
  }

  /** Somebody other than this script fast-forwards main. */
  predicate MovesMain(w: World, to: nat) {
    to in w.shared && to != w.remote.main && Ancestor(w.commits, w.remote.main, to)
  }

  ghost function Steps(w: World, run: seq<Act>): World {
    if run == [] then w else Step(Steps(w, run[..|run| - 1]), run[|run| - 1])
  }

  lemma StepsAppend(w: World, run: seq<Act>, a: Act)
    ensures Steps(w, run + [a]) == Step(Steps(w, run), a)
  {
    assert (run + [a])[..|run|] == run;
  }

  lemma {:induction false} StepsConcat(w: World, first: seq<Act>, last: seq<Act>)
    ensures Steps(w, first + last) == Steps(Steps(w, first), last)
    decreases |last|
  {
    if last == [] {
      assert first + last == first;
    } else {
      StepsConcat(w, first, last[..|last| - 1]);
      assert (first + last)[..|first + last| - 1] == first + last[..|last| - 1];
    }
  }

  lemma Steps3(w: World, a: Act, b: Act, c: Act)
    ensures Steps(w, [a, b, c]) == Step(Step(Step(w, a), b), c)
  {
    assert [a, b, c][..2] == [a, b] && [a, b][..1] == [a] && [a][..0] == [];
    assert Steps(w, [a]) == Step(w, a);
    assert Steps(w, [a, b]) == Step(Step(w, a), b);
  }

  lemma Steps2(w: World, a: Act, b: Act)
    ensures Steps(w, [a, b]) == Step(Step(w, a), b)
  {
    assert [a, b][..1] == [a] && [a][..0] == [];
    assert Steps(w, [a]) == Step(w, a);
  }

  // ---- Ancestry -------------------------------------------------------------------------

  predicate WellFormed(commits: seq<Commit>) {
    forall id, p | 0 <= id < |commits| && p in commits[id].parents :: p < id
  }

  lemma {:induction false} AncestorIsOlder(commits: seq<Commit>, a: nat, b: nat)
    requires Ancestor(commits, a, b)
    ensures a <= b
    decreases b
  {
    if a != b {
      var p :| p in commits[b].parents && p < b && Ancestor(commits, a, p);
      AncestorIsOlder(commits, a, p);
    }
  }

  lemma {:induction false} AncestorTransitive(commits: seq<Commit>, a: nat, b: nat, c: nat)
    requires Ancestor(commits, a, b) && Ancestor(commits, b, c)
    ensures Ancestor(commits, a, c)
    decreases c
  {
    if b != c {
      var p :| p in commits[c].parents && p < c && Ancestor(commits, b, p);
      AncestorTransitive(commits, a, b, p);
    }
  }

  /** New commits change nothing about the ancestry of old ones. */
  lemma {:induction false} AncestorStays(commits: seq<Commit>, more: seq<Commit>, a: nat, b: nat)
    requires commits <= more && b < |commits|
    ensures Ancestor(commits, a, b) <==> Ancestor(more, a, b)
    decreases b
  {
    assert commits[b] == more[b];
    forall p | p in commits[b].parents && p < b ensures Ancestor(commits, a, p) <==> Ancestor(more, a, p) {
      AncestorStays(commits, more, a, p);
    }
  }

  lemma {:induction false} LastMergedStays(commits: seq<Commit>, more: seq<Commit>, tip: nat)
    requires commits <= more && tip < |commits|
    ensures LastMerged(commits, tip) == LastMerged(more, tip)
    decreases tip
  {
    assert commits[tip] == more[tip];
    if commits[tip].parents != [] && commits[tip].parents[0] < tip {
      LastMergedStays(commits, more, commits[tip].parents[0]);
    }
  }

  predicate DownClosed(commits: seq<Commit>, ids: set<nat>) {
    && (forall id | id in ids :: id < |commits|)
    && (forall id, p | id in ids && id < |commits| && p in commits[id].parents :: p in ids)
  }

  lemma {:induction false} AncestorsAreShared(commits: seq<Commit>, ids: set<nat>, a: nat, b: nat)
    requires DownClosed(commits, ids) && b in ids && Ancestor(commits, a, b)
    ensures a in ids
    decreases b
  {
    if a != b {
      var p :| p in commits[b].parents && p < b && Ancestor(commits, a, p);
      AncestorsAreShared(commits, ids, a, p);
    }
  }

  lemma KeepsTransitive(a: Tree, b: Tree, c: Tree)
    requires Keeps(a, b) && Keeps(b, c)
    ensures Keeps(a, c)
  {
    forall name | name in a ensures name in c && c[name] == a[name] {
      assert name !in Edited(a, b) && name !in Edited(b, c);
    }
  }

  lemma AncestorAntisymmetric(commits: seq<Commit>, a: nat, b: nat)
    requires Ancestor(commits, a, b) && Ancestor(commits, b, a)
    ensures a == b
  {
    AncestorIsOlder(commits, a, b);
    AncestorIsOlder(commits, b, a);
  }

  /** The ancestors of a merge are itself and those of its two parents. */
  lemma AncestorOfMerge(commits: seq<Commit>, a: nat, k: nat)
    requires WellFormed(commits) && k < |commits| && |commits[k].parents| == 2
    ensures Ancestor(commits, a, k)
            <==> a == k || Ancestor(commits, a, commits[k].parents[0]) || Ancestor(commits, a, commits[k].parents[1])
  {
    assert commits[k].parents[0] in commits[k].parents && commits[k].parents[1] in commits[k].parents;
  }

  /** What main took in last lies on main itself. */
  lemma {:induction false} LastMergedIsAncestor(commits: seq<Commit>, tip: nat)
    requires WellFormed(commits) && LastMerged(commits, tip).Some?
    ensures LastMerged(commits, tip).value < |commits| && Ancestor(commits, LastMerged(commits, tip).value, tip)
    decreases tip
  {
    var parents := commits[tip].parents;
    if commits[tip].merge && |parents| >= 2 {
      assert parents[1] in parents && Ancestor(commits, parents[1], parents[1]);
    } else {
      LastMergedIsAncestor(commits, parents[0]);
      assert parents[0] in parents;
    }
  }

  lemma HistoryStays(commits: seq<Commit>, more: seq<Commit>, tip: nat, other: nat)
    requires commits <= more && tip < |commits| && other < |commits|
    ensures HistoryKept(commits, tip, other) <==> HistoryKept(more, tip, other)
  {
    LastMergedStays(commits, more, tip);
    if LastMerged(commits, tip).Some? { AncestorStays(commits, more, LastMerged(commits, tip).value, other); }
  }
}
