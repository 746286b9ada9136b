/**
  Writing artifacts and their manifest together: snapshots, the body, the two
  manifests, and the rollback when any step fails.
 */
module ArtifactWrites {
  import opened Prelude
  import opened Artifacts

  /** The steps that can fail. The body's own failure is among them. */
  datatype Stage =
    | Body | ScanAutonomy | BeforeSidecar | AfterSidecar | ScanArtifacts | BeforeManifest | AfterManifest | Cleanup

  datatype Raised = ContractError | StageFailed(stage: Stage)

  /** A listed path as it was: its bytes, or None when it was absent. */
  datatype Snapshot = Snapshot(path: Path, before: Option<Bytes>)

  function BytesAt(tree: Tree, p: Path): Option<Bytes> {
    if p in tree && tree[p].Regular? then Some(tree[p].bytes) else None
  }

  /** The tree with the path as the snapshot has it. */
  function Restored(tree: Tree, s: Snapshot): Tree {
    match s.before
    case None => tree - {s.path}
    case Some(bytes) => tree[s.path := Regular(bytes)]
  }

  ghost predicate Covers(snapshots: seq<Snapshot>, paths: set<Path>) {
    forall p :: p in paths <==> exists i :: 0 <= i < |snapshots| && snapshots[i].path == p
  }

  /** Snapshots of distinct paths, each as the tree has it. */
  ghost predicate Faithful(snapshots: seq<Snapshot>, tree: Tree) {
    && (forall i, j :: 0 <= i < j < |snapshots| ==> snapshots[i].path != snapshots[j].path)
    && (forall i :: 0 <= i < |snapshots| ==> IsAsIn(snapshots[i], tree))
  }

  predicate IsAsIn(s: Snapshot, tree: Tree) {
    match s.before
    case None => s.path !in tree
    case Some(bytes) => Get(tree, s.path) == Some(Regular(bytes))
  }

  predicate NoneIrregular(paths: seq<Path>, tree: Tree) {
    forall i :: 0 <= i < |paths| ==> !(paths[i] in tree && tree[paths[i]].Irregular?)
  }

  function PathSet(paths: seq<Path>): set<Path> {
    set i | 0 <= i < |paths| :: paths[i]
  }

  lemma PathSetSnoc(paths: seq<Path>, k: nat)
    requires k < |paths|
    ensures PathSet(paths[..k + 1]) == PathSet(paths[..k]) + {paths[k]}
  {
    assert paths[..k + 1][k] == paths[k];
    assert forall i :: 0 <= i < k ==> paths[..k + 1][i] == paths[..k][i];
  }

  lemma OneMoreSnapshot(snapshots: seq<Snapshot>, s: Snapshot, seen: set<Path>, tree: Tree)
    requires Faithful(snapshots, tree) && Covers(snapshots, seen) && s.path !in seen && IsAsIn(s, tree)
    ensures Faithful(snapshots + [s], tree) && Covers(snapshots + [s], seen + {s.path})
  {
    var all := snapshots + [s];
    assert all[|snapshots|] == s;
    assert forall i :: 0 <= i < |snapshots| ==> all[i] == snapshots[i] && snapshots[i].path in seen;
  }

  /** Every path once, in order; None when one is not a regular file. */
  method TakeSnapshots(paths: seq<Path>, tree: Tree) returns (r: Option<seq<Snapshot>>)
    ensures r.Some? <==> NoneIrregular(paths, tree)
    ensures r.Some? ==> Faithful(r.value, tree) && Covers(r.value, PathSet(paths))
  {
    var snapshots: seq<Snapshot> := [];
    var seen: set<Path> := {};
    for k := 0 to |paths|
      invariant forall i :: 0 <= i < k ==> !(paths[i] in tree && tree[paths[i]].Irregular?)
      invariant seen == PathSet(paths[..k]) && Faithful(snapshots, tree) && Covers(snapshots, seen)
    {
      var p := paths[k];
      if p in tree && tree[p].Irregular? {
        return None;
      }
      PathSetSnoc(paths, k);
      if p !in seen {
        OneMoreSnapshot(snapshots, Snapshot(p, BytesAt(tree, p)), seen, tree);
        snapshots := snapshots + [Snapshot(p, BytesAt(tree, p))];
        seen := seen + {p};
      }
    }
    assert paths[..|paths|] == paths;
    r := Some(snapshots);
  }

  /** What the body does: at each path it touches, the bytes it leaves or None for removal. */
  type Edits = map<Path, Option<Bytes>>

  function Edited(tree: Tree, edits: Edits): Tree {
    (map p | p in edits && edits[p].Some? :: Regular(edits[p].value)) + (tree - edits.Keys)
  }

  predicate TouchesAutonomy(lay: Layout, edits: Edits) {
    exists p :: p in edits && edits[p].Some? && lay.inAutonomy(p)
  }

  function AfterBody(lay: Layout, root: Root, edits: Edits): Root {
    Root(Edited(root.files, edits), root.autonomyDir || TouchesAutonomy(lay, edits))
  }

  predicate HasExtra(lay: Layout, paths: seq<Path>) {
    exists i :: 0 <= i < |paths| && lay.inAutonomy(paths[i])
  }

  /** The listed paths, and the two manifests when one of them is in the autonomy namespace. */
  function Watched(lay: Layout, paths: seq<Path>): seq<Path> {
    if HasExtra(lay, paths) then paths + [SIDECAR, MANIFEST] else paths
  }

  ghost predicate OnlyListed(edits: Edits, paths: seq<Path>) {
    forall p :: p in edits ==> exists i :: 0 <= i < |paths| && paths[i] == p
  }

  // ---------------------------------------------------------------------
  // What a write does, told from what is known before it
  // ---------------------------------------------------------------------

  /** `write_autonomy_manifest`. */
  ghost function SidecarOutcome(lay: Layout, root: Root, faults: Stage -> bool): Option<Raised> {
    if faults(ScanAutonomy) then Some(StageFailed(ScanAutonomy))
    else if !Clean(lay, true, root.files) then Some(ContractError)
    else if faults(BeforeSidecar) then Some(StageFailed(BeforeSidecar))
    else if faults(AfterSidecar) then Some(StageFailed(AfterSidecar))
    else None
  }

  /** `write_manifest`. */
  ghost function ManifestOutcome(lay: Layout, root: Root, faults: Stage -> bool): Option<Raised> {
    if faults(ScanArtifacts) then Some(StageFailed(ScanArtifacts))
    else if !Publishable(lay, root) || Get(root.files, MANIFEST) == Some(Irregular) then Some(ContractError)
    else if faults(BeforeManifest) then Some(StageFailed(BeforeManifest))
    else if faults(AfterManifest) then Some(StageFailed(AfterManifest))
    else if faults(Cleanup) then Some(StageFailed(Cleanup))
    else None
  }

  /** The body and the manifests: what stops them first. */
  ghost function AttemptOutcome(lay: Layout, body: Root, extra: bool, faults: Stage -> bool): Option<Raised> {
    if faults(Body) then Some(StageFailed(Body))
    else if !extra then ManifestOutcome(lay, body, faults)
    else if SidecarOutcome(lay, body, faults).Some? then SidecarOutcome(lay, body, faults)
    else ManifestOutcome(lay, WithSidecar(lay, body), faults)
  }

  /** `manifest_after_write`. */
  ghost function Outcome(lay: Layout, before: Root, paths: seq<Path>, edits: Edits, faults: Stage -> bool)
    : Option<Raised>
  {
    if !NoneIrregular(Watched(lay, paths), before.files) then Some(ContractError)
    else AttemptOutcome(lay, AfterBody(lay, before, edits), HasExtra(lay, paths), faults)
  }

  /** The autonomy directory was made, by the body or for its sidecar. */
  ghost predicate MakesDir(lay: Layout, body: Root, edits: Edits, extra: bool, faults: Stage -> bool) {
    || TouchesAutonomy(lay, edits)
    || (!faults(Body) && extra && !faults(ScanAutonomy) && Clean(lay, true, body.files))
  }

  ghost predicate DirMade(lay: Layout, before: Root, paths: seq<Path>, edits: Edits, faults: Stage -> bool) {
    && NoneIrregular(Watched(lay, paths), before.files)
    && MakesDir(lay, AfterBody(lay, before, edits), edits, HasExtra(lay, paths), faults)
  }

  /** What the manifests are made from: the body's tree, with its sidecar if an autonomy path was written. */
  ghost function Ready(lay: Layout, body: Root, extra: bool): Root {
    if extra && Clean(lay, true, body.files) then WithSidecar(lay, body) else body
  }

  ghost function PayloadOrNothing(lay: Layout, body: Root): Payload {
    if Publishable(lay, body) then PayloadOf(lay, body) else Payload(map[], None)
  }

  ghost function NewManifest(lay: Layout, body: Root): File {
    Regular(lay.encode(PayloadOrNothing(lay, body)))
  }

  /** A failed last cleanup leaves the new manifest, unless the rollback restores the manifest too. */
  ghost predicate LeavesManifest(lay: Layout, paths: seq<Path>, raised: Raised) {
    raised == StageFailed(Cleanup) && MANIFEST !in PathSet(Watched(lay, paths))
  }

  /** The root after the write: published, or rolled back but for a directory and a late manifest. */
  ghost function Final(lay: Layout, before: Root, paths: seq<Path>, edits: Edits, faults: Stage -> bool): Root {
    var body := AfterBody(lay, before, edits);
    match Outcome(lay, before, paths, edits, faults)
    case None =>
      var ready := Ready(lay, body, HasExtra(lay, paths));
      ready.With(MANIFEST, NewManifest(lay, ready))
    case Some(raised) =>
      Root(if LeavesManifest(lay, paths, raised) then before.files[MANIFEST := NewManifest(lay, body)]
           else before.files,
           before.autonomyDir || DirMade(lay, before, paths, edits, faults))
  }

  class ArtifactRoot {
    const lay: Layout
    var root: Root

    constructor (lay: Layout, root: Root)
      ensures this.lay == lay && this.root == root
    {
      this.lay := lay;
      this.root := root;
    }

    /** `_ArtifactSnapshot.restore`, for every snapshot, last first. Directories are not removed. */
    method RestoreAll(snapshots: seq<Snapshot>, ghost before: Tree)
      requires Faithful(snapshots, before)
      modifies this
      ensures root.autonomyDir == old(root).autonomyDir
      ensures forall p :: Get(root.files, p) ==
                if exists i :: 0 <= i < |snapshots| && snapshots[i].path == p then Get(before, p)
                else Get(old(root).files, p)
    {
      var k := |snapshots|;
      while k > 0
        invariant 0 <= k <= |snapshots| && root.autonomyDir == old(root).autonomyDir
        invariant forall p :: Get(root.files, p) ==
                    if exists i :: k <= i < |snapshots| && snapshots[i].path == p then Get(before, p)
                    else Get(old(root).files, p)
      {
        k := k - 1;
        var s := snapshots[k];
        assert IsAsIn(s, before);
        root := root.(files := Restored(root.files, s));
      }
    }

    /** `write_autonomy_manifest`; a failure after the replace leaves the sidecar written. */
    method WriteSidecar(faults: Stage -> bool) returns (r: Option<Raised>)
      modifies this
      ensures r == SidecarOutcome(lay, old(root), faults)
      ensures r.None? ==> root == WithSidecar(lay, old(root))
      ensures r.Some? ==> forall p :: p != SIDECAR ==> Get(root.files, p) == Get(old(root).files, p)
      ensures root.autonomyDir <==>
                old(root).autonomyDir || (!faults(ScanAutonomy) && Clean(lay, true, old(root).files))
    {
      if faults(ScanAutonomy) {
        return Some(StageFailed(ScanAutonomy));
      }
      var entries := Inventory(lay, true, root.files);
      if entries.None? {
        return Some(ContractError);
      }
      root := root.(autonomyDir := true);
      if faults(BeforeSidecar) {
        return Some(StageFailed(BeforeSidecar));
      }
      root := root.With(SIDECAR, Regular(lay.encodeSidecar(entries.value)));
      if faults(AfterSidecar) {
        return Some(StageFailed(AfterSidecar));
      }
      return None;
    }

    /** `write_manifest`; what fails after the replace puts the old manifest back, except the last cleanup. */
    method WriteManifest(faults: Stage -> bool) returns (r: Option<Raised>)
      modifies this
      ensures r == ManifestOutcome(lay, old(root), faults)
      ensures root == if r.None? || r == Some(StageFailed(Cleanup))
                      then old(root).With(MANIFEST, NewManifest(lay, old(root))) else old(root)
    {
      if faults(ScanArtifacts) {
        return Some(StageFailed(ScanArtifacts));
      }
      var entries := Inventory(lay, false, root.files);
      if entries.None? || (root.autonomyDir && !SidecarIsRegular(root.files)) {
        return Some(ContractError);
      }
      var pointer := if root.autonomyDir then Some(Listed(AUTONOMY_SCHEMA, root.files[SIDECAR].bytes)) else None;
      if MANIFEST in root.files && root.files[MANIFEST].Irregular? {
        return Some(ContractError);
      }
      var previous := Snapshot(MANIFEST, BytesAt(root.files, MANIFEST));
      if faults(BeforeManifest) {
        return Some(StageFailed(BeforeManifest));
      }
      root := root.With(MANIFEST, Regular(lay.encode(Payload(entries.value, pointer))));
      if faults(AfterManifest) {
        root := root.(files := Restored(root.files, previous));
        assert root.files == old(root).files;
        return Some(StageFailed(AfterManifest));
      }
      if faults(Cleanup) {
        return Some(StageFailed(Cleanup));
      }
      return None;
    }

    /** The body and the manifests, as far as they get. */
    method Attempt(paths: seq<Path>, edits: Edits, faults: Stage -> bool) returns (r: Option<Raised>)
      requires OnlyListed(edits, paths)
      modifies this
      ensures r == AttemptOutcome(lay, AfterBody(lay, old(root), edits), HasExtra(lay, paths), faults)
      ensures r.None? ==>
                var ready := Ready(lay, AfterBody(lay, old(root), edits), HasExtra(lay, paths));
                root == ready.With(MANIFEST, NewManifest(lay, ready))
      ensures r.Some? ==>
                var body := AfterBody(lay, old(root), edits);
                && Partial(lay, old(root), paths, r.value, body, root)
                && (root.autonomyDir <==>
                      old(root).autonomyDir || MakesDir(lay, body, edits, HasExtra(lay, paths), faults))
    {
      root := AfterBody(lay, root, edits);
      BodyStaysListed(lay, old(root), paths, edits);
      WatchedHasPaths(lay, paths);
      if faults(Body) {
        return Some(StageFailed(Body));
      }
      if HasExtra(lay, paths) {
        r := WriteSidecar(faults);
        if r.Some? {
          return;
        }
      }
      r := WriteManifest(faults);
    }

    /** `manifest_after_write`: how it ends and what it leaves, told from what is known before it. */
    method ManifestAfterWrite(paths: seq<Path>, edits: Edits, faults: Stage -> bool) returns (r: Option<Raised>)
      requires OnlyListed(edits, paths)
      modifies this
      ensures r == Outcome(lay, old(root), paths, edits, faults)
      ensures root == Final(lay, old(root), paths, edits, faults)
    {
      var snapshots := TakeSnapshots(Watched(lay, paths), root.files);
      if snapshots.None? {
        return Some(ContractError);
      }
      r := Attempt(paths, edits, faults);
      if r.Some? {
        ghost var reached := root;
        RestoreAll(snapshots.value, old(root).files);
        RestoredIsOld(lay, old(root), paths, r.value, AfterBody(lay, old(root), edits), reached, root, snapshots.value);
      }
    }
  }

  // ---------------------------------------------------------------------
  // The rollback
  // ---------------------------------------------------------------------

  /** Before the rollback only watched paths differ, and perhaps the manifest. */
  ghost predicate Partial(lay: Layout, before: Root, paths: seq<Path>, raised: Raised, body: Root, root: Root) {
    forall p :: p !in PathSet(Watched(lay, paths)) ==>
      Get(root.files, p) == if LeavesManifest(lay, paths, raised) && p == MANIFEST
                            then Some(NewManifest(lay, body)) else Get(before.files, p)
  }

  lemma WatchedHasPaths(lay: Layout, paths: seq<Path>)
    ensures PathSet(paths) <= PathSet(Watched(lay, paths))
    ensures HasExtra(lay, paths) ==> MANIFEST in PathSet(Watched(lay, paths)) && SIDECAR in PathSet(Watched(lay, paths))
  {
    var all := Watched(lay, paths);
    forall i | 0 <= i < |paths| ensures paths[i] in PathSet(all) {
      assert all[i] == paths[i];
    }
    if HasExtra(lay, paths) {
      assert all[|paths|] == SIDECAR && all[|paths| + 1] == MANIFEST;
    }
  }

  lemma BodyStaysListed(lay: Layout, before: Root, paths: seq<Path>, edits: Edits)
    requires OnlyListed(edits, paths)
    ensures forall p :: p !in PathSet(Watched(lay, paths)) ==>
              Get(AfterBody(lay, before, edits).files, p) == Get(before.files, p)
  {
    WatchedHasPaths(lay, paths);
    forall p | p in edits ensures p in PathSet(paths) {
      var i :| 0 <= i < |paths| && paths[i] == p;
    }
  }

  lemma SameFiles(a: Tree, b: Tree)
    requires forall p :: Get(a, p) == Get(b, p)
    ensures a == b
  {
    assert forall p :: p in a <==> Get(a, p).Some?;
    assert forall p :: p in b <==> Get(b, p).Some?;
  }

  /** Restoring the watched paths restores every file, but for a late manifest. */
  lemma RestoredIsOld(lay: Layout, before: Root, paths: seq<Path>, raised: Raised, body: Root, reached: Root,
                      root: Root, snapshots: seq<Snapshot>)
    requires Covers(snapshots, PathSet(Watched(lay, paths))) && Partial(lay, before, paths, raised, body, reached)
    requires forall p :: Get(root.files, p) ==
               if exists i :: 0 <= i < |snapshots| && snapshots[i].path == p then Get(before.files, p)
               else Get(reached.files, p)
    ensures root.files == if LeavesManifest(lay, paths, raised) then before.files[MANIFEST := NewManifest(lay, body)]
                          else before.files
  {
    var goal := if LeavesManifest(lay, paths, raised) then before.files[MANIFEST := NewManifest(lay, body)]
                else before.files;
    forall p ensures Get(root.files, p) == Get(goal, p) {
      assert p in PathSet(Watched(lay, paths)) <==> exists i :: 0 <= i < |snapshots| && snapshots[i].path == p;
    }
    SameFiles(root.files, goal);
  }

  // ---------------------------------------------------------------------
  // What a write keeps
  // ---------------------------------------------------------------------

  /** The body changes what the manifest lists. */
  ghost predicate ChangesInventory(lay: Layout, before: Root, edits: Edits) {
    var body := AfterBody(lay, before, edits);
    && Clean(lay, false, before.files) && Clean(lay, false, body.files)
    && Entries(lay, false, before.files) != Entries(lay, false, body.files)
  }

  /**
    A write that goes through is described by its manifest, its pointer and,
    if it wrote there, the sidecar, whatever the tree was before.
   */
  lemma FinishedIsDescribed(lay: Layout, before: Root, paths: seq<Path>, edits: Edits, faults: Stage -> bool)
    requires lay.Ok() && Outcome(lay, before, paths, edits, faults).None?
    ensures var root := Final(lay, before, paths, edits, faults);
            && Describes(lay, root.files) && PointerHolds(lay, root)
            && (HasExtra(lay, paths) ==> AutonomyDescribes(lay, root))
  {
    var body := AfterBody(lay, before, edits);
    if HasExtra(lay, paths) {
      SidecarWrittenDescribes(lay, body);
      PublishedDescribes(lay, WithSidecar(lay, body));
    } else {
      PublishedDescribes(lay, body);
    }
  }

  /**
    The manifest transaction: a tree its manifest described is described
    again, whatever happens, exactly but for one case. It is not when the very
    last cleanup fails, the manifest is not among the watched paths, and the
    write changed the inventory.
   */
  lemma DescribedExactly(lay: Layout, before: Root, paths: seq<Path>, edits: Edits, faults: Stage -> bool)
    requires lay.Ok() && Describes(lay, before.files)
    ensures Describes(lay, Final(lay, before, paths, edits, faults).files)
            <==> !(&& Outcome(lay, before, paths, edits, faults) == Some(StageFailed(Cleanup))
                   && MANIFEST !in PathSet(Watched(lay, paths))
                   && ChangesInventory(lay, before, edits))
  {
    var outcome := Outcome(lay, before, paths, edits, faults);
    if outcome.None? {
      FinishedIsDescribed(lay, before, paths, edits, faults);
    } else if LeavesManifest(lay, paths, outcome.value) {
      WatchedHasPaths(lay, paths);
      var body := AfterBody(lay, before, edits);
      assert Publishable(lay, body);
      UnlistedFile(lay, false, before.files, MANIFEST, NewManifest(lay, body));
    }
  }

  /** When the last cleanup is what fails, told from the stages that fail and the tree. */
  lemma CleanupFailsExactly(lay: Layout, before: Root, paths: seq<Path>, edits: Edits, faults: Stage -> bool)
    requires !HasExtra(lay, paths)
    ensures Outcome(lay, before, paths, edits, faults) == Some(StageFailed(Cleanup))
            <==> && NoneIrregular(paths, before.files)
                 && faults(Cleanup) && !faults(Body) && !faults(ScanArtifacts)
                 && !faults(BeforeManifest) && !faults(AfterManifest)
                 && Publishable(lay, AfterBody(lay, before, edits))
                 && Get(AfterBody(lay, before, edits).files, MANIFEST) != Some(Irregular)
  {}

  /** Failing anywhere but in that cleanup, a write leaves every file as it was. */
  lemma FailedWriteRestores(lay: Layout, before: Root, paths: seq<Path>, edits: Edits, faults: Stage -> bool)
    requires Outcome(lay, before, paths, edits, faults).Some?
    ensures Final(lay, before, paths, edits, faults).files == before.files
            || (&& Outcome(lay, before, paths, edits, faults) == Some(StageFailed(Cleanup))
                && !HasExtra(lay, paths)
                && forall p :: p != MANIFEST ==>
                     Get(Final(lay, before, paths, edits, faults).files, p) == Get(before.files, p))
  {
    WatchedHasPaths(lay, paths);
  }

  /**
    The rollback removes files, not directories. After a first autonomy write
    fails, the root can be published again exactly when the write got neither
    as far as a file in the directory nor past the scan before its sidecar.
   */
  lemma FailedFirstAutonomyWriteBlocksExactly(
    lay: Layout, before: Root, paths: seq<Path>, edits: Edits, faults: Stage -> bool)
    requires lay.NamesOk() && Outcome(lay, before, paths, edits, faults).Some?
    requires Publishable(lay, before) && !before.autonomyDir && SIDECAR !in before.files
    ensures Publishable(lay, Final(lay, before, paths, edits, faults)) <==> !DirMade(lay, before, paths, edits, faults)
  {
    var root := Final(lay, before, paths, edits, faults);
    PathsDiffer();
    UnlistedFile(lay, false, before.files, MANIFEST, NewManifest(lay, AfterBody(lay, before, edits)));
    assert SIDECAR !in root.files;
  }
}
