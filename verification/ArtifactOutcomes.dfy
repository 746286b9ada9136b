/**
  What a write of artifacts leaves when it goes through, and when it does:
  told path by path from the tree before it, the edits and the stages that
  fail.
 */
module ArtifactOutcomes {
  import opened Prelude
  import opened Artifacts
  import opened ArtifactWrites

  /** The file at a path once the body has run. */
  function FileAfter(before: Tree, edits: Edits, p: Path): Option<File> {
    if p !in edits then (if p in before then Some(before[p]) else None)
    else match edits[p]
         case None => None
         case Some(bytes) => Some(Regular(bytes))
  }

  /** The paths that exist once the body has run. */
  ghost predicate Exists(before: Tree, edits: Edits, p: Path) {
    FileAfter(before, edits, p).Some?
  }

  lemma BodyFiles(lay: Layout, before: Root, edits: Edits)
    ensures forall p :: Get(AfterBody(lay, before, edits).files, p) == FileAfter(before.files, edits, p)
  {}

  /** After the body, a regular file under a recognised name. */
  ghost predicate ListableAfter(lay: Layout, before: Tree, edits: Edits, p: Path) {
    && FileAfter(before, edits, p).Some? && FileAfter(before, edits, p).value.Regular?
    && lay.schemaFor(p).Some?
  }

  ghost predicate NamespaceListable(lay: Layout, before: Tree, edits: Edits) {
    forall p :: Exists(before, edits, p) && lay.inNamespace(p) ==> ListableAfter(lay, before, edits, p)
  }

  ghost predicate AutonomyListable(lay: Layout, before: Tree, edits: Edits) {
    forall p :: Exists(before, edits, p) && lay.inAutonomy(p) && p != SIDECAR ==> ListableAfter(lay, before, edits, p)
  }

  lemma CleanIsListable(lay: Layout, before: Root, edits: Edits)
    ensures Clean(lay, false, AfterBody(lay, before, edits).files) <==> NamespaceListable(lay, before.files, edits)
    ensures Clean(lay, true, AfterBody(lay, before, edits).files) <==> AutonomyListable(lay, before.files, edits)
  {
    hide AfterBody;
    BodyFiles(lay, before, edits);
    var body := AfterBody(lay, before, edits).files;
    assert forall p :: p in body <==> Exists(before.files, edits, p) by {
      assert forall p :: p in body <==> Get(body, p).Some?;
    }
    assert forall p :: p in body ==> Get(body, p) == Some(body[p]);
  }

  // ---------------------------------------------------------------------
  // When a write goes through
  // ---------------------------------------------------------------------

  ghost predicate WritesAutonomy(lay: Layout, paths: seq<Path>) {
    exists i :: 0 <= i < |paths| && lay.inAutonomy(paths[i])
  }

  ghost predicate MakesAutonomy(lay: Layout, edits: Edits) {
    exists p :: p in edits && edits[p].Some? && lay.inAutonomy(p)
  }

  ghost predicate PlainOrAbsent(tree: Tree, p: Path) {
    p in tree ==> tree[p].Regular?
  }

  /** The stages a write goes through, all of them passing. */
  ghost predicate StagesPass(autonomy: bool, faults: Stage -> bool) {
    && !faults(Body) && !faults(ScanArtifacts) && !faults(BeforeManifest) && !faults(AfterManifest) && !faults(Cleanup)
    && (autonomy ==> !faults(ScanAutonomy) && !faults(BeforeSidecar) && !faults(AfterSidecar))
  }

  lemma WatchedArePlain(lay: Layout, paths: seq<Path>, tree: Tree)
    ensures NoneIrregular(Watched(lay, paths), tree)
            <==> && (forall i :: 0 <= i < |paths| ==> PlainOrAbsent(tree, paths[i]))
                 && (WritesAutonomy(lay, paths) ==> PlainOrAbsent(tree, SIDECAR) && PlainOrAbsent(tree, MANIFEST))
  {
    var all := Watched(lay, paths);
    if NoneIrregular(all, tree) {
      forall i | 0 <= i < |paths| ensures PlainOrAbsent(tree, paths[i]) {
        assert all[i] == paths[i];
      }
      if WritesAutonomy(lay, paths) {
        assert all[|paths|] == SIDECAR && all[|paths| + 1] == MANIFEST;
      }
    }
  }

  /**
    A write goes through exactly when every stage passes, every watched path
    is a regular file or absent, every file it must list can be listed, a
    sidecar is there if the autonomy directory is, and nothing but a file
    stands where the manifest goes.
   */
  lemma GoesThroughExactly(lay: Layout, before: Root, paths: seq<Path>, edits: Edits, faults: Stage -> bool)
    requires lay.NamesOk()
    ensures var autonomy := WritesAutonomy(lay, paths);
            Outcome(lay, before, paths, edits, faults).None?
            <==> && StagesPass(autonomy, faults)
                 && (forall i :: 0 <= i < |paths| ==> PlainOrAbsent(before.files, paths[i]))
                 && (autonomy ==> PlainOrAbsent(before.files, SIDECAR) && PlainOrAbsent(before.files, MANIFEST))
                 && NamespaceListable(lay, before.files, edits)
                 && (autonomy ==> AutonomyListable(lay, before.files, edits))
                 && (!autonomy && (before.autonomyDir || MakesAutonomy(lay, edits)) ==>
                       FileAfter(before.files, edits, SIDECAR).Some?
                       && FileAfter(before.files, edits, SIDECAR).value.Regular?)
                 && FileAfter(before.files, edits, MANIFEST) != Some(Irregular)
  {
    hide Clean, NamespaceListable, AutonomyListable, Watched, NoneIrregular, PlainOrAbsent, StagesPass;
    var body := AfterBody(lay, before, edits);
    PathsDiffer();
    WatchedArePlain(lay, paths, before.files);
    BodyFiles(lay, before, edits);
    CleanIsListable(lay, before, edits);
    Stages(faults);
    if WritesAutonomy(lay, paths) && Clean(lay, true, body.files) {
      UnlistedFile(lay, false, body.files, SIDECAR, Regular(lay.encodeSidecar(Entries(lay, true, body.files))));
    }
  }

  lemma Stages(faults: Stage -> bool)
    ensures forall autonomy :: StagesPass(autonomy, faults)
                               <==> && !faults(Body) && !faults(ScanArtifacts) && !faults(BeforeManifest)
                                    && !faults(AfterManifest) && !faults(Cleanup)
                                    && (autonomy ==>
                                          !faults(ScanAutonomy) && !faults(BeforeSidecar) && !faults(AfterSidecar))
  {}

  // ---------------------------------------------------------------------
  // What it leaves
  // ---------------------------------------------------------------------

  /** The manifest lists a path of the namespace, and only those, with its schema, size and digest. */
  ghost predicate ListsExactly(lay: Layout, artifacts: map<Path, Entry>, before: Tree, edits: Edits) {
    && (forall p :: p in artifacts <==> Exists(before, edits, p) && lay.inNamespace(p))
    && (forall p :: p in artifacts ==>
          && ListableAfter(lay, before, edits, p)
          && var bytes := FileAfter(before, edits, p).value.bytes;
             artifacts[p] == Entry(lay.schemaFor(p).value, |bytes|, Sha(bytes)))
  }

  lemma EntriesList(lay: Layout, before: Root, edits: Edits)
    requires Clean(lay, false, AfterBody(lay, before, edits).files)
    ensures ListsExactly(lay, Entries(lay, false, AfterBody(lay, before, edits).files), before.files, edits)
  {
    hide AfterBody;
    BodyFiles(lay, before, edits);
    var body := AfterBody(lay, before, edits).files;
    forall p ensures p in body <==> Exists(before.files, edits, p) {
      assert p in body <==> Get(body, p).Some?;
    }
    assert forall p :: p in body ==> Get(body, p) == Some(body[p]);
  }

  /**
    A write that goes through leaves every edit in place and every other path
    as it was, but for the manifests, and a manifest that lists exactly the
    files of the namespace as they then are.
   */
  lemma GoesThroughWithEverything(lay: Layout, before: Root, paths: seq<Path>, edits: Edits, faults: Stage -> bool)
    requires lay.Ok() && Outcome(lay, before, paths, edits, faults).None?
    ensures var files := Final(lay, before, paths, edits, faults).files;
            && (forall p :: p != MANIFEST && (p != SIDECAR || !WritesAutonomy(lay, paths)) ==>
                  Get(files, p) == FileAfter(before.files, edits, p))
            && MANIFEST in files && files[MANIFEST].Regular?
            && lay.decode(files[MANIFEST].bytes).Some?
            && ListsExactly(lay, lay.decode(files[MANIFEST].bytes).value.artifacts, before.files, edits)
  {
    hide Clean, Entries, ListsExactly;
    var body := AfterBody(lay, before, edits);
    PathsDiffer();
    BodyFiles(lay, before, edits);
    if WritesAutonomy(lay, paths) {
      UnlistedFile(lay, false, body.files, SIDECAR, Regular(lay.encodeSidecar(Entries(lay, true, body.files))));
    }
    EntriesList(lay, before, edits);
  }
}
