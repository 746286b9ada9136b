/**
  Two writes that fail and what they leave: a directory no manifest can be
  published over, and a manifest that does not describe its tree.
 */
module ArtifactWitness {
  import opened Prelude
  import opened Artifacts
  import opened ArtifactWrites

  const LESSON: Path := "lessons/a"
  const RESULT: Path := "autonomy/a"

  const OLD: Tree := map[LESSON := Regular([]), MANIFEST := Regular([0])]
  const OLD_ENTRIES: map<Path, Entry> := map[LESSON := Listed("s", [])]
  const NEW_ENTRIES: map<Path, Entry> := map[LESSON := Listed("s", [1])]

  /** Two manifests that can be told apart, a schema for every name, and namespaces by first letter. */
  const LAYOUT := Layout(
    (p: Payload) => if p == Payload(OLD_ENTRIES, None) then [0] else [1],
    (b: Bytes) => Some(Payload(if b == [0] then OLD_ENTRIES else NEW_ENTRIES, None)),
    (m: map<Path, Entry>) => [], (b: Bytes) => Some(map[]),
    (p: Path) => Some("s"),
    (p: Path) => p != "" && p[0] == 'l',
    (p: Path) => p != "" && p[0] == 'a')

  lemma LayoutNames()
    ensures LAYOUT.NamesOk() && LAYOUT.inNamespace(LESSON) && LAYOUT.inAutonomy(RESULT)
    ensures MANIFEST[0] == 'm' && SIDECAR[0] == 'a' && LESSON[0] == 'l' && RESULT[0] == 'a'
  {}

  // ---------------------------------------------------------------------
  // A directory left over
  // ---------------------------------------------------------------------

  const FIRST: Edits := map[RESULT := Some([])]
  const NOTHING_YET := Root(map[], false)

  function FailsAt(stage: Stage): Stage -> bool {
    s => s == stage
  }

  /** An empty root can be published; after a first autonomy write whose body raises, it cannot. */
  lemma FirstAutonomyWriteBlocks()
    ensures OnlyListed(FIRST, [RESULT]) && Publishable(LAYOUT, NOTHING_YET)
    ensures Outcome(LAYOUT, NOTHING_YET, [RESULT], FIRST, FailsAt(Body)) == Some(StageFailed(Body))
    ensures !Publishable(LAYOUT, Final(LAYOUT, NOTHING_YET, [RESULT], FIRST, FailsAt(Body)))
  {
    LayoutNames();
    assert [RESULT][0] == RESULT;
    assert RESULT in FIRST && FIRST[RESULT].Some?;
    FailedFirstAutonomyWriteBlocksExactly(LAYOUT, NOTHING_YET, [RESULT], FIRST, FailsAt(Body));
  }

  // ---------------------------------------------------------------------
  // A manifest left over
  // ---------------------------------------------------------------------

  const CHANGE: Edits := map[LESSON := Some([1])]
  const DESCRIBED := Root(OLD, false)

  lemma OldEntries()
    ensures Clean(LAYOUT, false, OLD) && Entries(LAYOUT, false, OLD) == OLD_ENTRIES
  {
    LayoutNames();
    assert MANIFEST != LESSON;
    assert Entries(LAYOUT, false, OLD).Keys == {LESSON};
  }

  lemma NewEntries()
    ensures var body := AfterBody(LAYOUT, DESCRIBED, CHANGE);
            && !body.autonomyDir && Clean(LAYOUT, false, body.files)
               && Entries(LAYOUT, false, body.files) == NEW_ENTRIES
            && Get(body.files, MANIFEST) == Some(Regular([0]))
  {
    LayoutNames();
    assert MANIFEST != LESSON && MANIFEST in OLD && LESSON in CHANGE;
    var files := AfterBody(LAYOUT, DESCRIBED, CHANGE).files;
    assert files == map[LESSON := Regular([1]), MANIFEST := Regular([0])];
    assert Entries(LAYOUT, false, files).Keys == {LESSON};
  }

  lemma EntriesDiffer()
    ensures OLD_ENTRIES != NEW_ENTRIES
  {
    assert OLD_ENTRIES[LESSON] != NEW_ENTRIES[LESSON];
  }

  /** A lesson is rewritten and the last cleanup fails: the lesson is put back, the new manifest stays. */
  lemma LateCleanupMisdescribes()
    ensures OnlyListed(CHANGE, [LESSON]) && Describes(LAYOUT, DESCRIBED.files)
    ensures Outcome(LAYOUT, DESCRIBED, [LESSON], CHANGE, FailsAt(Cleanup)) == Some(StageFailed(Cleanup))
    ensures Get(Final(LAYOUT, DESCRIBED, [LESSON], CHANGE, FailsAt(Cleanup)).files, LESSON) == Get(OLD, LESSON)
    ensures !Describes(LAYOUT, Final(LAYOUT, DESCRIBED, [LESSON], CHANGE, FailsAt(Cleanup)).files)
  {
    hide Entries, OLD_ENTRIES, NEW_ENTRIES, AfterBody, Final, Outcome;
    LayoutNames();
    OldEntries();
    LateManifestStays();
    assert [LESSON][0] == LESSON;
    EntriesDiffer();
    UnlistedFile(LAYOUT, false, OLD, MANIFEST, Regular([1]));
  }

  /** The last cleanup is what fails, and only the manifest differs. */
  lemma LateManifestStays()
    ensures Outcome(LAYOUT, DESCRIBED, [LESSON], CHANGE, FailsAt(Cleanup)) == Some(StageFailed(Cleanup))
    ensures Final(LAYOUT, DESCRIBED, [LESSON], CHANGE, FailsAt(Cleanup)).files == OLD[MANIFEST := Regular([1])]
  {
    hide Entries, OLD_ENTRIES, NEW_ENTRIES, AfterBody, Outcome;
    LayoutNames();
    OldEntries();
    NewEntries();
    EntriesDiffer();
    assert [LESSON][0] == LESSON && !HasExtra(LAYOUT, [LESSON]);
    CleanupFailsExactly(LAYOUT, DESCRIBED, [LESSON], CHANGE, FailsAt(Cleanup));
    assert MANIFEST !in PathSet([LESSON]);
    assert NewManifest(LAYOUT, AfterBody(LAYOUT, DESCRIBED, CHANGE)) == Regular([1]);
  }
}
