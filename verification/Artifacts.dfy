/**
  The manifest of the artifact tree (twill_artifacts.py): what it lists, how
  it is published, and how a write and its manifest go through together or
  not at all, whichever step fails.
 */
module Artifacts {
  import opened Prelude

  type Path = string
  type Bytes = seq<bv8>

  /** A regular file, or anything else a path can be. */
  datatype File = Regular(bytes: Bytes) | Irregular

  type Tree = map<Path, File>

  /** SHA-256, taken to be injective. */
  datatype Sha = Sha(of: Bytes)

  datatype Entry = Entry(schema: string, bytes: nat, sha: Sha)

  /** A manifest: the artifacts by path, and the sidecar of the autonomy namespace if there is one. */
  datatype Payload = Payload(artifacts: map<Path, Entry>, autonomy: Option<Entry>)

  /**
    How manifests are spelled in bytes and read back, which names are
    artifacts of which schema, and which paths are in which namespace.
   */
  datatype Layout = Layout(
    encode: Payload -> Bytes,
    decode: Bytes -> Option<Payload>,
    encodeSidecar: map<Path, Entry> -> Bytes,
    decodeSidecar: Bytes -> Option<map<Path, Entry>>,
    schemaFor: Path -> Option<string>,
    inNamespace: Path -> bool,
    inAutonomy: Path -> bool)
  {
    ghost predicate Ok() {
      && (forall p :: decode(encode(p)) == Some(p))
      && (forall m :: decodeSidecar(encodeSidecar(m)) == Some(m))
      && NamesOk()
    }

    /** The manifests are not artifacts, and no path is in both namespaces. */
    ghost predicate NamesOk() {
      && !inNamespace(MANIFEST) && !inAutonomy(MANIFEST)
      && !inNamespace(SIDECAR) && inAutonomy(SIDECAR)
      && (forall p :: !(inNamespace(p) && inAutonomy(p)))
    }
  }

  const MANIFEST: Path := "manifest.json"
  const SIDECAR: Path := "autonomy/manifest.json"
  const AUTONOMY_SCHEMA := "twill-autonomy-artifacts/v1"

  function Get(tree: Tree, p: Path): Option<File> {
    if p in tree then Some(tree[p]) else None
  }

  function Listed(schema: string, bytes: Bytes): Entry {
    Entry(schema, |bytes|, Sha(bytes))
  }

  // ---------------------------------------------------------------------
  // Inventories
  // ---------------------------------------------------------------------

  /** A path that can be listed: a regular file with a recognised name. */
  predicate Listable(lay: Layout, tree: Tree, p: Path)
    requires p in tree
  {
    tree[p].Regular? && lay.schemaFor(p).Some?
  }

  /** The artifact files, or the autonomy files other than their manifest. */
  predicate Inventoried(lay: Layout, autonomy: bool, p: Path) {
    if autonomy then lay.inAutonomy(p) && p != SIDECAR else lay.inNamespace(p)
  }

  ghost predicate Clean(lay: Layout, autonomy: bool, tree: Tree) {
    forall p :: p in tree && Inventoried(lay, autonomy, p) ==> Listable(lay, tree, p)
  }

  ghost function Entries(lay: Layout, autonomy: bool, tree: Tree): map<Path, Entry>
    requires Clean(lay, autonomy, tree)
  {
    map p | p in tree && Inventoried(lay, autonomy, p) :: Listed(lay.schemaFor(p).value, tree[p].bytes)
  }

  /** `_inventory` and `_autonomy_inventory`: None is their error, a path that cannot be listed. */
  method Inventory(lay: Layout, autonomy: bool, tree: Tree) returns (r: Option<map<Path, Entry>>)
    ensures r == if Clean(lay, autonomy, tree) then Some(Entries(lay, autonomy, tree)) else None
  {
    var entries: map<Path, Entry> := map[];
    var rest := tree.Keys;
    while rest != {}
      invariant rest <= tree.Keys
      invariant forall p :: p in tree && p !in rest && Inventoried(lay, autonomy, p) ==> Listable(lay, tree, p)
      invariant forall p :: p in entries <==> p in tree && p !in rest && Inventoried(lay, autonomy, p)
      invariant forall p :: p in entries ==> tree[p].Regular? && lay.schemaFor(p).Some?
                                             && entries[p] == Listed(lay.schemaFor(p).value, tree[p].bytes)
      decreases |rest|
    {
      var p :| p in rest;
      rest := rest - {p};
      if Inventoried(lay, autonomy, p) {
        if !Listable(lay, tree, p) {
          return None;
        }
        entries := entries[p := Listed(lay.schemaFor(p).value, tree[p].bytes)];
      }
    }
    assert entries == Entries(lay, autonomy, tree);
    r := Some(entries);
  }

  /** The files under the root, and whether the autonomy directory is there, empty or not. */
  datatype Root = Root(files: Tree, autonomyDir: bool)
  {
    ghost predicate Ok(lay: Layout) {
      (exists p :: p in files && lay.inAutonomy(p)) ==> autonomyDir
    }

    function With(p: Path, f: File): Root {
      this.(files := files[p := f])
    }
  }

  predicate SidecarIsRegular(tree: Tree) {
    SIDECAR in tree && tree[SIDECAR].Regular?
  }

  /** A manifest can be made: every artifact can be listed, and an autonomy directory has its sidecar. */
  ghost predicate Publishable(lay: Layout, root: Root) {
    Clean(lay, false, root.files) && (root.autonomyDir ==> SidecarIsRegular(root.files))
  }

  /** `_manifest_payload`. */
  ghost function PayloadOf(lay: Layout, root: Root): Payload
    requires Publishable(lay, root)
  {
    Payload(Entries(lay, false, root.files),
            if root.autonomyDir then Some(Listed(AUTONOMY_SCHEMA, root.files[SIDECAR].bytes)) else None)
  }

  /** What `read_manifest` compares: the manifest's list is the inventory of the tree it is in. */
  ghost predicate Describes(lay: Layout, tree: Tree) {
    && Clean(lay, false, tree)
    && MANIFEST in tree && tree[MANIFEST].Regular?
    && lay.decode(tree[MANIFEST].bytes).Some?
    && lay.decode(tree[MANIFEST].bytes).value.artifacts == Entries(lay, false, tree)
  }

  /** What `read_autonomy_manifest` compares: the pointer is to the sidecar, and the sidecar lists its files. */
  ghost predicate AutonomyDescribes(lay: Layout, root: Root) {
    root.autonomyDir ==>
      && SidecarIsRegular(root.files) && Clean(lay, true, root.files)
      && lay.decodeSidecar(root.files[SIDECAR].bytes) == Some(Entries(lay, true, root.files))
  }

  ghost predicate PointerHolds(lay: Layout, root: Root) {
    root.autonomyDir ==>
      && SidecarIsRegular(root.files) && MANIFEST in root.files && root.files[MANIFEST].Regular?
      && lay.decode(root.files[MANIFEST].bytes).Some?
      && lay.decode(root.files[MANIFEST].bytes).value.autonomy
         == Some(Listed(AUTONOMY_SCHEMA, root.files[SIDECAR].bytes))
  }

  lemma PathsDiffer()
    ensures MANIFEST != SIDECAR
  {
    assert MANIFEST[0] != SIDECAR[0];
  }

  /** The same files outside one that is not listed make the same inventory. */
  lemma UnlistedFile(lay: Layout, autonomy: bool, tree: Tree, p: Path, f: File)
    requires !Inventoried(lay, autonomy, p)
    ensures Clean(lay, autonomy, tree[p := f]) == Clean(lay, autonomy, tree)
    ensures Clean(lay, autonomy, tree) ==> Entries(lay, autonomy, tree[p := f]) == Entries(lay, autonomy, tree)
  {
    var tree' := tree[p := f];
    assert forall q :: q in tree && Inventoried(lay, autonomy, q) ==> q in tree' && tree'[q] == tree[q];
    if Clean(lay, autonomy, tree) {
      assert Entries(lay, autonomy, tree') == Entries(lay, autonomy, tree);
    }
  }

  ghost function Published(lay: Layout, root: Root): Root
    requires Publishable(lay, root)
  {
    root.With(MANIFEST, Regular(lay.encode(PayloadOf(lay, root))))
  }

  /** A published root is described by its manifest, pointer and all. */
  lemma PublishedDescribes(lay: Layout, root: Root)
    requires lay.Ok() && Publishable(lay, root)
    ensures Describes(lay, Published(lay, root).files) && PointerHolds(lay, Published(lay, root))
    ensures AutonomyDescribes(lay, root) ==> AutonomyDescribes(lay, Published(lay, root))
  {
    PathsDiffer();
    var f := Regular(lay.encode(PayloadOf(lay, root)));
    UnlistedFile(lay, false, root.files, MANIFEST, f);
    UnlistedFile(lay, true, root.files, MANIFEST, f);
  }

  ghost function WithSidecar(lay: Layout, root: Root): Root
    requires Clean(lay, true, root.files)
  {
    root.With(SIDECAR, Regular(lay.encodeSidecar(Entries(lay, true, root.files)))).(autonomyDir := true)
  }

  /** A sidecar written from the autonomy files describes them. */
  lemma SidecarWrittenDescribes(lay: Layout, root: Root)
    requires lay.Ok() && Clean(lay, true, root.files)
    ensures AutonomyDescribes(lay, WithSidecar(lay, root))
  {
    UnlistedFile(lay, true, root.files, SIDECAR, Regular(lay.encodeSidecar(Entries(lay, true, root.files))));
  }
}
