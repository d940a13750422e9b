/**
 The isolated Git workspace of a repair run. A tree maps paths to contents and stands for the commit
 that holds it; a patch records both sides of every changed path, as a full-index binary diff does.
 */
module Workspace {
  import opened Wrappers

  type Path = string
  type Tree = map<Path, string>

  datatype Change = Change(before: Option<string>, after: Option<string>)
  type Patch = map<Path, Change>

  datatype Edit = Edit(path: Path, content: string)

  /** `tracked` holds the index paths, those added by intent included; `manifest` the edited ones. */
  datatype Disk = Disk(base: Tree, head: Tree, work: Tree, tracked: set<Path>, manifest: set<Path>)

  function At(t: Tree, p: Path): Option<string> {
    if p in t then Some(t[p]) else None
  }

  function Diff(a: Tree, b: Tree): Patch {
    map p | p in a.Keys + b.Keys && At(a, p) != At(b, p) :: Change(At(a, p), At(b, p))
  }

  /** The tree with the new side of every change. */
  function Patched(a: Tree, patch: Patch): Tree {
    map p | p in a.Keys + patch.Keys && (p in patch ==> patch[p].after.Some?) ::
      if p in patch then patch[p].after.value else a[p]
  }

  lemma PatchedDiff(a: Tree, b: Tree)
    ensures Patched(a, Diff(a, b)) == b
  {
    var got := Patched(a, Diff(a, b));
    forall p
      ensures p in got <==> p in b
      ensures p in b ==> got[p] == b[p]
    {
      assert p in a.Keys || p in b.Keys ==> (At(a, p) == At(b, p) || p in Diff(a, b));
    }
    assert got.Keys == b.Keys;
  }

  /** Equal patches lead to equal trees exactly when they start from equal trees. */
  lemma EqualPatches(a: Tree, b: Tree, c: Tree, d: Tree)
    requires Diff(a, b) == Diff(c, d)
    ensures b == d <==> a == c
  {
    PatchedDiff(a, b);
    PatchedDiff(c, d);
    if b == d {
      forall p
        ensures p in a <==> p in c
        ensures p in a ==> a[p] == c[p]
      {
        assert p in Diff(a, b) <==> p in Diff(c, d);
        assert p in Diff(a, b) ==> At(a, p) == At(c, p);
        assert p !in Diff(a, b) ==> At(a, p) == At(b, p) && At(c, p) == At(d, p);
        assert At(a, p) == At(c, p);
      }
      assert a.Keys == c.Keys;
    }
  }

  lemma EmptyDiff(a: Tree, b: Tree)
    ensures Diff(a, b) == map[] <==> a == b
  {
    PatchedDiff(a, b);
    if Diff(a, b) == map[] {
      assert Patched(a, map[]) == a;
    }
  }

  /** What `git diff HEAD` compares with HEAD. */
  function Visible(d: Disk): Tree {
    map p | p in d.tracked && p in d.work :: d.work[p]
  }

  function Candidate(d: Disk): Patch { Diff(d.head, Visible(d)) }

  /** `snapshot_files`, without its size limit. */
  function Snapshot(work: Tree, paths: set<Path>): Tree {
    map p | p in paths && p in work :: work[p]
  }

  // ----- apply_edits -----

  function EditPaths(edits: seq<Edit>): set<Path> {
    set i | 0 <= i < |edits| :: edits[i].path
  }

  predicate Acceptable(d: Disk, edits: seq<Edit>, editable: set<Path>, ignored: set<Path>) {
    && (forall i :: 0 <= i < |edits| ==> edits[i].path in editable)
    && (forall i, j :: 0 <= i < j < |edits| ==> edits[i].path != edits[j].path)
    && (forall i :: 0 <= i < |edits| ==> edits[i].path in d.work || edits[i].path !in ignored)
  }

  function Written(work: Tree, edits: seq<Edit>): Tree
    decreases |edits|
  {
    if edits == [] then work
    else
      var last := edits[|edits| - 1];
      Written(work, edits[..|edits| - 1])[last.path := last.content]
  }

  function NewPaths(work: Tree, edits: seq<Edit>): set<Path> {
    set i | 0 <= i < |edits| && edits[i].path !in work :: edits[i].path
  }

  function Edited(d: Disk, edits: seq<Edit>): Disk {
    d.(work := Written(d.work, edits), tracked := d.tracked + NewPaths(d.work, edits),
       manifest := d.manifest + EditPaths(edits))
  }

  /** Every edited path holds its new content and every other path its old one. */
  lemma {:induction false} WrittenAt(work: Tree, edits: seq<Edit>, p: Path)
    requires forall i, j :: 0 <= i < j < |edits| ==> edits[i].path != edits[j].path
    ensures p !in EditPaths(edits) ==> At(Written(work, edits), p) == At(work, p)
    ensures forall i :: 0 <= i < |edits| && edits[i].path == p ==> At(Written(work, edits), p) == Some(edits[i].content)
    decreases |edits|
  {
    if edits != [] {
      var n := |edits| - 1;
      assert forall i :: 0 <= i < n ==> edits[..n][i].path in EditPaths(edits);
      WrittenAt(work, edits[..n], p);
      assert forall i :: 0 <= i < n ==> edits[i] == edits[..n][i];
      assert p !in EditPaths(edits) ==> edits[n].path != p;
    }
  }

  /**
   An accepted batch gives each of its paths, all editable, the one content it asks for and touches nothing
   else; it adds to the index the paths that it creates, none of which Git ignores.
   */
  lemma AcceptedEditsAreSeen(d: Disk, edits: seq<Edit>, editable: set<Path>, ignored: set<Path>)
    requires Acceptable(d, edits, editable, ignored)
    ensures var e := Edited(d, edits);
            && e.base == d.base && e.head == d.head
            && (forall i :: 0 <= i < |edits| ==>
                  edits[i].path in editable && At(e.work, edits[i].path) == Some(edits[i].content))
            && (forall p :: p !in EditPaths(edits) ==> At(e.work, p) == At(d.work, p))
            && (forall p :: p in e.manifest <==> p in d.manifest || p in EditPaths(edits))
            && (forall p :: p in e.tracked <==> p in d.tracked || (p in EditPaths(edits) && p !in d.work))
            && (forall p :: p in e.work && p !in d.work ==> p in editable && p !in ignored)
  {
    var e := Edited(d, edits);
    forall p
      ensures p !in EditPaths(edits) ==> At(e.work, p) == At(d.work, p)
      ensures forall i :: 0 <= i < |edits| && edits[i].path == p ==> At(e.work, p) == Some(edits[i].content)
    {
      WrittenAt(d.work, edits, p);
    }
    forall p | p in EditPaths(edits) && p !in d.work ensures p in NewPaths(d.work, edits) {
      var i :| 0 <= i < |edits| && edits[i].path == p;
    }
    forall p | p in e.work && p !in d.work ensures p in editable && p !in ignored {
      assert At(e.work, p) != At(d.work, p);
    }
  }

  // ----- commit -----

  predicate Committable(d: Disk) {
    && d.manifest != {}
    && (forall p :: p in d.manifest ==> p in d.work && p in d.tracked)
    && (exists p :: p in d.manifest && At(d.head, p) != At(d.work, p))
  }

  /** The tree of a commit of only the edited paths. */
  function CommitTree(d: Disk): Tree
    requires d.manifest <= d.work.Keys
  {
    map p | p in d.head.Keys + d.manifest :: if p in d.manifest then d.work[p] else d.head[p]
  }

  function Committed(d: Disk): Disk
    requires Committable(d)
  {
    d.(head := CommitTree(d), manifest := {})
  }

  /** A commit changes something; it takes exactly the edited paths, as they are, and leaves the files alone. */
  lemma CommitsTakeEdits(d: Disk)
    requires Committable(d)
    ensures var c := Committed(d);
            && c.head != d.head && c.manifest == {} && c.base == d.base && c.work == d.work && c.tracked == d.tracked
            && (forall p :: At(c.head, p) == At(if p in d.manifest then d.work else d.head, p))
            && (forall p :: p in d.manifest ==> p !in Candidate(c))
  {
    var p :| p in d.manifest && At(d.head, p) != At(d.work, p);
    assert At(Committed(d).head, p) == At(d.work, p);
  }

  class GitWorkspace {
    const base: Tree
    var head: Tree
    var work: Tree
    var tracked: set<Path>
    var manifest: set<Path>

    function Value(): Disk
      reads this
    {
      Disk(base, head, work, tracked, manifest)
    }

    /** `prepare_workspace`: a clean checkout of the source revision. */
    constructor (base: Tree, source: Tree)
      ensures Value() == Disk(base, source, source, source.Keys, {})
    {
      this.base := base;
      head, work, tracked, manifest := source, source, source.Keys, {};
    }

    /** A program that runs in the workspace may leave anything behind except another base commit. */
    method Overwrite(head: Tree, work: Tree, tracked: set<Path>, manifest: set<Path>)
      modifies this
      ensures Value() == Disk(base, head, work, tracked, manifest)
    {
      this.head, this.work, this.tracked, this.manifest := head, work, tracked, manifest;
    }

    method ApplyEdits(edits: seq<Edit>, editable: set<Path>, ignored: set<Path>) returns (ok: bool)
      modifies this
      ensures ok == Acceptable(old(Value()), edits, editable, ignored)
      ensures Value() == if ok then Edited(old(Value()), edits) else old(Value())
    {
      var seen: set<Path>, created: set<Path> := {}, {};
      for i := 0 to |edits|
        invariant seen == EditPaths(edits[..i]) && created == NewPaths(work, edits[..i])
        invariant Acceptable(Value(), edits[..i], editable, ignored)
        invariant unchanged(this)
      {
        var path := edits[i].path;
        if path in seen || path !in editable {
          assert path in seen ==> exists j :: 0 <= j < i && edits[j].path == path;
          return false;
        }
        seen := seen + {path};
        if path !in work {
          if path in ignored { return false; }
          created := created + {path};
        }
        assert edits[..i + 1] == edits[..i] + [edits[i]];
        EditPathsAppend(edits[..i], edits[i]);
        NewPathsAppend(work, edits[..i], edits[i]);
      }
      assert edits[..|edits|] == edits;
      manifest := manifest + seen;
      for i := 0 to |edits|
        invariant work == Written(old(work), edits[..i])
        invariant head == old(head) && tracked == old(tracked) && manifest == old(manifest) + seen
      {
        assert edits[..i + 1][..i] == edits[..i];
        work := work[edits[i].path := edits[i].content];
      }
      tracked := tracked + created;
      ok := true;
    }

    /** `commit`: refused unless every edited path exists, is known to Git, and some path changed. */
    method Commit() returns (ok: bool)
      modifies this
      ensures ok == Committable(old(Value()))
      ensures Value() == if ok then Committed(old(Value())) else old(Value())
    {
      if manifest == {} { return false; }
      if exists p :: p in manifest && (p !in work || p !in tracked) { return false; }
      if forall p :: p in manifest ==> At(head, p) == At(work, p) { return false; }
      head := CommitTree(Value());
      manifest := {};
      ok := true;
    }
  }

  lemma EditPathsAppend(edits: seq<Edit>, e: Edit)
    ensures EditPaths(edits + [e]) == EditPaths(edits) + {e.path}
  {
    var all := edits + [e];
    forall p
      ensures p in EditPaths(all) <==> p in EditPaths(edits) + {e.path}
    {
      if p in EditPaths(edits) {
        var i :| 0 <= i < |edits| && edits[i].path == p;
        assert all[i].path == p;
      }
      assert all[|edits|].path == e.path;
    }
  }

  lemma NewPathsAppend(work: Tree, edits: seq<Edit>, e: Edit)
    ensures NewPaths(work, edits + [e]) == NewPaths(work, edits) + (if e.path in work then {} else {e.path})
  {
    var all := edits + [e];
    forall p
      ensures p in NewPaths(work, all) <==> p in NewPaths(work, edits) || (p == e.path && p !in work)
    {
      if p in NewPaths(work, edits) {
        var i :| 0 <= i < |edits| && edits[i].path == p;
        assert all[i].path == p;
      }
      assert all[|edits|].path == e.path;
    }
  }
}
