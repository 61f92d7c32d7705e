/** runner/afa_runner/diffing.py: capturing the difference of two trees and applying it to a pristine copy. */
module Diffing {
  import opened Wrappers

  type Part = int
  type Path = seq<Part>
  type Text = int
  type Glob = int

  /** Text files by relative path. */
  type Tree = map<Path, Text>

  predicate StrictlyAbove(p: Path, q: Path) {
    |p| < |q| && p == q[..|p|]
  }

  /** No file lies beneath another file, and every path has a name. */
  ghost predicate ValidTree(t: Tree) {
    && [] !in t
    && forall p, q :: p in t && q in t ==> !StrictlyAbove(p, q)
  }

  // ---- Scope -----------------------------------------------------------------------------

  /** How a task's globs match, and which paths Python or pytest would execute on their own. */
  datatype Rules = Rules(matches: (Path, Glob) -> bool, auto: Path -> bool, protectedGlobs: seq<Glob>, editableGlobs: seq<Glob>)

  predicate ViolatesScope(rules: Rules, p: Path) {
    || (exists g :: g in rules.protectedGlobs && rules.matches(p, g))
    || rules.auto(p)
    || (rules.editableGlobs != [] && forall g :: g in rules.editableGlobs ==> !rules.matches(p, g))
  }

  // ---- Capture ---------------------------------------------------------------------------

  datatype Diff = Diff(changed: map<Path, Text>, deleted: set<Path>, filesChanged: nat, touchedProtected: bool)

  predicate Changed(snap: Tree, mod: Tree, p: Path) {
    p in mod && !(p in snap && snap[p] == mod[p])
  }

  predicate Deleted(snap: Tree, mod: Tree, p: Path) {
    p in snap && p !in mod
  }

  predicate Differs(snap: Tree, mod: Tree, p: Path) {
    Changed(snap, mod, p) || Deleted(snap, mod, p)
  }

  ghost predicate IsDiff(rules: Rules, snap: Tree, mod: Tree, d: Diff) {
    && (forall p :: p in d.changed <==> Changed(snap, mod, p)) && (forall p :: p in d.changed ==> d.changed[p] == mod[p])
    && (forall p :: p in d.deleted <==> Deleted(snap, mod, p))
    && (d.touchedProtected <==> exists p :: Differs(snap, mod, p) && ViolatesScope(rules, p))
    && d.filesChanged == |d.changed| + |d.deleted|
  }

  /** The first loop: written and rewritten paths, and whether one of them violates scope. */
  method CollectChanged(rules: Rules, snap: Tree, mod: Tree) returns (changed: map<Path, Text>, touched: bool)
    ensures forall p :: p in changed <==> Changed(snap, mod, p)
    ensures forall p :: p in changed ==> p in mod && changed[p] == mod[p]
    ensures touched <==> exists p :: p in changed && ViolatesScope(rules, p)
  {
    hide ViolatesScope;
    changed, touched := map[], false;
    var todo := mod.Keys;
    while todo != {}
      invariant todo <= mod.Keys
      invariant forall p :: p in changed <==> Changed(snap, mod, p) && p !in todo
      invariant forall p :: p in changed ==> changed[p] == mod[p]
      invariant touched <==> exists p :: p in changed && ViolatesScope(rules, p)
      decreases |todo|
    {
      var p :| p in todo;
      todo := todo - {p};
      if p in snap && snap[p] == mod[p] { continue; }
      changed := changed[p := mod[p]];
      if ViolatesScope(rules, p) { touched := true; }
    }
  }

  /** The second loop: deleted paths, and whether one of them violates scope. */
  method CollectDeleted(rules: Rules, snap: Tree, mod: Tree) returns (deleted: set<Path>, touched: bool)
    ensures forall p :: p in deleted <==> Deleted(snap, mod, p)
    ensures touched <==> exists p :: p in deleted && ViolatesScope(rules, p)
  {
    hide ViolatesScope;
    deleted, touched := {}, false;
    var todo := snap.Keys;
    while todo != {}
      invariant todo <= snap.Keys
      invariant forall p :: p in deleted <==> Deleted(snap, mod, p) && p !in todo
      invariant touched <==> exists p :: p in deleted && ViolatesScope(rules, p)
      decreases |todo|
    {
      var p :| p in todo;
      todo := todo - {p};
      if p in mod { continue; }
      deleted := deleted + {p};
      if ViolatesScope(rules, p) { touched := true; }
    }
  }

  method CaptureDiff(rules: Rules, snap: Tree, mod: Tree) returns (d: Diff)
    ensures IsDiff(rules, snap, mod, d)
    ensures Describes(rules, snap, mod, d)
  {
    hide Describes, ViolatesScope, Changed, Deleted;
    var changed, touchedByChange := CollectChanged(rules, snap, mod);
    var deleted, touchedByDeletion := CollectDeleted(rules, snap, mod);
    d := Diff(changed, deleted, |changed| + |deleted|, touchedByChange || touchedByDeletion);
    TouchedMeans(rules, snap, mod, d);
    DiffMeans(rules, snap, mod, d);
  }

  /** A protected path, one that would be executed on its own, or one outside what the task lets be edited. */
  ghost predicate OffLimits(rules: Rules, p: Path) {
    || (exists g :: g in rules.protectedGlobs && rules.matches(p, g))
    || rules.auto(p)
    || (|rules.editableGlobs| > 0 && forall g :: g in rules.editableGlobs ==> !rules.matches(p, g))
  }

  /** A captured difference path by path. */
  ghost predicate Describes(rules: Rules, snap: Tree, mod: Tree, d: Diff) {
    && (forall p :: p in d.changed <==> p in mod && (p in snap ==> mod[p] != snap[p]))
    && (forall p :: p in d.changed ==> d.changed[p] == mod[p])
    && (forall p :: p in d.deleted <==> p in snap && p !in mod)
    && d.filesChanged == |d.changed| + |d.deleted|
    && (d.touchedProtected <==> exists p :: (p in d.changed || p in d.deleted) && OffLimits(rules, p))
  }

  lemma DiffMeans(rules: Rules, snap: Tree, mod: Tree, d: Diff)
    requires IsDiff(rules, snap, mod, d)
    ensures Describes(rules, snap, mod, d)
  {
    forall p ensures Differs(snap, mod, p) <==> p in d.changed || p in d.deleted {}
    forall p ensures OffLimits(rules, p) <==> ViolatesScope(rules, p) {}
  }

  lemma TouchedMeans(rules: Rules, snap: Tree, mod: Tree, d: Diff)
    requires forall p :: p in d.changed <==> Changed(snap, mod, p)
    requires forall p :: p in d.deleted <==> Deleted(snap, mod, p)
    ensures (exists p :: p in d.changed && ViolatesScope(rules, p)) || (exists p :: p in d.deleted && ViolatesScope(rules, p))
            <==> exists p :: Differs(snap, mod, p) && ViolatesScope(rules, p)
  {
    if p :| Differs(snap, mod, p) && ViolatesScope(rules, p) {
      assert p in d.changed || p in d.deleted;
    }
    if p :| p in d.changed && ViolatesScope(rules, p) { assert Differs(snap, mod, p); }
    if p :| p in d.deleted && ViolatesScope(rules, p) { assert Differs(snap, mod, p); }
  }

  /** The diff is empty exactly when nothing changed. */
  lemma EmptyIffUnchanged(rules: Rules, snap: Tree, mod: Tree, d: Diff)
    requires IsDiff(rules, snap, mod, d)
    ensures d.filesChanged == 0 <==> snap == mod
    ensures snap == mod ==> !d.touchedProtected
  {
    if d.filesChanged == 0 {
      assert d.changed == map[] && d.deleted == {};
      forall p ensures p in snap <==> p in mod {
        assert !Deleted(snap, mod, p) && !Changed(snap, mod, p);
      }
      forall p | p in mod ensures snap[p] == mod[p] { assert !Changed(snap, mod, p); }
      assert snap == mod;
    }
    if snap == mod {
      assert forall p :: !Changed(snap, mod, p) && !Deleted(snap, mod, p);
      assert d.changed.Keys == {};
      assert d.deleted == {};
    }
  }

  // ---- The clean room --------------------------------------------------------------------

  /** A directory tree that is changed in place. */
  class Workspace {
    var files: Tree
    var dirs: set<Path>

    /** The root is a directory, every file has its directories, and no path is both. */
    ghost predicate Valid()
      reads this
    {
      && [] in dirs
      && (forall p :: p in files ==> p !in dirs)
      && (forall p, q :: p in files && StrictlyAbove(q, p) ==> q in dirs)
      && (forall p, q :: p in dirs && StrictlyAbove(q, p) ==> q in dirs)
    }

    constructor (tree: Tree)
      requires ValidTree(tree)
      ensures Valid() && files == tree
      ensures forall p :: p in dirs <==> p == [] || exists q :: q in tree && StrictlyAbove(p, q)
    {
      files := tree;
      dirs := {[]} + set q, n | q in tree && 0 <= n < |q| :: q[..n];
      new;
      forall p ensures p in dirs <==> p == [] || exists q :: q in tree && StrictlyAbove(p, q) {
        if q :| q in tree && StrictlyAbove(p, q) { assert p == q[..|p|]; }
        if p in dirs && p != [] {
          var q, n :| q in tree && 0 <= n < |q| && p == q[..n];
          assert StrictlyAbove(p, q);
        }
      }
      forall p, q | p in dirs && StrictlyAbove(q, p) ensures q in dirs {
        assert p != [];
        var r :| r in tree && StrictlyAbove(p, r);
        assert StrictlyAbove(q, r);
      }
    }

    /** mkdir(parents=True, exist_ok=True) on the parent, then write_text: fails where a parent is a file or p a directory. */
    method Write(p: Path, text: Text) returns (ok: bool)
      requires Valid()
      modifies this
      ensures Valid() && ok == WritableIn(old(files), old(dirs), p)
      ensures ok ==> files == old(files)[p := text]
      ensures ok ==> forall q :: q in dirs <==> q in old(dirs) || StrictlyAbove(q, p)
      ensures !ok ==> files == old(files) && dirs == old(dirs)
    {
      ok := p !in dirs && forall n | 0 <= n < |p| :: p[..n] !in files;
      assert ok == WritableIn(files, dirs, p) by {
        forall q | StrictlyAbove(q, p) && q in files ensures !ok { assert q == p[..|q|]; }
        forall n | 0 <= n < |p| && p[..n] in files ensures !WritableIn(files, dirs, p) { assert StrictlyAbove(p[..n], p); }
      }
      if ok {
        var parents := set n | 0 <= n < |p| :: p[..n];
        forall q ensures q in parents <==> StrictlyAbove(q, p) {
          if StrictlyAbove(q, p) { assert q == p[..|q|]; }
        }
        files, dirs := files[p := text], dirs + parents;
        forall a, b | a in dirs && StrictlyAbove(b, a) ensures b in dirs {
          if a in parents { assert StrictlyAbove(b, p); }
        }
      }
    }

    /** exists() then unlink(): a missing path is skipped, a directory cannot be unlinked. */
    method Remove(p: Path) returns (ok: bool)
      requires Valid()
      modifies this
      ensures Valid() && dirs == old(dirs) && ok == (p !in old(dirs))
      ensures ok ==> files == old(files) - {p}
      ensures !ok ==> files == old(files)
    {
      ok := p !in dirs;
      if ok { files := files - {p}; }
    }
  }

  /** The written directories: those there were, and the parents of what has been written. */
  ghost predicate DirsAre(rules: Rules, d: Diff, startDirs: set<Path>, todo: set<Path>, dirs: set<Path>) {
    forall q :: q in dirs <==> q in startDirs || ParentOfWritten(rules, d, todo, q)
  }

  ghost predicate ParentOfWritten(rules: Rules, d: Diff, todo: set<Path>, q: Path) {
    exists p :: p in d.changed && p !in todo && !rules.auto(p) && StrictlyAbove(q, p)
  }

  predicate Apart(p: Path, q: Path) {
    !StrictlyAbove(p, q) && !StrictlyAbove(q, p)
  }

  /** This changed path lies neither above nor beneath one written already. */
  ghost predicate ApartFromWritten(rules: Rules, d: Diff, todo: set<Path>, p: Path) {
    forall q :: q in d.changed && q !in todo && !rules.auto(q) ==> Apart(p, q)
  }

  /** Where the first loop is, with the paths in todo still to be written. */
  ghost predicate WriteState(rules: Rules, d: Diff, start: Tree, startDirs: set<Path>, todo: set<Path>, files: Tree, dirs: set<Path>) {
    files == start + Kept(rules, d.changed, d.changed.Keys - todo) && DirsAre(rules, d, startDirs, todo, dirs)
  }

  ghost predicate WritableIn(files: Tree, dirs: set<Path>, p: Path) {
    p !in dirs && forall q :: StrictlyAbove(q, p) ==> q !in files
  }

  /** One changed path: skipped if always-protected, else written. */
  method WriteOne(rules: Rules, d: Diff, target: Workspace, p: Path, ghost start: Tree, ghost startDirs: set<Path>, ghost todo: set<Path>)
    returns (ok: bool)
    requires target.Valid() && p in todo && todo <= d.changed.Keys
    requires WriteState(rules, d, start, startDirs, todo, target.files, target.dirs)
    modifies target
    ensures target.Valid() && ok == (rules.auto(p) || (WritableIn(start, startDirs, p) && ApartFromWritten(rules, d, todo, p)))
    ensures ok ==> WriteState(rules, d, start, startDirs, todo - {p}, target.files, target.dirs)
  {
    hide WriteState, WritableIn, ApartFromWritten, DirsAre;
    ghost var files, dirs := target.files, target.dirs;
    ok := true;
    if !rules.auto(p) {
      WritableNow(rules, d, start, startDirs, files, dirs, todo, p);
      ok := target.Write(p, d.changed[p]);
    }
    if ok { WriteNext(rules, d, start, startDirs, todo, files, dirs, p, target.files, target.dirs); }
  }

  lemma WriteNext(rules: Rules, d: Diff, start: Tree, startDirs: set<Path>, todo: set<Path>, files: Tree, dirs: set<Path>, p: Path,
                  files': Tree, dirs': set<Path>)
    requires p in todo && todo <= d.changed.Keys && WriteState(rules, d, start, startDirs, todo, files, dirs)
    requires files' == if rules.auto(p) then files else files[p := d.changed[p]]
    requires forall q :: q in dirs' <==> q in dirs || (!rules.auto(p) && StrictlyAbove(q, p))
    ensures WriteState(rules, d, start, startDirs, todo - {p}, files', dirs')
  {
    KeptNext(rules, d.changed, d.changed.Keys - todo, p);
    assert d.changed.Keys - (todo - {p}) == (d.changed.Keys - todo) + {p};
    DirsNext(rules, d, startDirs, todo, dirs, p, dirs');
    hide DirsAre, Kept;
  }

  /** Each carried change can be written into these files, and none lies above another. */
  ghost predicate AllWritable(rules: Rules, d: Diff, files: Tree, dirs: set<Path>) {
    && (forall p :: p in d.changed && !rules.auto(p) ==> WritableIn(files, dirs, p))
    && (forall p, q :: p in d.changed && q in d.changed && !rules.auto(p) && !rules.auto(q) ==> Apart(p, q))
  }

  /** The first loop of apply_diff: whatever the order, it fails exactly when some write cannot be made. */
  method WriteChanged(rules: Rules, d: Diff, target: Workspace) returns (ok: bool)
    requires target.Valid()
    modifies target
    ensures target.Valid()
    ensures ok <==> AllWritable(rules, d, old(target.files), old(target.dirs))
    ensures ok ==> target.files == old(target.files) + Kept(rules, d.changed, d.changed.Keys)
    ensures ok ==> DirsAre(rules, d, old(target.dirs), {}, target.dirs)
  {
    ghost var start, startDirs := target.files, target.dirs;
    var todo := d.changed.Keys;
    WriteStart(rules, d, start, startDirs);
    while todo != {}
      invariant todo <= d.changed.Keys && target.Valid()
      invariant WritesMade(rules, d, start, startDirs, todo)
      invariant WriteState(rules, d, start, startDirs, todo, target.files, target.dirs)
      decreases |todo|
    {
      hide WriteState, WritesMade, AllWritable;
      var p :| p in todo;
      WritesNext(rules, d, start, startDirs, todo, p);
      ok := WriteOne(rules, d, target, p, start, startDirs, todo);
      if !ok { return; }
      todo := todo - {p};
    }
    assert d.changed.Keys - {} == d.changed.Keys;
    return true;
  }

  /** The changes outside todo could be written, one after the other. */
  ghost predicate WritesMade(rules: Rules, d: Diff, start: Tree, startDirs: set<Path>, todo: set<Path>) {
    forall p :: p in d.changed && !rules.auto(p) && p !in todo ==>
      WritableIn(start, startDirs, p) && ApartFromWritten(rules, d, todo, p)
  }

  lemma WritesNext(rules: Rules, d: Diff, start: Tree, startDirs: set<Path>, todo: set<Path>, p: Path)
    requires WritesMade(rules, d, start, startDirs, todo) && p in todo && p in d.changed
    ensures rules.auto(p) || (WritableIn(start, startDirs, p) && ApartFromWritten(rules, d, todo, p)) ==>
              WritesMade(rules, d, start, startDirs, todo - {p})
    ensures AllWritable(rules, d, start, startDirs) ==>
              rules.auto(p) || (WritableIn(start, startDirs, p) && ApartFromWritten(rules, d, todo, p))
  {
    hide WritableIn;
  }

  lemma WriteStart(rules: Rules, d: Diff, start: Tree, startDirs: set<Path>)
    ensures WriteState(rules, d, start, startDirs, d.changed.Keys, start, startDirs)
  {
    assert d.changed.Keys - d.changed.Keys == {};
    assert start + Kept(rules, d.changed, {}) == start;
  }

  lemma DirsNext(rules: Rules, d: Diff, startDirs: set<Path>, todo: set<Path>, dirs: set<Path>, p: Path, after: set<Path>)
    requires DirsAre(rules, d, startDirs, todo, dirs) && p in todo && p in d.changed
    requires forall q :: q in after <==> q in dirs || (!rules.auto(p) && StrictlyAbove(q, p))
    ensures DirsAre(rules, d, startDirs, todo - {p}, after)
  {
    forall q ensures ParentOfWritten(rules, d, todo - {p}, q) <==>
      ParentOfWritten(rules, d, todo, q) || (!rules.auto(p) && StrictlyAbove(q, p))
    {
      if ParentOfWritten(rules, d, todo - {p}, q) {
        var r :| r in d.changed && r !in todo - {p} && !rules.auto(r) && StrictlyAbove(q, r);
        assert r == p || r !in todo;
      }
      if ParentOfWritten(rules, d, todo, q) {
        var r :| r in d.changed && r !in todo && !rules.auto(r) && StrictlyAbove(q, r);
        assert r !in todo - {p};
      }
      if !rules.auto(p) && StrictlyAbove(q, p) { assert p !in todo - {p}; }
    }
  }

  /** The second loop of apply_diff: a missing path is skipped, a directory in a file's place makes it fail. */
  method RemoveDeleted(rules: Rules, deleted: set<Path>, target: Workspace) returns (ok: bool)
    requires target.Valid()
    modifies target
    ensures target.Valid()
    ensures ok <==> forall p :: p in deleted && !rules.auto(p) ==> p !in old(target.dirs)
    ensures ok ==> target.files == map p | p in old(target.files) && (p !in deleted || rules.auto(p)) :: old(target.files)[p]
  {
    ghost var before := target.files;
    var todo := deleted;
    while todo != {}
      invariant todo <= deleted && target.Valid() && target.dirs == old(target.dirs)
      invariant forall p :: p in deleted - todo && !rules.auto(p) ==> p !in target.dirs
      invariant target.files == map p | p in before && (p !in deleted - todo || rules.auto(p)) :: before[p]
      decreases |todo|
    {
      var p :| p in todo;
      if !rules.auto(p) {
        ok := target.Remove(p);
        if !ok { return; }
      }
      todo := todo - {p};
    }
    return true;
  }

  /** Each carried deletion meets no directory, neither one of these nor a parent made for a written path. */
  ghost predicate AllRemovable(rules: Rules, d: Diff, dirs: set<Path>) {
    forall p :: p in d.deleted && !rules.auto(p) ==>
      p !in dirs && forall q :: q in d.changed && !rules.auto(q) ==> !StrictlyAbove(p, q)
  }

  /** apply_diff: writes, then deletions; always-protected paths are skipped. For any diff, captured or not. */
  method ApplyDiff(rules: Rules, d: Diff, target: Workspace) returns (ok: bool)
    requires target.Valid()
    modifies target
    ensures target.Valid()
    ensures ok <==> AllWritable(rules, d, old(target.files), old(target.dirs)) && AllRemovable(rules, d, old(target.dirs))
    ensures ok ==> target.files == Applied(rules, d, old(target.files))
  {
    hide AllWritable, AllRemovable, DirsAre, Applied, Kept;
    ghost var start, startDirs := target.files, target.dirs;
    ok := WriteChanged(rules, d, target);
    if ok {
      RemovableNow(rules, d, startDirs, target.dirs);
      AppliedIs(rules, d, start);
      ok := RemoveDeleted(rules, d.deleted, target);
    }
  }

  lemma AppliedIs(rules: Rules, d: Diff, start: Tree)
    ensures var written := start + Kept(rules, d.changed, d.changed.Keys);
      Applied(rules, d, start) == map p | p in written && (p !in d.deleted || rules.auto(p)) :: written[p]
  {
  }

  lemma RemovableNow(rules: Rules, d: Diff, startDirs: set<Path>, dirs: set<Path>)
    requires DirsAre(rules, d, startDirs, {}, dirs)
    ensures AllRemovable(rules, d, startDirs) <==> forall p :: p in d.deleted && !rules.auto(p) ==> p !in dirs
  {
    forall p ensures p !in dirs <==> p !in startDirs && forall q :: q in d.changed && !rules.auto(q) ==> !StrictlyAbove(p, q) {
      assert ParentOfWritten(rules, d, {}, p) <==> exists q :: q in d.changed && !rules.auto(q) && StrictlyAbove(p, q);
    }
  }

  /** The changes that are carried over, of those at these paths. */
  function Kept(rules: Rules, changed: map<Path, Text>, paths: set<Path>): map<Path, Text> {
    map p | p in changed && p in paths && !rules.auto(p) :: changed[p]
  }

  lemma KeptNext(rules: Rules, changed: map<Path, Text>, paths: set<Path>, p: Path)
    requires p in changed
    ensures Kept(rules, changed, paths + {p}) == if rules.auto(p) then Kept(rules, changed, paths) else Kept(rules, changed, paths)[p := changed[p]]
  {
    var next := if rules.auto(p) then Kept(rules, changed, paths) else Kept(rules, changed, paths)[p := changed[p]];
    assert Kept(rules, changed, paths + {p}) == next;
  }

  /** The files after an application: changes written, deletions removed, always-protected paths as they were. */
  function Applied(rules: Rules, d: Diff, files: Tree): Tree {
    map p | p in files.Keys + d.changed.Keys && (if rules.auto(p) then p in files else p !in d.deleted)
      :: if p in d.changed && !rules.auto(p) then d.changed[p] else files[p]
  }

  /** What has been written stands in the way of exactly the paths above and beneath it. */
  lemma WritableNow(rules: Rules, d: Diff, start: Tree, startDirs: set<Path>, files: Tree, dirs: set<Path>, todo: set<Path>, p: Path)
    requires p in d.changed && p in todo && WriteState(rules, d, start, startDirs, todo, files, dirs)
    ensures WritableIn(files, dirs, p) <==> WritableIn(start, startDirs, p) && ApartFromWritten(rules, d, todo, p)
  {
    assert p in dirs <==> p in startDirs || ParentOfWritten(rules, d, todo, p);
    forall q ensures q in files <==> q in start || (q in d.changed && q !in todo && !rules.auto(q)) {}
  }

  // ---- Round trip ------------------------------------------------------------------------

  predicate CollidesWith(snap: Tree, mod: Tree, p: Path, q: Path) {
    Deleted(snap, mod, q) && (StrictlyAbove(q, p) || StrictlyAbove(p, q))
  }

  /** The written path lies strictly above or beneath a deleted path of the snapshot. */
  ghost predicate Collides(snap: Tree, mod: Tree, p: Path) {
    exists q :: CollidesWith(snap, mod, p, q)
  }

  /** What lies above or beneath a file of the modified tree is not in it: such a snapshot path was deleted. */
  lemma CollidingPathsWereDeleted(snap: Tree, mod: Tree, p: Path)
    requires ValidTree(mod) && p in mod
    ensures Collides(snap, mod, p) <==> exists q :: q in snap && (StrictlyAbove(q, p) || StrictlyAbove(p, q))
  {
    forall q | q in snap && (StrictlyAbove(q, p) || StrictlyAbove(p, q)) ensures CollidesWith(snap, mod, p, q) {}
  }

  /** Captures the difference and applies it to a fresh copy of the snapshot: it fails exactly when a path to be written lies
      strictly above or beneath a (deleted) snapshot path, since writes come before deletions; otherwise the copy holds the
      modified tree's content at every path that is not always-protected, and the snapshot's at those that are. A difference
      the scope gate lets pass is reproduced exactly. */
  method RoundTrip(rules: Rules, snap: Tree, mod: Tree) returns (ok: bool, result: Tree, touchedProtected: bool)
    requires ValidTree(snap) && ValidTree(mod)
    ensures ok <==> forall p :: Changed(snap, mod, p) && !rules.auto(p) ==> !Collides(snap, mod, p)
    ensures ok ==> forall p :: !rules.auto(p) ==> (p in result <==> p in mod) && (p in mod ==> result[p] == mod[p])
    ensures ok ==> forall p :: rules.auto(p) ==> (p in result <==> p in snap) && (p in snap ==> result[p] == snap[p])
    ensures ok && (forall p :: Differs(snap, mod, p) ==> !rules.auto(p)) ==> result == mod
    ensures touchedProtected <==> exists p :: Differs(snap, mod, p) && ViolatesScope(rules, p)
    ensures ok && !touchedProtected ==> result == mod
  {
    var d := CaptureDiff(rules, snap, mod);
    touchedProtected := d.touchedProtected;
    var copy := new Workspace(snap);
    AppliesUnlessColliding(rules, snap, mod, d, copy.files, copy.dirs);
    hide AllWritable, AllRemovable, Collides;
    ok := ApplyDiff(rules, d, copy);
    result := copy.files;
    if ok { AppliedContent(rules, snap, mod, d); }
    assert forall p :: Differs(snap, mod, p) && rules.auto(p) ==> ViolatesScope(rules, p);
  }

  lemma AppliesUnlessColliding(rules: Rules, snap: Tree, mod: Tree, d: Diff, files: Tree, dirs: set<Path>)
    requires ValidTree(snap) && ValidTree(mod) && IsDiff(rules, snap, mod, d) && files == snap
    requires forall p :: p in dirs <==> p == [] || exists q :: q in snap && StrictlyAbove(p, q)
    ensures AllWritable(rules, d, files, dirs) && AllRemovable(rules, d, dirs)
            <==> forall p :: Changed(snap, mod, p) && !rules.auto(p) ==> !Collides(snap, mod, p)
  {
    forall p | p in d.changed ensures WritableIn(files, dirs, p) <==> !Collides(snap, mod, p) {
      CollidingPathsWereDeleted(snap, mod, p);
      assert p in dirs <==> exists q :: q in snap && StrictlyAbove(p, q);
    }
    hide CollidesWith;
    if forall p :: p in d.changed && !rules.auto(p) ==> WritableIn(files, dirs, p) {
      forall p, q | p in d.deleted && !rules.auto(p) && q in d.changed && !rules.auto(q) ensures !StrictlyAbove(p, q) {
        assert WritableIn(files, dirs, q) && p in files;
      }
    }
  }

  /** A file replaced by a directory of the same name: the new file is written while the old one is still in its parent's place. */
  lemma FileReplacedByDirectory(rules: Rules) returns (snap: Tree, mod: Tree)
    requires !rules.auto([1, 2])
    ensures ValidTree(snap) && ValidTree(mod)
    ensures exists p :: Changed(snap, mod, p) && !rules.auto(p) && Collides(snap, mod, p)
  {
    var file, inner: Path := [1], [1, 2];
    snap, mod := map[file := 7], map[inner := 7];
    assert StrictlyAbove(file, inner) && Deleted(snap, mod, file);
    assert CollidesWith(snap, mod, inner, file) && Changed(snap, mod, inner);
  }

  lemma AppliedContent(rules: Rules, snap: Tree, mod: Tree, d: Diff)
    requires IsDiff(rules, snap, mod, d)
    ensures var result := Applied(rules, d, snap);
      && (forall p :: !rules.auto(p) ==> (p in result <==> p in mod) && (p in mod ==> result[p] == mod[p]))
      && (forall p :: rules.auto(p) ==> (p in result <==> p in snap) && (p in snap ==> result[p] == snap[p]))
      && ((forall p :: Differs(snap, mod, p) ==> !rules.auto(p)) ==> result == mod)
  {
    var result := Applied(rules, d, snap);
    forall p ensures rules.auto(p) ==> (p in result <==> p in snap) && (p in snap ==> result[p] == snap[p])
             ensures !rules.auto(p) ==> (p in result <==> p in mod) && (p in mod ==> result[p] == mod[p])
    {
      AppliedAt(rules, snap, mod, d, p);
    }
    if forall p :: Differs(snap, mod, p) ==> !rules.auto(p) {
      forall p ensures (p in result <==> p in mod) && (p in mod ==> result[p] == mod[p]) {
        if rules.auto(p) { assert !Differs(snap, mod, p); }
      }
      assert result == mod;
    }
  }

  lemma AppliedAt(rules: Rules, snap: Tree, mod: Tree, d: Diff, p: Path)
    requires IsDiff(rules, snap, mod, d)
    ensures var result := Applied(rules, d, snap);
      && (!rules.auto(p) ==> (p in result <==> p in mod) && (p in mod ==> result[p] == mod[p]))
      && (rules.auto(p) ==> (p in result <==> p in snap) && (p in snap ==> result[p] == snap[p]))
  {
    assert p in d.changed <==> Changed(snap, mod, p);
    assert p in d.deleted <==> Deleted(snap, mod, p);
  }
}
