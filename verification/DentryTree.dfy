/**
 The file system tree and its lookups (src/libltfs/fs.c). Every dentry counts the handles to it, and
 its two locks count the holders; the lookups change these in place, one directory at a time.
 */
module DentryTree {
  import opened Bytes
  import opened Paths

  class Dentry {
    /** Platform_safe_name; the root has none. */
    var name: Option<seq<byte>>
    var parent: Dentry?
    var children: map<seq<byte>, Dentry>
    var deleted: bool
    var outOfSync: bool
    /** Numhandles, and the holders of contents_lock and meta_lock. */
    var held: Ledger
  }

  // ---- The shape of the tree ----

  /** Which dentry is linked where, and under which name. */
  datatype Shape = Shape(
    root: Dentry, children: map<Dentry, map<seq<byte>, Dentry>>,
    parent: map<Dentry, Dentry>, name: map<Dentry, seq<byte>>, depth: map<Dentry, nat>)

  ghost predicate NameOk(n: seq<byte>) {
    n != [] && SlashFree(n) && Points(n) <= FILENAME_MAX
  }

  /** `d` is the child `n` of `p`. */
  ghost predicate Edge(t: Shape, p: Dentry, n: seq<byte>, d: Dentry) {
    && p in t.children && n in t.children[p] && t.children[p][n] == d && NameOk(n)
    && d in t.children && d in t.parent && t.parent[d] == p && d in t.name && t.name[d] == n
    && p in t.depth && d in t.depth && t.depth[d] == t.depth[p] + 1
  }

  /** What `p` has under the name `n`, if anything, is its child. */
  ghost predicate Hangs(t: Shape, p: Dentry, n: seq<byte>) {
    p in t.children && n in t.children[p] ==> Edge(t, p, n, t.children[p][n])
  }

  /** `d` is the child of one parent under one name. */
  ghost predicate Placed(t: Shape, d: Dentry) {
    d in t.parent && d in t.name && Edge(t, t.parent[d], t.name[d], d)
  }

  /** Every dentry but the root has its place; names are fit for a path. */
  ghost predicate Tree(t: Shape) {
    && t.root in t.children && t.root !in t.parent && t.root !in t.name
    && (forall p, n {:trigger Hangs(t, p, n)} :: p in t.children ==> Hangs(t, p, n))
    && (forall d {:trigger Placed(t, d)} :: d in t.children && d != t.root ==> Placed(t, d))
  }

  /** The dentries in memory have this shape. */
  ghost predicate InMemory(t: Shape)
    reads t.children.Keys`children, t.children.Keys`parent, t.children.Keys`name
  {
    forall d :: d in t.children ==>
      && d.children == t.children[d]
      && d.parent == (if d in t.parent then t.parent[d] else null)
      && d.name == (if d in t.name then Some(t.name[d]) else None)
  }

  // ---- What the lookups compute ----

  datatype Outcome = Found(dentry: Dentry) | NoDentry | TooLong

  /** Looking for a name in one directory. */
  function Look(children: map<seq<byte>, Dentry>, name: seq<byte>): Outcome {
    if Points(name) > FILENAME_MAX then TooLong
    else if name in children then Found(children[name]) else NoDentry
  }

  /** Following names down from `d`. */
  ghost function Walk(t: Shape, d: Dentry, names: seq<seq<byte>>): (r: Outcome) {
    if names == [] then Found(d)
    else if d !in t.children then NoDentry
    else
      var r := Look(t.children[d], names[0]);
      if r.Found? then Walk(t, r.dentry, names[1..]) else r
  }

  /** The names on the way from the root to `d`. */
  ghost function Names(t: Shape, d: Dentry): seq<seq<byte>>
    requires Tree(t) && d in t.children
    decreases if d in t.depth then t.depth[d] else 0
  {
    if d == t.root then []
    else
      assert Placed(t, d);
      Names(t, t.parent[d]) + [t.name[d]]
  }

  /** What fs_path_lookup walks: nothing for the root, else all that follows the first character. */
  function Components(path: seq<byte>): seq<seq<byte>> {
    if path == [] || path == [SLASH] then [] else Split(path[1..])
  }

  function PathText(names: seq<seq<byte>>): seq<byte> {
    [SLASH] + if names == [] then [] else Join(names)
  }

  // ---- Path and dentry lookups undo each other ----

  lemma {:induction false} WalkConcat(t: Shape, d: Dentry, a: seq<seq<byte>>, b: seq<seq<byte>>)
    ensures Walk(t, d, a + b) ==
      var r := Walk(t, d, a);
      if r.Found? then Walk(t, r.dentry, b) else r
    decreases |a|
  {
    if a == [] {
      assert a + b == b;
    } else {
      assert (a + b)[1..] == a[1..] + b;
      if d in t.children && Look(t.children[d], a[0]).Found? {
        WalkConcat(t, Look(t.children[d], a[0]).dentry, a[1..], b);
      }
    }
  }

  /** One step of a walk. */
  lemma WalkOne(t: Shape, d: Dentry, n: seq<byte>)
    ensures Walk(t, d, [n]) == if d in t.children then Look(t.children[d], n) else NoDentry
  {
    assert [n][1..] == [];
  }

  /** Walking down the names of `d` finds `d`. */
  lemma {:induction false} NamesLeadBack(t: Shape, d: Dentry)
    requires Tree(t) && d in t.children
    ensures Walk(t, t.root, Names(t, d)) == Found(d)
    ensures forall i :: 0 <= i < |Names(t, d)| ==> Names(t, d)[i] != [] && SlashFree(Names(t, d)[i])
    decreases if d in t.depth then t.depth[d] else 0
  {
    if d != t.root {
      assert Placed(t, d);
      NamesLeadBack(t, t.parent[d]);
      WalkConcat(t, t.root, Names(t, t.parent[d]), [t.name[d]]);
      WalkOne(t, t.parent[d], t.name[d]);
    }
  }

  /** Whatever a walk finds has the names that were walked. */
  lemma {:induction false} WalkTakesNames(t: Shape, names: seq<seq<byte>>)
    requires Tree(t) && Walk(t, t.root, names).Found?
    ensures Walk(t, t.root, names).dentry in t.children
    ensures Names(t, Walk(t, t.root, names).dentry) == names
    decreases |names|
  {
    if names != [] {
      var n: seq<byte> := names[|names| - 1];
      var front := names[..|names| - 1];
      assert names == front + [n];
      WalkConcat(t, t.root, front, [n]);
      WalkTakesNames(t, front);
      var p := Walk(t, t.root, front).dentry;
      WalkOne(t, p, n);
      assert Hangs(t, p, n);
    }
  }

  /** The path that is built for a dentry leads back to it. */
  lemma PathOfDentryFindsIt(t: Shape, d: Dentry)
    requires Tree(t) && d in t.children
    ensures Walk(t, t.root, Components(PathText(Names(t, d)))) == Found(d)
  {
    var names := Names(t, d);
    NamesLeadBack(t, d);
    if names != [] {
      SplitJoin(names);
      assert Join(names) != [] by {
        assert names[0] != [];
      }
      assert PathText(names)[1..] == Join(names);
    }
  }

  /** The path that is built for what a path leads to is that path, but for its first character. */
  lemma DentryOfPathHasIt(t: Shape, path: seq<byte>)
    requires Tree(t) && Walk(t, t.root, Components(path)).Found?
    ensures Walk(t, t.root, Components(path)).dentry in t.children
    ensures PathText(Names(t, Walk(t, t.root, Components(path)).dentry))
         == if path == [] then [SLASH] else [SLASH] + path[1..]
  {
    WalkTakesNames(t, Components(path));
    if path != [] && path != [SLASH] {
      JoinSplit(path[1..]);
    }
  }

  // ---- Handles and locks ----

  datatype Flags = Flags(
    parentContentsR: bool, parentContentsW: bool, parentMetaR: bool, parentMetaW: bool,
    dentryContentsR: bool, dentryContentsW: bool, dentryMetaR: bool, dentryMetaW: bool)
  {
    predicate AnyParent() {
      parentContentsW || parentContentsR || parentMetaW || parentMetaR
    }
  }

  /** The handles to a dentry and the holders of its locks. */
  datatype Ledger = Ledger(handles: int, contentsR: int, contentsW: int, metaR: int, metaW: int)
  {
    function Plus(handles: int, contentsR: int, contentsW: int, metaR: int, metaW: int): Ledger {
      Ledger(this.handles + handles, this.contentsR + contentsR, this.contentsW + contentsW,
             this.metaR + metaR, this.metaW + metaW)
    }
  }

  /** The ledgers of all dentries. */
  ghost function Book(nodes: set<Dentry>): map<Dentry, Ledger>
    reads nodes`held
  {
    map x | x in nodes :: x.held
  }

  /** What a dentry gains by a lookup that found it, or its child, or neither. */
  function Kept(a: Ledger, target: bool, parent: bool, f: Flags): Ledger {
    a.Plus(One(target) + One(parent && f.AnyParent()),
           One(parent && f.parentContentsR && !f.parentContentsW)
             + One(target && f.dentryContentsR && !f.dentryContentsW),
           One(parent && f.parentContentsW) + One(target && f.dentryContentsW),
           One(parent && f.parentMetaR && !f.parentMetaW) + One(target && f.dentryMetaR && !f.dentryMetaW),
           One(parent && f.parentMetaW) + One(target && f.dentryMetaW))
  }

  /** No dentry is locked twice over: a lock for writing that is asked for takes the place of one for reading. */
  lemma LockedOnce(a: Ledger, f: Flags)
    ensures var t := Kept(a, true, false, f);
      && t.handles == a.handles + 1
      && t.contentsR + t.contentsW - a.contentsR - a.contentsW == One(f.dentryContentsR || f.dentryContentsW)
      && (t.contentsW > a.contentsW <==> f.dentryContentsW) && t.contentsR >= a.contentsR
      && t.metaR + t.metaW - a.metaR - a.metaW == One(f.dentryMetaR || f.dentryMetaW)
      && (t.metaW > a.metaW <==> f.dentryMetaW) && t.metaR >= a.metaR
    ensures var t := Kept(a, false, true, f);
      && t.handles == a.handles + One(t != a)
      && t.contentsR + t.contentsW - a.contentsR - a.contentsW == One(f.parentContentsR || f.parentContentsW)
      && (t.contentsW > a.contentsW <==> f.parentContentsW) && t.contentsR >= a.contentsR
      && t.metaR + t.metaW - a.metaR - a.metaW == One(f.parentMetaR || f.parentMetaW)
      && (t.metaW > a.metaW <==> f.parentMetaW) && t.metaR >= a.metaR
    ensures Kept(a, false, false, f) == a
  {
  }

  /** A successful lookup of `d` under `p`: one handle to `d`, one to `p` if a lock on it was asked for, those locks. */
  ghost predicate AllKept(b: map<Dentry, Ledger>, b': map<Dentry, Ledger>, d: Dentry, p: Dentry?, f: Flags) {
    b'.Keys == b.Keys && forall x :: x in b ==> b'[x] == Kept(b[x], x == d, x == p, f)
  }

  /** After the loop: the target has its handle, and its parent is locked, and kept if asked for. */
  function Arrived(a: Ledger, target: bool, parent: bool, f: Flags): Ledger {
    a.Plus(One(target) + One(parent && f.AnyParent()), One(parent && !f.parentContentsW),
           One(parent && f.parentContentsW), 0, 0)
  }

  ghost predicate AllArrived(b: map<Dentry, Ledger>, b': map<Dentry, Ledger>, d: Dentry, p: Dentry?, f: Flags) {
    b'.Keys == b.Keys && forall x :: x in b ==> b'[x] == Arrived(b[x], x == d, x == p, f)
  }

  /** At the head of the loop: a handle to the directory, and the one above it locked. */
  ghost predicate AllUnderway(b: map<Dentry, Ledger>, b': map<Dentry, Ledger>, d: Dentry, p: Dentry?) {
    b'.Keys == b.Keys && forall x :: x in b ==> b'[x] == b[x].Plus(One(x == d), One(x == p), 0, 0, 0)
  }

  /** What one turn of the loop changes. */
  function Turned(a: Ledger, isDir: bool, isAbove: bool, isFound: bool, found: bool, write: bool, keep: bool): Ledger {
    a.Plus(One(isFound) - One(isDir && !(found && keep)), One(isDir && found && !write) - One(isAbove),
           One(isDir && found && write), 0, 0)
  }

  ghost predicate AllTurned(b: map<Dentry, Ledger>, b': map<Dentry, Ledger>,
    r: Outcome, d: Dentry, above: Dentry?, write: bool, keep: bool)
  {
    && b'.Keys == b.Keys
    && forall x :: x in b ==> b'[x] == Turned(b[x], x == d, x == above, r == Found(x), r.Found?, write, keep)
  }

  lemma TurnOn(b: map<Dentry, Ledger>, b1: map<Dentry, Ledger>, b2: map<Dentry, Ledger>,
    r: Outcome, d: Dentry, above: Dentry?)
    requires AllUnderway(b, b1, d, above) && AllTurned(b1, b2, r, d, above, false, false) && d != above
    ensures if r.Found? then AllUnderway(b, b2, r.dentry, d) else b2 == b
  {
  }

  lemma TurnLast(b: map<Dentry, Ledger>, b1: map<Dentry, Ledger>, b2: map<Dentry, Ledger>,
    r: Outcome, d: Dentry, above: Dentry?, f: Flags)
    requires AllUnderway(b, b1, d, above) && AllTurned(b1, b2, r, d, above, f.parentContentsW, f.AnyParent())
    requires d != above
    ensures if r.Found? then AllArrived(b, b2, r.dentry, d, f) else b2 == b
  {
  }

  /** The meta lock is held for writing while the handle count changes, and let go again. */
  method AddHandle(d: Dentry)
    modifies d`held
    ensures d.held == old(d.held).Plus(1, 0, 0, 0, 0)
  {
    d.held := d.held.Plus(0, 0, 0, 0, 1);
    d.held := d.held.Plus(1, 0, 0, 0, 0);
    d.held := d.held.Plus(0, 0, 0, 0, -1);
  }

  method DropHandle(d: Dentry)
    requires d.held.handles > 0
    modifies d`held
    ensures d.held == old(d.held).Plus(-1, 0, 0, 0, 0)
  {
    d.held := d.held.Plus(0, 0, 0, 0, 1);
    d.held := d.held.Plus(-1, 0, 0, 0, 0);
    d.held := d.held.Plus(0, 0, 0, 0, -1);
  }

  /** The dentry goes with its last handle, unless it is out of sync; disposal itself is not modelled. */
  method ReleaseDentry(d: Dentry) returns (disposed: bool)
    requires d.held.handles > 0 && d.held.metaW >= 0
    modifies d`held
    ensures disposed <==> old(d.held.handles) == 1 && !d.outOfSync
    ensures d.held == old(d.held).Plus(-1, 0, 0, 0, One(disposed))
  {
    d.held := d.held.Plus(0, 0, 0, 0, 1);
    disposed := ReleaseDentryUnlocked(d);
  }

  /** The caller holds the meta lock for writing, and it is let go unless the dentry is disposed of. */
  method ReleaseDentryUnlocked(d: Dentry) returns (disposed: bool)
    requires d.held.handles > 0 && d.held.metaW > 0
    modifies d`held
    ensures disposed <==> old(d.held.handles) == 1 && !d.outOfSync
    ensures d.held == old(d.held).Plus(-1, 0, 0, 0, -One(!disposed))
  {
    d.held := d.held.Plus(-1, 0, 0, 0, 0);
    if d.held.handles != 0 || d.outOfSync {
      d.held := d.held.Plus(0, 0, 0, 0, -1);
      return false;
    }
    return true;
  }

  /** fs_directory_lookup: one name in one directory; what is found has one more handle. */
  method DirectoryLookup(basedir: Dentry, name: seq<byte>) returns (r: Outcome)
    modifies basedir.children.Values`held
    ensures r == Look(basedir.children, name)
    ensures forall x :: x in basedir.children.Values ==> x.held == old(x.held).Plus(One(r == Found(x)), 0, 0, 0, 0)
  {
    if Points(name) > FILENAME_MAX {
      return TooLong;
    }
    if |basedir.children| == 0 || name !in basedir.children {
      return NoDentry;
    }
    AddHandle(basedir.children[name]);
    return Found(basedir.children[name]);
  }

  /** Every dentry of the tree has at least the handle of its link, as allocation leaves it. */
  ghost predicate Counted(b: map<Dentry, Ledger>) {
    forall x :: x in b ==> b[x].handles >= 1 && b[x].contentsR >= 0 && b[x].metaW >= 0
  }

  /**
   One turn of the path walk: `d` is locked before the directory above it is let go, and the child
   has its handle before `d` loses one.
   */
  method Descend(ghost nodes: set<Dentry>, d: Dentry, above: Dentry?, name: seq<byte>, write: bool, keep: bool)
    returns (r: Outcome)
    requires d in nodes && d.held.handles >= 2 && d.held.metaW >= 0 && d.children.Values <= nodes
    requires above != null ==> above in nodes && above != d && above.held.contentsR > 0
    modifies nodes`held
    ensures r == Look(d.children, name)
    ensures forall x :: x in nodes ==>
      x.held == Turned(old(x.held), x == d, x == above, r == Found(x), r.Found?, write, keep)
  {
    d.held := d.held.Plus(0, One(!write), One(write), 0, 0);
    if above != null {
      above.held := above.held.Plus(0, -1, 0, 0, 0);
    }
    r := DirectoryLookup(d, name);
    if !r.Found? {
      d.held := d.held.Plus(0, -One(!write), -One(write), 0, 0);
      var disposed := ReleaseDentry(d);
      assert !disposed;
    } else if !keep {
      DropHandle(d);
    }
  }

  /** The walk still has `start` to go, from `d`, to come to `goal`. */
  ghost predicate Underway(t: Shape, goal: Outcome, d: Dentry, start: seq<byte>) {
    goal == Walk(t, d, Split(start))
  }

  lemma NextComponent(t: Shape, goal: Outcome, d: Dentry, start: seq<byte>, k: nat)
    requires Underway(t, goal, d, start) && k == FirstSlash(start)
    ensures var r := Walk(t, d, [start[..k]]);
      if !r.Found? || k == |start| then goal == r else Underway(t, goal, r.dentry, start[k + 1..])
  {
    if k < |start| {
      WalkConcat(t, d, [start[..k]], Split(start[k + 1..]));
    }
  }

  lemma ChildFound(t: Shape, d: Dentry, n: seq<byte>)
    requires Tree(t) && d in t.children
    ensures Walk(t, d, [n]) == Look(t.children[d], n)
    ensures Look(t.children[d], n).Found? ==> Edge(t, d, n, Look(t.children[d], n).dentry)
    ensures t.children[d].Values <= t.children.Keys
  {
    WalkOne(t, d, n);
    assert Hangs(t, d, n);
    forall c | c in t.children[d].Values ensures c in t.children {
      var m :| m in t.children[d] && t.children[d][m] == c;
      assert Hangs(t, d, m);
    }
  }

  /** One turn of the loop, from cutting the component off to the child that becomes `d`. */
  method Turn(ghost t: Shape, ghost goal: Outcome, d: Dentry, above: Dentry?, start: seq<byte>, flags: Flags)
    returns (r: Outcome, more: bool, rest: seq<byte>)
    requires Tree(t) && InMemory(t) && d in t.children && d.held.handles >= 2 && d.held.metaW >= 0
    requires Underway(t, goal, d, start)
    requires above != null ==> above in t.children && above != d && above.held.contentsR > 0
    modifies t.children.Keys`held
    ensures InMemory(t)
    ensures forall x :: x in t.children ==>
      x.held == Turned(old(x.held), x == d, x == above, r == Found(x), r.Found?,
                       !more && flags.parentContentsW, !more && flags.AnyParent())
    ensures r.Found? ==> ChildOf(t, r.dentry, d)
    ensures if r.Found? && more then Underway(t, goal, r.dentry, rest) && |rest| < |start| else goal == r
  {
    var k := FirstSlash(start);
    NextComponent(t, goal, d, start, k);
    ChildFound(t, d, start[..k]);
    more := k < |start|;
    rest := if more then start[k + 1..] else [];
    r := Descend(t.children.Keys, d, above, start[..k], !more && flags.parentContentsW, !more && flags.AnyParent());
  }

  lemma BookTurned(nodes: set<Dentry>, b: map<Dentry, Ledger>, r: Outcome, d: Dentry, above: Dentry?,
    write: bool, keep: bool)
    requires b.Keys == nodes
    requires forall x :: x in nodes ==>
      x.held == Turned(b[x], x == d, x == above, r == Found(x), r.Found?, write, keep)
    ensures AllTurned(b, Book(nodes), r, d, above, write, keep)
  {
  }

  ghost predicate ChildOf(t: Shape, d: Dentry, p: Dentry) {
    d in t.name && Edge(t, p, t.name[d], d)
  }

  /** The loop of fs_path_lookup, from the root with one handle on it. */
  method WalkPath(ghost t: Shape, root: Dentry, path: seq<byte>, flags: Flags) returns (r: Outcome, parent: Dentry?)
    requires Tree(t) && InMemory(t) && Counted(Book(t.children.Keys)) && root == t.root && path != [] && path != [SLASH]
    modifies t.children.Keys`held
    ensures r == Walk(t, t.root, Components(path))
    ensures r.Found? ==> parent != null && ChildOf(t, r.dentry, parent)
    ensures var (b, b') := (old(Book(t.children.Keys)), Book(t.children.Keys));
      if r.Found? then AllArrived(b, b', r.dentry, parent, flags) else b' == b
  {
    ghost var nodes := t.children.Keys;
    ghost var b, goal := Book(nodes), Walk(t, t.root, Components(path));
    var start, d, more := path[1..], root, true;
    parent := null;
    r := Found(root);
    AddHandle(root);
    while more
      invariant d in nodes && InMemory(t)
      invariant parent != null ==> ChildOf(t, d, parent)
      invariant Stage(b, Book(nodes), d, parent, more, flags)
      invariant if more then Underway(t, goal, d, start) else r == Found(d) && goal == r && parent != null
      decreases more, |start|
    {
      r, more, start := TurnKept(t, b, goal, d, parent, start, flags);
      parent := d;
      if !r.Found? {
        return;
      }
      d := r.dentry;
    }
  }

  /** One turn of the loop, and what it does to all the ledgers. */
  method TurnKept(ghost t: Shape, ghost b: map<Dentry, Ledger>, ghost goal: Outcome,
    d: Dentry, above: Dentry?, start: seq<byte>, flags: Flags) returns (r: Outcome, more: bool, rest: seq<byte>)
    requires Tree(t) && InMemory(t) && Counted(b) && d in t.children && (above != null ==> ChildOf(t, d, above))
    requires AllUnderway(b, Book(t.children.Keys), d, above) && Underway(t, goal, d, start)
    modifies t.children.Keys`held
    ensures InMemory(t) && (r.Found? ==> ChildOf(t, r.dentry, d))
    ensures if r.Found? then Stage(b, Book(t.children.Keys), r.dentry, d, more, flags) else Book(t.children.Keys) == b
    ensures if r.Found? && more then Underway(t, goal, r.dentry, rest) && |rest| < |start| else goal == r
  {
    ghost var nodes, b1 := t.children.Keys, Book(t.children.Keys);
    HeldOnTheWay(nodes, b, d, above);
    r, more, rest := Turn(t, goal, d, above, start, flags);
    BookTurned(nodes, b1, r, d, above, !more && flags.parentContentsW, !more && flags.AnyParent());
    StageNext(b, b1, Book(nodes), r, d, above, more, flags);
  }

  /** At the head of the loop, and after it. */
  ghost predicate Stage(b: map<Dentry, Ledger>, b': map<Dentry, Ledger>, d: Dentry, p: Dentry?, more: bool, f: Flags) {
    if more then AllUnderway(b, b', d, p) else AllArrived(b, b', d, p, f)
  }

  lemma StageNext(b: map<Dentry, Ledger>, b1: map<Dentry, Ledger>, b2: map<Dentry, Ledger>,
    r: Outcome, d: Dentry, above: Dentry?, more: bool, f: Flags)
    requires AllUnderway(b, b1, d, above) && d != above
    requires AllTurned(b1, b2, r, d, above, !more && f.parentContentsW, !more && f.AnyParent())
    ensures if r.Found? then Stage(b, b2, r.dentry, d, more, f) else b2 == b
  {
    if more {
      TurnOn(b, b1, b2, r, d, above);
    } else {
      TurnLast(b, b1, b2, r, d, above, f);
    }
  }

  lemma HeldOnTheWay(nodes: set<Dentry>, b: map<Dentry, Ledger>, d: Dentry, p: Dentry?)
    requires AllUnderway(b, Book(nodes), d, p) && d in nodes && (p != null ==> p in nodes)
    requires Counted(b)
    ensures d.held.handles >= 2 && d.held.metaW >= 0 && (p != null ==> p.held.contentsR > 0)
  {
    assert Book(nodes)[d] == d.held;
    assert p != null ==> Book(nodes)[p] == p.held;
  }

  function ParentOf(t: Shape, d: Dentry): Dentry? {
    if d in t.parent then t.parent[d] else null
  }

  /** The locks the caller asked for, taken at the end; the parent's contents lock is held already. */
  method TakeLocks(d: Dentry, parent: Dentry?, f: Flags)
    requires parent != d
    modifies d`held, (if parent == null then {} else {parent})`held
    ensures parent != null ==>
      parent.held == old(parent.held).Plus(0, 0, 0, One(f.parentMetaR && !f.parentMetaW), One(f.parentMetaW))
    ensures d.held == old(d.held).Plus(0, One(f.dentryContentsR && !f.dentryContentsW), One(f.dentryContentsW),
                                       One(f.dentryMetaR && !f.dentryMetaW), One(f.dentryMetaW))
  {
    if parent != null {
      if f.parentMetaW {
        parent.held := parent.held.Plus(0, 0, 0, 0, 1);
      } else if f.parentMetaR {
        parent.held := parent.held.Plus(0, 0, 0, 1, 0);
      }
    }
    if f.dentryContentsW {
      d.held := d.held.Plus(0, 0, 1, 0, 0);
    } else if f.dentryContentsR {
      d.held := d.held.Plus(0, 1, 0, 0, 0);
    }
    if f.dentryMetaW {
      d.held := d.held.Plus(0, 0, 0, 0, 1);
    } else if f.dentryMetaR {
      d.held := d.held.Plus(0, 0, 0, 1, 0);
    }
  }

  lemma LocksTaken(nodes: set<Dentry>, b: map<Dentry, Ledger>, b1: map<Dentry, Ledger>, d: Dentry, p: Dentry, f: Flags)
    requires AllArrived(b, b1, d, p, f) && b.Keys == nodes && d != p && d in nodes && p in nodes
    requires forall x :: x in nodes && x != d && x != p ==> x.held == b1[x]
    requires p.held == b1[p].Plus(0, -One(!f.parentContentsW && !f.parentContentsR), 0,
                                  One(f.parentMetaR && !f.parentMetaW), One(f.parentMetaW))
    requires d.held == b1[d].Plus(0, One(f.dentryContentsR && !f.dentryContentsW), One(f.dentryContentsW),
                                  One(f.dentryMetaR && !f.dentryMetaW), One(f.dentryMetaW))
    ensures AllKept(b, Book(nodes), d, p, f)
  {
  }

  lemma RootLocksTaken(nodes: set<Dentry>, b: map<Dentry, Ledger>, d: Dentry, f: Flags)
    requires b.Keys == nodes && d in nodes
    requires forall x :: x in nodes && x != d ==> x.held == b[x]
    requires d.held == b[d].Plus(1, One(f.dentryContentsR && !f.dentryContentsW), One(f.dentryContentsW),
                                 One(f.dentryMetaR && !f.dentryMetaW), One(f.dentryMetaW))
    ensures AllKept(b, Book(nodes), d, null, f)
  {
  }

  method FinishRoot(ghost nodes: set<Dentry>, root: Dentry, flags: Flags)
    requires root in nodes
    modifies nodes`held
    ensures AllKept(old(Book(nodes)), Book(nodes), root, null, flags)
  {
    ghost var b := Book(nodes);
    AddHandle(root);
    TakeLocks(root, null, flags);
    RootLocksTaken(nodes, b, root, flags);
  }

  method FinishBelow(ghost nodes: set<Dentry>, ghost b: map<Dentry, Ledger>, d: Dentry, parent: Dentry, flags: Flags)
    requires AllArrived(b, Book(nodes), d, parent, flags) && d in nodes && parent in nodes && d != parent
    modifies nodes`held
    ensures AllKept(b, Book(nodes), d, parent, flags)
  {
    ghost var b1 := Book(nodes);
    if !(flags.parentContentsW || flags.parentContentsR) {
      parent.held := parent.held.Plus(0, -1, 0, 0, 0);
    }
    TakeLocks(d, parent, flags);
    LocksTaken(nodes, b, b1, d, parent, flags);
  }

  /**
   fs_path_lookup conserves handles and locks, for a path of any depth: success adds one handle to
   what is found, one to its parent only if a lock on that was asked for, and holds exactly the
   requested locks; failure leaves every count as it was.
   */
  method PathLookup(ghost t: Shape, root: Dentry, path: seq<byte>, flags: Flags) returns (r: Outcome)
    requires Tree(t) && InMemory(t) && Counted(Book(t.children.Keys)) && root == t.root
    modifies t.children.Keys`held
    ensures r == Walk(t, t.root, Components(path))
    ensures r.Found? ==>
      AllKept(old(Book(t.children.Keys)), Book(t.children.Keys), r.dentry, ParentOf(t, r.dentry), flags)
    ensures !r.Found? ==> Book(t.children.Keys) == old(Book(t.children.Keys))
  {
    ghost var b := Book(t.children.Keys);
    if path == [] || path == [SLASH] {
      FinishRoot(t.children.Keys, root, flags);
      return Found(root);
    }
    var parent: Dentry?;
    r, parent := WalkPath(t, root, path, flags);
    if r.Found? {
      FinishBelow(t.children.Keys, b, r.dentry, parent, flags);
    }
  }
}
