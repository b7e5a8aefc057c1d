/**
 fs_dentry_lookup (src/libltfs/fs.c): from a dentry up to the root, then the names glued together in
 a buffer of the summed lengths plus one byte a name.
 */
module DentryPath {
  import opened Bytes
  import opened Paths
  import opened DentryTree

  /** From the root down: each is the parent of the next. */
  ghost predicate Chain(c: seq<Dentry>)
    reads (set x | x in c)`parent
  {
    && c != [] && c[0].parent == null
    && forall k :: 1 <= k < |c| ==> c[k].parent == c[k - 1]
  }

  /** What a dentry contributes; nothing if it has no name and is not the living root. */
  function TextOf(x: Dentry): Option<seq<byte>>
    reads x`name, x`deleted, x`parent
  {
    if x.name.Some? then x.name
    else if x.deleted || x.parent != null then None
    else Some([SLASH])
  }

  // ---- Gluing ----

  function Total(ts: seq<seq<byte>>): nat {
    if ts == [] then 0 else |ts[0]| + Total(ts[1..])
  }

  /** The buffer after the first `i` names. */
  function Glued(ts: seq<seq<byte>>, i: nat): seq<byte>
    requires i <= |ts|
  {
    if i == 0 then []
    else Glued(ts, i - 1) + ts[i - 1] + if 1 < i < |ts| then [SLASH] else []
  }

  lemma {:induction false} JoinSnoc(names: seq<seq<byte>>, x: seq<byte>)
    requires names != []
    ensures Join(names + [x]) == Join(names) + [SLASH] + x
  {
    if |names| == 1 {
      assert (names + [x])[1..] == [x];
    } else {
      assert (names + [x])[1..] == names[1..] + [x];
      JoinSnoc(names[1..], x);
    }
  }

  lemma {:induction false} GluedIsJoined(ts: seq<seq<byte>>, i: nat)
    requires 2 <= i <= |ts|
    ensures Glued(ts, i) == ts[0] + Join(ts[1..i]) + if i < |ts| then [SLASH] else []
  {
    assert Glued(ts, 1) == ts[0];
    if i == 2 {
      assert ts[1..2] == [ts[1]];
    } else {
      GluedIsJoined(ts, i - 1);
      assert ts[1..i] == ts[1..i - 1] + [ts[i - 1]];
      JoinSnoc(ts[1..i - 1], ts[i - 1]);
    }
  }

  /** The buffer always suffices, its terminator included. */
  lemma {:induction false} BufferSuffices(ts: seq<seq<byte>>, i: nat)
    requires i <= |ts|
    ensures |Glued(ts, i)| + Total(ts[i..]) <= Total(ts) + if i == 0 then 0 else i - 1
  {
    if i == 0 {
      assert ts[0..] == ts;
    } else {
      BufferSuffices(ts, i - 1);
      assert ts[i - 1..][1..] == ts[i..];
    }
  }

  /** Strcat: `s` and the terminator, after the first `end` bytes. */
  method Strcat(buf: array<byte>, end: nat, s: seq<byte>) returns (newEnd: nat)
    requires end + |s| < buf.Length
    modifies buf
    ensures newEnd == end + |s| && buf[..newEnd] == old(buf[..end]) + s && buf[newEnd] == 0
  {
    var i := 0;
    while i < |s|
      invariant 0 <= i <= |s|
      invariant buf[..end + i] == old(buf[..end]) + s[..i]
    {
      buf[end + i] := s[i];
      i := i + 1;
    }
    newEnd := end + |s|;
    buf[newEnd] := 0;
    assert s[..i] == s;
  }

  method Glue(ts: seq<seq<byte>>) returns (path: seq<byte>)
    requires ts != []
    ensures path == ts[0] + if |ts| == 1 then [] else Join(ts[1..])
  {
    var namelen, i := 0, |ts|;
    while i > 0
      invariant 0 <= i <= |ts| && namelen == Total(ts[i..])
    {
      i := i - 1;
      assert ts[i..][1..] == ts[i + 1..];
      namelen := namelen + |ts[i]|;
    }
    assert ts[0..] == ts;
    var buf := new byte[namelen + |ts|](_ => 0);
    var end := 0;
    while i < |ts|
      invariant 0 <= i <= |ts| && end == |Glued(ts, i)| && end < buf.Length && buf[..end] == Glued(ts, i)
    {
      BufferSuffices(ts, i + 1);
      end := Strcat(buf, end, ts[i]);
      if 0 < i < |ts| - 1 {
        end := Strcat(buf, end, [SLASH]);
      }
      i := i + 1;
    }
    path := buf[..end];
    if |ts| > 1 {
      GluedIsJoined(ts, |ts|);
      assert ts[1..|ts|] == ts[1..];
    } else {
      assert Glued(ts, 1) == Glued(ts, 0) + ts[0];
    }
  }

  // ---- Going up ----

  /** The names of a chain, if every dentry of it contributes one. */
  ghost predicate Texts(c: seq<Dentry>, from: nat, ts: seq<seq<byte>>)
    reads set x | x in c
  {
    from <= |c| && |ts| == |c| && forall k :: from <= k < |c| ==> TextOf(c[k]) == Some(ts[k])
  }

  /** Where the way up stops: at the lowest dentry that contributes nothing. */
  ghost predicate Stops(c: seq<Dentry>, k: nat)
    reads set x | x in c
  {
    k < |c| && TextOf(c[k]) == None && forall j :: k < j < |c| ==> TextOf(c[j]).Some?
  }

  method CountNames(ghost c: seq<Dentry>, dentry: Dentry) returns (names: nat)
    requires Chain(c) && c[|c| - 1] == dentry
    ensures names == |c|
  {
    names := 0;
    var d: Dentry? := dentry;
    while d != null
      invariant names <= |c|
      invariant d == if names < |c| then c[|c| - 1 - names] else null
      decreases |c| - names
    {
      d := d.parent;
      names := names + 1;
    }
  }

  /**
   The way up, each name read under the parent's contents lock. When a name is missing the loop is
   left at once, with the parent's lock still held.
   */
  method CollectNames(ghost c: seq<Dentry>, dentry: Dentry, names: nat) returns (ts: Option<seq<seq<byte>>>)
    requires Chain(c) && c[|c| - 1] == dentry && names == |c|
    modifies (set x | x in c)`held
    ensures ts.Some? ==> Texts(c, 0, ts.value) && forall x :: x in c ==> x.held == old(x.held)
    ensures ts.None? ==> exists k: nat :: Stops(c, k) && forall x :: x in c ==>
      x.held == old(x.held).Plus(0, One(x == c[k].parent), 0, 0, 0)
  {
    var list := new seq<byte>[names](_ => []);
    var d, i := dentry, names - 1;
    while true
      invariant 0 <= i < names && d == c[i]
      invariant Texts(c, i + 1, list[..])
      invariant forall x :: x in c ==> x.held == old(x.held)
      decreases i
    {
      var ok := ReadInto(c, i, d, list);
      if !ok {
        return None;
      }
      assert d.parent == if i == 0 then null else c[i - 1];
      if d.parent == null {
        break;
      }
      d, i := d.parent, i - 1;
    }
    ts := Some(list[..]);
  }

  /** Name `i` of the chain is read into the list. */
  method ReadInto(ghost c: seq<Dentry>, i: nat, d: Dentry, list: array<seq<byte>>) returns (ok: bool)
    requires Chain(c) && i < |c| && d == c[i] && Texts(c, i + 1, list[..])
    modifies (set x | x in c)`held, list
    ensures ok ==> Texts(c, i, list[..]) && forall x :: x in c ==> x.held == old(x.held)
    ensures !ok ==> Stops(c, i) && forall x :: x in c ==> x.held == old(x.held).Plus(0, One(x == d.parent), 0, 0, 0)
  {
    var parent := d.parent;
    assert parent == if i == 0 then null else c[i - 1];
    var name := ReadName(d, parent);
    ok := name.Some?;
    if ok {
      list[i] := name.value;
    }
  }

  /** One name, under the contents lock of the parent, which is not let go if there is no name. */
  method ReadName(d: Dentry, parent: Dentry?) returns (name: Option<seq<byte>>)
    requires parent == d.parent
    modifies (if parent == null then {} else {parent})`held
    ensures name == TextOf(d)
    ensures parent != null ==> parent.held == old(parent.held).Plus(0, One(name.None?), 0, 0, 0)
  {
    if parent != null {
      parent.held := parent.held.Plus(0, 1, 0, 0, 0);
    }
    name := d.name;
    if name.None? {
      if d.deleted || d.parent != null {
        return;
      }
      name := Some([SLASH]);
    }
    if parent != null {
      parent.held := parent.held.Plus(0, -1, 0, 0, 0);
    }
  }

  /** The texts of the chain, the first put in front of the others joined with slashes. */
  ghost predicate PathOf(c: seq<Dentry>, path: seq<byte>)
    reads set x | x in c
  {
    c != [] && exists ts :: Texts(c, 0, ts) && path == ts[0] + if |ts| == 1 then [] else Join(ts[1..])
  }

  /**
   fs_dentry_lookup. It fails exactly when a dentry on the way has no name to give, and then one
   contents lock stays held: that of the parent of the lowest such dentry, if it has one.
   */
  method DentryLookup(ghost c: seq<Dentry>, dentry: Dentry) returns (path: Option<seq<byte>>)
    requires Chain(c) && c[|c| - 1] == dentry
    modifies (set x | x in c)`held
    ensures path.Some? ==> PathOf(c, path.value)
    ensures path.Some? ==> forall x :: x in c ==> x.held == old(x.held)
    ensures path.None? ==> exists k: nat :: Stops(c, k) && forall x :: x in c ==>
      x.held == old(x.held).Plus(0, One(x == c[k].parent), 0, 0, 0)
  {
    var names := CountNames(c, dentry);
    var ts := CollectNames(c, dentry, names);
    if ts.None? {
      return None;
    }
    var text := Glue(ts.value);
    return Some(text);
  }

  // ---- Path and dentry lookups together ----

  ghost function Ancestors(t: Shape, d: Dentry): (c: seq<Dentry>)
    requires Tree(t) && d in t.children
    ensures c != [] && c[|c| - 1] == d && forall x :: x in c ==> x in t.children
    decreases if d in t.depth then t.depth[d] else 0
  {
    if d == t.root then [d]
    else
      assert Placed(t, d);
      Ancestors(t, t.parent[d]) + [d]
  }

  lemma {:induction false} AncestorsChain(t: Shape, d: Dentry)
    requires Tree(t) && InMemory(t) && d in t.children && !t.root.deleted
    ensures Chain(Ancestors(t, d)) && Texts(Ancestors(t, d), 0, [[SLASH]] + Names(t, d))
    decreases if d in t.depth then t.depth[d] else 0
  {
    if d == t.root {
      assert Ancestors(t, d) == [d] && Names(t, d) == [];
      assert TextOf(d) == Some([SLASH]);
    } else {
      assert Placed(t, d);
      var p := t.parent[d];
      AncestorsChain(t, p);
      var c := Ancestors(t, p);
      assert Ancestors(t, d) == c + [d] && [[SLASH]] + Names(t, d) == [[SLASH]] + Names(t, p) + [t.name[d]];
      ChainSnoc(c, d, [[SLASH]] + Names(t, p));
    }
  }

  lemma ChainSnoc(c: seq<Dentry>, d: Dentry, ts: seq<seq<byte>>)
    requires Chain(c) && d.parent == c[|c| - 1] && Texts(c, 0, ts) && d.name.Some?
    ensures Chain(c + [d]) && Texts(c + [d], 0, ts + [d.name.value])
  {
  }

  lemma TextsAgree(c: seq<Dentry>, a: seq<seq<byte>>, b: seq<seq<byte>>)
    requires Texts(c, 0, a) && Texts(c, 0, b)
    ensures a == b
  {
    forall k | 0 <= k < |a| ensures a[k] == b[k] {
      assert Some(a[k]) == TextOf(c[k]) == Some(b[k]);
    }
  }

  /** What fs_dentry_lookup builds for a dentry of the tree is the path of its names. */
  lemma BuiltPath(t: Shape, d: Dentry, path: seq<byte>)
    requires Tree(t) && InMemory(t) && d in t.children && !t.root.deleted && PathOf(Ancestors(t, d), path)
    ensures path == PathText(Names(t, d))
  {
    var ts :| Texts(Ancestors(t, d), 0, ts) && path == ts[0] + if |ts| == 1 then [] else Join(ts[1..]);
    AncestorsChain(t, d);
    TextsAgree(Ancestors(t, d), ts, [[SLASH]] + Names(t, d));
    assert ([[SLASH]] + Names(t, d))[1..] == Names(t, d);
  }

  /** Looking up the path that was built for a dentry finds that dentry. */
  lemma BuiltPathLeadsBack(t: Shape, d: Dentry, path: seq<byte>)
    requires Tree(t) && InMemory(t) && d in t.children && !t.root.deleted && PathOf(Ancestors(t, d), path)
    ensures Walk(t, t.root, Components(path)) == Found(d)
  {
    BuiltPath(t, d, path);
    PathOfDentryFindsIt(t, d);
  }

  /** Building the path of what a path leads to gives that path back, with a slash for its first character. */
  lemma BuiltPathIsTheWay(t: Shape, path: seq<byte>, built: seq<byte>)
    requires Tree(t) && InMemory(t) && !t.root.deleted && Walk(t, t.root, Components(path)).Found?
    requires var d := Walk(t, t.root, Components(path)).dentry; d in t.children && PathOf(Ancestors(t, d), built)
    ensures built == if path == [] then [SLASH] else [SLASH] + path[1..]
  {
    BuiltPath(t, Walk(t, t.root, Components(path)).dentry, built);
    DentryOfPathHasIt(t, path);
  }
}
