/**
 The glob matcher of the placement policy (src/libltfs/index_criteria.c:
 _matches_name_criteria_caseless). Names and patterns are sequences of grapheme clusters, each a
 sequence of UTF-16 code units; a cluster of the single unit 0x2a is a star, one of the single
 unit 0x3f a question mark.
 */
module Glob {

  type Cluster = seq<nat>

  const STAR: Cluster := [0x2a]
  const ANY: Cluster := [0x3f]

  /** A pattern cluster other than a star accepts a name cluster. */
  predicate Accepts(p: Cluster, c: Cluster) {
    p == ANY || p == c
  }

  /** The pattern `p` matches the name `f`: a star stands for any number of clusters. */
  predicate Matches(p: seq<Cluster>, f: seq<Cluster>)
    decreases |p| + |f|
  {
    if p == [] then f == []
    else if p[0] == STAR then Matches(p[1..], f) || (f != [] && Matches(p, f[1..]))
    else f != [] && Accepts(p[0], f[0]) && Matches(p[1..], f[1..])
  }

  // ---- What matching means ----

  /** The piece of a name that one pattern cluster can stand for. */
  predicate Fits(c: Cluster, piece: seq<Cluster>) {
    c == STAR || (|piece| == 1 && Accepts(c, piece[0]))
  }

  function Flatten(pieces: seq<seq<Cluster>>): seq<Cluster> {
    if pieces == [] then [] else pieces[0] + Flatten(pieces[1..])
  }

  /** `f` cut into one piece for each pattern cluster. */
  ghost predicate Cut(p: seq<Cluster>, f: seq<Cluster>, pieces: seq<seq<Cluster>>) {
    |pieces| == |p| && Flatten(pieces) == f && forall i :: 0 <= i < |p| ==> Fits(p[i], pieces[i])
  }

  lemma {:induction false} StarMatchesMore(p: seq<Cluster>, a: seq<Cluster>, f: seq<Cluster>)
    requires p != [] && p[0] == STAR && Matches(p[1..], f)
    ensures Matches(p, a + f)
  {
    if a == [] {
      assert a + f == f;
    } else {
      assert (a + f)[1..] == a[1..] + f;
      StarMatchesMore(p, a[1..], f);
    }
  }

  lemma {:induction false} CutMatches(p: seq<Cluster>, f: seq<Cluster>, pieces: seq<seq<Cluster>>)
    requires Cut(p, f, pieces)
    ensures Matches(p, f)
  {
    if p != [] {
      CutMatches(p[1..], Flatten(pieces[1..]), pieces[1..]);
      if p[0] == STAR {
        StarMatchesMore(p, pieces[0], Flatten(pieces[1..]));
      } else {
        assert Fits(p[0], pieces[0]);
        assert f[1..] == Flatten(pieces[1..]);
      }
    }
  }

  lemma {:induction false} MatchesCut(p: seq<Cluster>, f: seq<Cluster>) returns (pieces: seq<seq<Cluster>>)
    requires Matches(p, f)
    ensures Cut(p, f, pieces)
    decreases |p| + |f|
  {
    if p == [] {
      pieces := [];
    } else if p[0] == STAR && Matches(p[1..], f) {
      var rest := MatchesCut(p[1..], f);
      pieces := [[]] + rest;
      assert pieces[1..] == rest;
    } else if p[0] == STAR {
      var rest := MatchesCut(p, f[1..]);
      pieces := [[f[0]] + rest[0]] + rest[1..];
      assert pieces[1..] == rest[1..];
      assert f == [f[0]] + f[1..];
    } else {
      var rest := MatchesCut(p[1..], f[1..]);
      pieces := [[f[0]]] + rest;
      assert pieces[1..] == rest;
      assert f == [f[0]] + f[1..];
    }
  }

  /**
   A pattern matches a name exactly when the name can be cut into one piece for each pattern cluster:
   any piece for a star, one accepted cluster for any other.
   */
  lemma MatchesIffCut(p: seq<Cluster>, f: seq<Cluster>)
    ensures Matches(p, f) <==> exists pieces :: Cut(p, f, pieces)
  {
    if Matches(p, f) {
      var pieces := MatchesCut(p, f);
    }
    if pieces :| Cut(p, f, pieces) {
      CutMatches(p, f, pieces);
    }
  }

  // ---- Properties of matching ----

  lemma {:induction false} MatchesConcat(a: seq<Cluster>, f: seq<Cluster>, b: seq<Cluster>, g: seq<Cluster>)
    requires Matches(a, f) && Matches(b, g)
    ensures Matches(a + b, f + g)
    decreases |a| + |f|
  {
    if a == [] {
      assert a + b == b && f + g == g;
    } else {
      assert (a + b)[1..] == a[1..] + b;
      assert f != [] ==> (f + g)[1..] == f[1..] + g;
      if a[0] == STAR && Matches(a[1..], f) {
        MatchesConcat(a[1..], f, b, g);
      } else if a[0] == STAR {
        MatchesConcat(a, f[1..], b, g);
      } else {
        MatchesConcat(a[1..], f[1..], b, g);
      }
    }
  }

  lemma {:induction false} StarMatchesAll(f: seq<Cluster>)
    ensures Matches([STAR], f)
  {
    if f != [] {
      StarMatchesAll(f[1..]);
    }
  }

  /** A pattern that ends in a star goes on matching however the name goes on. */
  lemma {:induction false} StarAbsorbs(a: seq<Cluster>, f: seq<Cluster>, g: seq<Cluster>)
    requires Matches(a + [STAR], f)
    ensures Matches(a + [STAR], f + g)
    decreases |a| + |f|
  {
    if a == [] {
      assert a + [STAR] == [STAR];
      StarMatchesAll(f + g);
    } else {
      assert (a + [STAR])[1..] == a[1..] + [STAR];
      assert f != [] ==> (f + g)[1..] == f[1..] + g;
      if a[0] == STAR && Matches(a[1..] + [STAR], f) {
        StarAbsorbs(a[1..], f, g);
      } else if a[0] == STAR {
        StarAbsorbs(a, f[1..], g);
      } else {
        StarAbsorbs(a[1..], f[1..], g);
      }
    }
  }

  /** The rest of the pattern from `s` matches the name from some position at or after `k`. */
  ghost predicate MatchesFrom(p: seq<Cluster>, s: nat, f: seq<Cluster>, k: nat) {
    s <= |p| && exists j :: k <= j <= |f| && Matches(p[s..], f[j..])
  }

  /** What follows a star matches from somewhere on. */
  lemma {:induction false} StarSkips(p: seq<Cluster>, s: nat, f: seq<Cluster>, k: nat)
    requires s < |p| && p[s] == STAR && k <= |f| && Matches(p[s..], f[k..])
    ensures MatchesFrom(p, s + 1, f, k)
    decreases |f| - k
  {
    assert p[s..][1..] == p[s + 1..];
    if !Matches(p[s + 1..], f[k..]) {
      assert f[k..][1..] == f[k + 1..];
      StarSkips(p, s, f, k + 1);
    }
  }

  /** No star among the clusters from `s` to `c`. */
  ghost predicate StarFree(p: seq<Cluster>, s: nat, c: nat) {
    s <= c <= |p| && forall j :: s <= j < c ==> p[j] != STAR
  }

  /** A star-free stretch of pattern takes exactly as many clusters of the name. */
  lemma {:induction false} Peel(p: seq<Cluster>, s: nat, c: nat, f: seq<Cluster>, k: nat)
    requires StarFree(p, s, c) && k <= |f| && Matches(p[s..], f[k..])
    ensures k + (c - s) <= |f| && Matches(p[c..], f[k + (c - s)..])
    decreases c - s
  {
    if s < c {
      assert p[s..][1..] == p[s + 1..];
      assert f[k..] != [];
      assert f[k..][1..] == f[k + 1..];
      Peel(p, s + 1, c, f, k + 1);
    }
  }

  // ---- The matcher's state ----

  /** A saved position: the pattern cluster behind a star, and where in the name it was tried. */
  datatype Entry = Entry(c: nat, f: nat)

  /** Pushing always links the new entry behind the base, so at most two are remembered. */
  function Push(stack: seq<Entry>, e: Entry): seq<Entry> {
    if stack == [] then [e] else [stack[0], e]
  }

  function Top(stack: seq<Entry>): Entry
    requires stack != []
  {
    stack[|stack| - 1]
  }

  /** The pattern before `c` matches the name before `n`; behind a star if `star`. */
  ghost predicate Reached(p: seq<Cluster>, f: seq<Cluster>, c: nat, n: nat, star: bool) {
    && c <= |p| && n <= |f| && Matches(p[..c], f[..n])
    && (star ==> c > 0 && p[c - 1] == STAR)
  }

  ghost predicate Saved(p: seq<Cluster>, f: seq<Cluster>, e: Entry) {
    Reached(p, f, e.c, e.f, true) && e.c < |p| && e.f < |f| && p[e.c] != STAR
  }

  /**
   If the whole pattern matches at all, it does so by way of the latest star: from the present
   position on, or from the position saved last. No older star is ever needed.
   */
  ghost predicate Alive(p: seq<Cluster>, f: seq<Cluster>, c: nat, n: nat, star: bool, stack: seq<Entry>) {
    && c <= |p| && n <= |f|
    && (Matches(p, f) ==>
          if star then MatchesFrom(p, c, f, n)
          else if stack == [] then Matches(p[c..], f[n..])
          else MatchesFrom(p, Top(stack).c, f, Top(stack).f))
  }

  /** Between stars the pattern since the last saved position runs in step with the name. */
  ghost predicate InStep(p: seq<Cluster>, c: nat, n: nat, star: bool, stack: seq<Entry>) {
    !star && stack != [] ==>
      StarFree(p, Top(stack).c, c) && n >= Top(stack).f && n - Top(stack).f == c - Top(stack).c
  }

  ghost predicate Inv(p: seq<Cluster>, f: seq<Cluster>, c: nat, n: nat, star: bool, stack: seq<Entry>) {
    && Reached(p, f, c, n, star)
    && |stack| <= 2 && (forall k :: 0 <= k < |stack| ==> Saved(p, f, stack[k]))
    && Alive(p, f, c, n, star, stack)
    && InStep(p, c, n, star, stack)
    && (star && stack != [] ==> c > Top(stack).c)
    && (|stack| == 2 ==> stack[1].c > stack[0].c)
  }

  /** Consuming a star: from here on only this star matters. */
  lemma ConsumeStar(p: seq<Cluster>, f: seq<Cluster>, c: nat, n: nat, star: bool, stack: seq<Entry>)
    requires Inv(p, f, c, n, star, stack) && c < |p| && p[c] == STAR
    ensures Inv(p, f, c + 1, n, true, stack)
  {
    assert p[..c + 1] == p[..c] + [STAR] && f[..n] == f[..n] + [];
    StarMatchesAll([]);
    MatchesConcat(p[..c], f[..n], [STAR], []);
    if Matches(p, f) {
      if star {
        var j :| n <= j <= |f| && Matches(p[c..], f[j..]);
        StarSkips(p, c, f, j);
      } else if stack == [] {
        StarSkips(p, c, f, n);
      } else {
        var e := Top(stack);
        var j :| e.f <= j <= |f| && Matches(p[e.c..], f[j..]);
        Peel(p, e.c, c, f, j);
        StarSkips(p, c, f, j + (c - e.c));
      }
    }
  }

  /** Going back to a saved position and past the cluster tried there. */
  lemma Retry(p: seq<Cluster>, f: seq<Cluster>, e: Entry)
    requires Saved(p, f, e)
    ensures Reached(p, f, e.c, e.f + 1, true)
  {
    var a := p[..e.c - 1];
    assert p[..e.c] == a + [STAR];
    StarAbsorbs(a, f[..e.f], [f[e.f]]);
    assert f[..e.f + 1] == f[..e.f] + [f[e.f]];
  }

  /**
   Going back is right when the present attempt has failed: it met a cluster it does not accept,
   or one of pattern and name ended before the other.
   */
  lemma Backtrack(p: seq<Cluster>, f: seq<Cluster>, c: nat, n: nat, star: bool, stack: seq<Entry>)
    requires Inv(p, f, c, n, star, stack) && stack != []
    requires Matches(p, f) ==> !star && !Matches(p[c..], f[n..])
    ensures Inv(p, f, Top(stack).c, Top(stack).f + 1, true, stack[..|stack| - 1])
  {
    var e := Top(stack);
    assert Saved(p, f, e);
    Retry(p, f, e);
    if Matches(p, f) {
      var j :| e.f <= j <= |f| && Matches(p[e.c..], f[j..]);
      if j == e.f {
        Peel(p, e.c, c, f, j);
      }
      assert MatchesFrom(p, e.c, f, e.f + 1);
    }
  }

  lemma NoneFromEnd(p: seq<Cluster>, c: nat, f: seq<Cluster>)
    requires c < |p| && p[c] != STAR
    ensures !MatchesFrom(p, c, f, |f|)
  {
    forall j | |f| <= j <= |f| ensures !Matches(p[c..], f[j..]) {
      assert f[j..] == [];
    }
  }

  /** A name that is used up cannot match what begins with anything but a star. */
  lemma NameUsedUp(p: seq<Cluster>, f: seq<Cluster>, c: nat, star: bool, stack: seq<Entry>)
    requires Inv(p, f, c, |f|, star, stack) && c < |p| && p[c] != STAR
    ensures !Matches(p, f)
  {
    if star {
      NoneFromEnd(p, c, f);
    } else if Matches(p, f) && stack != [] {
      var e := Top(stack);
      var j :| e.f <= j <= |f| && Matches(p[e.c..], f[j..]);
      Peel(p, e.c, c, f, j);
    }
  }

  /** A cluster that cannot be accepted where it is must be taken by the star. */
  lemma StarTakes(p: seq<Cluster>, f: seq<Cluster>, c: nat, n: nat, stack: seq<Entry>)
    requires Inv(p, f, c, n, true, stack) && c < |p| && p[c] != STAR && n < |f| && !Accepts(p[c], f[n])
    ensures Inv(p, f, c, n + 1, true, stack)
  {
    assert p[..c] == p[..c - 1] + [STAR];
    StarAbsorbs(p[..c - 1], f[..n], [f[n]]);
    assert f[..n + 1] == f[..n] + [f[n]];
    if Matches(p, f) {
      var j :| n <= j <= |f| && Matches(p[c..], f[j..]);
      assert j != n;
    }
  }

  lemma Extend(p: seq<Cluster>, f: seq<Cluster>, c: nat, n: nat, star: bool)
    requires Reached(p, f, c, n, star) && c < |p| && p[c] != STAR && n < |f| && Accepts(p[c], f[n])
    ensures Reached(p, f, c + 1, n + 1, false)
  {
    var one: seq<Cluster>, name: seq<Cluster> := [p[c]], [f[n]];
    assert one[1..] == [] && name[1..] == [];
    assert Matches(one, name);
    MatchesConcat(p[..c], f[..n], one, name);
    assert p[..c + 1] == p[..c] + one && f[..n + 1] == f[..n] + name;
  }

  /** The first cluster behind a star is accepted: the position is saved. */
  lemma Save(p: seq<Cluster>, f: seq<Cluster>, c: nat, n: nat, stack: seq<Entry>)
    requires Inv(p, f, c, n, true, stack) && c < |p| && p[c] != STAR && n < |f| && Accepts(p[c], f[n])
    ensures Inv(p, f, c + 1, n + 1, false, Push(stack, Entry(c, n)))
  {
    Extend(p, f, c, n, true);
  }

  lemma Advance(p: seq<Cluster>, f: seq<Cluster>, c: nat, n: nat, stack: seq<Entry>)
    requires Inv(p, f, c, n, false, stack) && c < |p| && p[c] != STAR && n < |f| && Accepts(p[c], f[n])
    ensures Inv(p, f, c + 1, n + 1, false, stack)
  {
    Extend(p, f, c, n, false);
    assert p[c..][1..] == p[c + 1..] && f[n..][1..] == f[n + 1..];
  }

  /** The present attempt cannot succeed any more. */
  lemma Failed(p: seq<Cluster>, f: seq<Cluster>, c: nat, n: nat, star: bool, stack: seq<Entry>)
    requires Inv(p, f, c, n, star, stack) && (c < |p| ==> p[c] != STAR) && !(c == |p| && n == |f|)
    requires c == |p| ==> !star
    requires c < |p| && n < |f| ==> !star && !Accepts(p[c], f[n])
    ensures Matches(p, f) ==> !star && !Matches(p[c..], f[n..])
  {
    if c < |p| && n == |f| {
      NameUsedUp(p, f, c, star, stack);
    }
  }

  lemma InvStart(p: seq<Cluster>, f: seq<Cluster>)
    ensures Inv(p, f, 0, 0, false, [])
  {
    assert p[..0] == [] && f[..0] == [] && p[0..] == p && f[0..] == f;
  }

  lemma BothUsedUp(p: seq<Cluster>, f: seq<Cluster>, star: bool, stack: seq<Entry>)
    requires Inv(p, f, |p|, |f|, star, stack)
    ensures Matches(p, f)
  {
    assert p[..|p|] == p && f[..|f|] == f;
  }

  lemma NoneLeft(p: seq<Cluster>, f: seq<Cluster>, c: nat, n: nat, star: bool)
    requires Inv(p, f, c, n, star, [])
    requires Matches(p, f) ==> !star && !Matches(p[c..], f[n..])
    ensures !Matches(p, f)
  {
  }

  // ---- Termination ----

  /** How far the base has still to move: it is popped, and saved again farther on. */
  function BaseRank(f: seq<Cluster>, n: nat, star: bool, stack: seq<Entry>): int {
    if stack != [] then 2 * (|f| - stack[0].f)
    else if star then 2 * (|f| - n) + 1
    else 2 * |f| + 2
  }

  /** The star being worked on, counted from the end of the pattern. */
  function StarRank(p: seq<Cluster>, c: nat, star: bool, stack: seq<Entry>): int {
    if |stack| == 2 then |p| - stack[1].c
    else if star then |p| - c
    else if stack != [] then |p| - stack[0].c
    else |p|
  }

  /** How far that star has still to stretch. */
  function StretchRank(f: seq<Cluster>, n: nat, star: bool, stack: seq<Entry>): int {
    if |stack| == 2 then 2 * (|f| - stack[1].f)
    else if star then 2 * (|f| - n) + 1
    else 0
  }

  /** Consumes sequential stars; a pattern that ends in one accepts. */
  method ConsumeStars(p: seq<Cluster>, f: seq<Cluster>, c: nat, n: nat, star: bool, stack: seq<Entry>)
    returns (next: nat, behind: bool, accept: bool)
    requires Inv(p, f, c, n, star, stack) && (star ==> c < |p|)
    ensures accept ==> Matches(p, f)
    ensures !accept ==> Inv(p, f, next, n, behind, stack) && (behind ==> next < |p|)
    ensures c <= next <= |p| && (if c < next then behind else behind == star)
    ensures !accept && next < |p| ==> p[next] != STAR
  {
    next, behind, accept := c, star, false;
    while next < |p| && p[next] == STAR
      invariant Inv(p, f, next, n, behind, stack) && (behind ==> next < |p|)
      invariant c <= next <= |p| && (if c < next then behind else behind == star)
    {
      ConsumeStar(p, f, next, n, behind, stack);
      next := next + 1;
      behind := true;
      if next == |p| {
        assert p[..next] == p && p[..next - 1] + [STAR] == p;
        StarAbsorbs(p[..next - 1], f[..n], f[n..]);
        assert f[..n] + f[n..] == f;
        accept := true;
        return;
      }
    }
  }

  /** Where the matcher is at the head of its loop. */
  datatype Place = Place(c: nat, n: nat, star: bool, stack: seq<Entry>)

  ghost predicate Good(p: seq<Cluster>, f: seq<Cluster>, s: Place) {
    Inv(p, f, s.c, s.n, s.star, s.stack) && (s.star ==> s.c < |p|)
  }

  /** `t` is nearer to the end than `s`: the base has moved, or the star, or its stretch, or the positions. */
  ghost predicate Lower(p: seq<Cluster>, f: seq<Cluster>, t: Place, s: Place) {
    var b, r := BaseRank(f, s.n, s.star, s.stack), StarRank(p, s.c, s.star, s.stack);
    var x := StretchRank(f, s.n, s.star, s.stack);
    var b', r' := BaseRank(f, t.n, t.star, t.stack), StarRank(p, t.c, t.star, t.stack);
    var x' := StretchRank(f, t.n, t.star, t.stack);
    && b >= 0 && r >= 0 && x >= 0
    && (b' < b || (b' == b && (r' < r || (r' == r && (x' < x || (x' == x && Ahead(p, f, t, s)))))))
  }

  predicate Ahead(p: seq<Cluster>, f: seq<Cluster>, t: Place, s: Place) {
    s.c < t.c <= |p| || (s.c == t.c && s.n < t.n <= |f|)
  }

  /** `s` is where the turn that began at `s0` got to by consuming stars. */
  ghost predicate After(s: Place, s0: Place) {
    s0.c <= s.c && s.n == s0.n && s.stack == s0.stack && (if s0.c < s.c then s.star else s.star == s0.star)
  }

  lemma SaveLowers(p: seq<Cluster>, f: seq<Cluster>, s: Place, s0: Place)
    requires Good(p, f, s) && Good(p, f, s0) && After(s, s0) && s.star && s.c < |p| && s.n < |f|
    ensures Lower(p, f, Place(s.c + 1, s.n + 1, false, Push(s.stack, Entry(s.c, s.n))), s0)
  {
  }

  lemma AdvanceLowers(p: seq<Cluster>, f: seq<Cluster>, s: Place, s0: Place)
    requires Good(p, f, s) && Good(p, f, s0) && After(s, s0) && !s.star && s.c < |p| && s.n < |f|
    ensures Lower(p, f, Place(s.c + 1, s.n + 1, false, s.stack), s0)
  {
  }

  lemma StretchLowers(p: seq<Cluster>, f: seq<Cluster>, s: Place, s0: Place)
    requires Good(p, f, s) && Good(p, f, s0) && After(s, s0) && s.star && s.n < |f|
    ensures Lower(p, f, s.(n := s.n + 1), s0)
  {
  }

  lemma BackLowers(p: seq<Cluster>, f: seq<Cluster>, s: Place, s0: Place)
    requires Good(p, f, s) && Good(p, f, s0) && After(s, s0) && s.stack != []
    ensures Lower(p, f, Place(Top(s.stack).c, Top(s.stack).f + 1, true, s.stack[..|s.stack| - 1]), s0)
  {
  }

  /** A pattern cluster takes a name cluster; behind a star the position is saved. */
  method Take(p: seq<Cluster>, f: seq<Cluster>, s: Place, ghost s0: Place) returns (t: Place)
    requires Good(p, f, s) && Good(p, f, s0) && After(s, s0)
    requires s.c < |p| && s.n < |f| && p[s.c] != STAR && Accepts(p[s.c], f[s.n])
    ensures Good(p, f, t) && Lower(p, f, t, s0)
  {
    if s.star {
      Save(p, f, s.c, s.n, s.stack);
      SaveLowers(p, f, s, s0);
      t := Place(s.c + 1, s.n + 1, false, Push(s.stack, Entry(s.c, s.n)));
    } else {
      Advance(p, f, s.c, s.n, s.stack);
      AdvanceLowers(p, f, s, s0);
      t := Place(s.c + 1, s.n + 1, false, s.stack);
    }
  }

  /** A mismatch: back to the position saved last, or the end if there is none. */
  method GoBack(p: seq<Cluster>, f: seq<Cluster>, s: Place, ghost s0: Place) returns (done: bool, t: Place)
    requires Good(p, f, s) && Good(p, f, s0) && After(s, s0)
    requires Matches(p, f) ==> !s.star && !Matches(p[s.c..], f[s.n..])
    ensures done ==> !Matches(p, f)
    ensures !done ==> Good(p, f, t) && Lower(p, f, t, s0)
  {
    if s.stack == [] {
      NoneLeft(p, f, s.c, s.n, s.star);
      return true, s;
    }
    var e := Top(s.stack);
    assert Saved(p, f, e);
    Backtrack(p, f, s.c, s.n, s.star, s.stack);
    BackLowers(p, f, s, s0);
    return false, Place(e.c, e.f + 1, true, s.stack[..|s.stack| - 1]);
  }

  /** One turn of the loop. */
  method Turn(p: seq<Cluster>, f: seq<Cluster>, s0: Place) returns (done: bool, match_: bool, t: Place)
    requires Good(p, f, s0)
    ensures done ==> match_ == Matches(p, f)
    ensures !done ==> Good(p, f, t) && Lower(p, f, t, s0)
  {
    done, match_, t := false, false, s0;
    var c, star, accept := ConsumeStars(p, f, s0.c, s0.n, s0.star, s0.stack);
    if accept {
      return true, true, t;
    }
    t := Place(c, s0.n, star, s0.stack);
    if t.c == |p| && t.n == |f| {
      BothUsedUp(p, f, t.star, t.stack);
      return true, true, t;
    } else if t.c < |p| && t.n < |f| && Accepts(p[t.c], f[t.n]) {
      t := Take(p, f, t, s0);
    } else if t.c < |p| && t.n < |f| && t.star {
      StarTakes(p, f, t.c, t.n, t.stack);
      StretchLowers(p, f, t, s0);
      t := t.(n := t.n + 1);
    } else {
      Failed(p, f, t.c, t.n, t.star, t.stack);
      done, t := GoBack(p, f, t, s0);
    }
  }

  /**
   The matcher terminates and accepts exactly the names the pattern matches, although its stack
   never holds more than the first and the latest saved position.
   */
  method MatchesNameCriteria(p: seq<Cluster>, f: seq<Cluster>) returns (match_: bool)
    ensures match_ == Matches(p, f)
  {
    if p == [] {
      return f == [];
    }
    InvStart(p, f);
    var s := Place(0, 0, false, []);
    while true
      invariant Good(p, f, s)
      decreases BaseRank(f, s.n, s.star, s.stack), StarRank(p, s.c, s.star, s.stack),
                StretchRank(f, s.n, s.star, s.stack), |p| - s.c, |f| - s.n
    {
      var done, verdict, t := Turn(p, f, s);
      if done {
        return verdict;
      }
      s := t;
    }
  }
}
