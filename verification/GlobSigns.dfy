/**
 What each sign of a pattern stands for, wherever it is in the pattern (src/libltfs/index_criteria.c:
 _matches_name_criteria_caseless): code unit 0x2a alone any part of the name, code unit 0x3f alone any one
 grapheme cluster, and every other cluster itself.
 */
module GlobSigns {
  import opened Glob

  /** A pattern in two parts cuts the name in two. */
  lemma {:induction false} SplitMatch(a: seq<Cluster>, b: seq<Cluster>, f: seq<Cluster>) returns (n: nat)
    requires Matches(a + b, f)
    ensures n <= |f| && Matches(a, f[..n]) && Matches(b, f[n..])
    decreases |a| + |f|
  {
    if a == [] {
      assert a + b == b && f[0..] == f;
      n := 0;
    } else {
      assert (a + b)[0] == a[0] && (a + b)[1..] == a[1..] + b;
      if a[0] == STAR && Matches(a[1..] + b, f) {
        n := SplitMatch(a[1..], b, f);
      } else {
        var m := SplitMatch(if a[0] == STAR then a else a[1..], b, f[1..]);
        n := m + 1;
        assert f[..n][0] == f[0] && f[..n][1..] == f[1..][..m] && f[n..] == f[1..][m..];
      }
    }
  }

  /** A sign in the middle of a pattern: the name has a part for what is before it, for it, and for what is behind. */
  lemma MiddleMatch(a: seq<Cluster>, c: Cluster, b: seq<Cluster>, f: seq<Cluster>) returns (i: nat, j: nat)
    requires Matches(a + [c] + b, f)
    ensures i <= j <= |f| && Matches(a, f[..i]) && Matches([c], f[i..j]) && Matches(b, f[j..])
  {
    j := SplitMatch(a + [c], b, f);
    i := SplitMatch(a, [c], f[..j]);
    assert f[..j][..i] == f[..i] && f[..j][i..] == f[i..j];
  }

  lemma JoinMatch(a: seq<Cluster>, c: Cluster, b: seq<Cluster>, f: seq<Cluster>, i: nat, j: nat)
    requires i <= j <= |f| && Matches(a, f[..i]) && Matches([c], f[i..j]) && Matches(b, f[j..])
    ensures Matches(a + [c] + b, f)
  {
    MatchesConcat(a, f[..i], [c], f[i..j]);
    MatchesConcat(a + [c], f[..i] + f[i..j], b, f[j..]);
    assert f[..i] + f[i..j] + f[j..] == f;
  }

  /** The part of a name that one sign stands for. */
  lemma OneSign(c: Cluster, piece: seq<Cluster>)
    ensures c == [0x2a] ==> Matches([c], piece)
    ensures c == [0x3f] ==> (Matches([c], piece) <==> |piece| == 1)
    ensures c != [0x2a] && c != [0x3f] ==> (Matches([c], piece) <==> piece == [c])
  {
    assert [c][1..] == [];
    if c == [0x2a] {
      StarMatchesAll(piece);
    } else if piece != [] {
      assert piece[1..] == [] <==> |piece| == 1;
      assert |piece| == 1 ==> piece == [piece[0]];
    }
  }

  lemma QuestionMarkAt(a: seq<Cluster>, b: seq<Cluster>, f: seq<Cluster>) returns (n: nat)
    requires Matches(a + [[0x3f]] + b, f)
    ensures n < |f| && Matches(a, f[..n]) && Matches(b, f[n + 1..])
  {
    var i, j := MiddleMatch(a, [0x3f], b, f);
    OneSign([0x3f], f[i..j]);
    n := i;
  }

  lemma QuestionMarkJoins(a: seq<Cluster>, b: seq<Cluster>, f: seq<Cluster>, n: nat)
    requires n < |f| && Matches(a, f[..n]) && Matches(b, f[n + 1..])
    ensures Matches(a + [[0x3f]] + b, f)
  {
    OneSign([0x3f], f[n..n + 1]);
    JoinMatch(a, [0x3f], b, f, n, n + 1);
  }

  /** A question mark takes any one cluster of the name, and no more and no less. */
  lemma QuestionMarkTakesOne(a: seq<Cluster>, b: seq<Cluster>, f: seq<Cluster>)
    ensures Matches(a + [[0x3f]] + b, f) <==>
      exists n :: 0 <= n < |f| && Matches(a, f[..n]) && Matches(b, f[n + 1..])
  {
    if Matches(a + [[0x3f]] + b, f) {
      var n := QuestionMarkAt(a, b, f);
    }
    if n :| 0 <= n < |f| && Matches(a, f[..n]) && Matches(b, f[n + 1..]) {
      QuestionMarkJoins(a, b, f, n);
    }
  }

  /** A star takes any part of the name, the empty one included. */
  lemma StarTakesAny(a: seq<Cluster>, b: seq<Cluster>, f: seq<Cluster>)
    ensures Matches(a + [[0x2a]] + b, f) <==>
      exists i, j :: 0 <= i <= j <= |f| && Matches(a, f[..i]) && Matches(b, f[j..])
  {
    if Matches(a + [[0x2a]] + b, f) {
      var i, j := MiddleMatch(a, [0x2a], b, f);
    }
    if i, j :| 0 <= i <= j <= |f| && Matches(a, f[..i]) && Matches(b, f[j..]) {
      OneSign([0x2a], f[i..j]);
      JoinMatch(a, [0x2a], b, f, i, j);
    }
  }

  lemma OtherAt(a: seq<Cluster>, c: Cluster, b: seq<Cluster>, f: seq<Cluster>) returns (n: nat)
    requires c != [0x2a] && c != [0x3f] && Matches(a + [c] + b, f)
    ensures n < |f| && f[n] == c && Matches(a, f[..n]) && Matches(b, f[n + 1..])
  {
    var i, j := MiddleMatch(a, c, b, f);
    OneSign(c, f[i..j]);
    assert f[i] == f[i..j][0];
    n := i;
  }

  lemma OtherJoins(a: seq<Cluster>, c: Cluster, b: seq<Cluster>, f: seq<Cluster>, n: nat)
    requires c != [0x2a] && c != [0x3f]
    requires n < |f| && f[n] == c && Matches(a, f[..n]) && Matches(b, f[n + 1..])
    ensures Matches(a + [c] + b, f)
  {
    OneSign(c, f[n..n + 1]);
    JoinMatch(a, c, b, f, n, n + 1);
  }

  /** Every other cluster takes exactly itself. */
  lemma OtherTakesItself(a: seq<Cluster>, c: Cluster, b: seq<Cluster>, f: seq<Cluster>)
    requires c != [0x2a] && c != [0x3f]
    ensures Matches(a + [c] + b, f) <==>
      exists n :: 0 <= n < |f| && f[n] == c && Matches(a, f[..n]) && Matches(b, f[n + 1..])
  {
    if Matches(a + [c] + b, f) {
      var n := OtherAt(a, c, b, f);
    }
    if n :| 0 <= n < |f| && f[n] == c && Matches(a, f[..n]) && Matches(b, f[n + 1..]) {
      OtherJoins(a, c, b, f, n);
    }
  }

  /** A pattern without those two signs matches exactly the name that it spells. */
  lemma {:induction false} PlainPattern(p: seq<Cluster>, f: seq<Cluster>)
    requires [0x2a] !in p && [0x3f] !in p
    ensures Matches(p, f) <==> f == p
  {
    if p != [] && f != [] {
      assert p[0] in p && forall c :: c in p[1..] ==> c in p;
      PlainPattern(p[1..], f[1..]);
      assert p == [p[0]] + p[1..] && f == [f[0]] + f[1..];
    }
  }
}
