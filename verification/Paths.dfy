/**
 Path text: splitting at slashes and joining with them. Names are byte strings, as on disk; their
 length is counted in UTF-8 code points (pathname_strlen, src/libltfs/pathname.c).
 */
module Paths {
  import opened Bytes

  const FILENAME_MAX := 255

  /** The code points of a well-formed UTF-8 string: its bytes, but for continuation bytes. */
  function Points(name: seq<byte>): nat {
    if name == [] then 0 else (if name[0] < 128 || name[0] >= 192 then 1 else 0) + Points(name[1..])
  }

  predicate SlashFree(s: seq<byte>) {
    forall i :: 0 <= i < |s| ==> s[i] != SLASH
  }

  /** Where the first slash is, or the length if there is none. */
  function FirstSlash(s: seq<byte>): (k: nat)
    ensures k <= |s| && SlashFree(s[..k]) && (k < |s| ==> s[k] == SLASH)
  {
    if s == [] || s[0] == SLASH then 0
    else
      assert s[..1 + FirstSlash(s[1..])] == [s[0]] + s[1..][..FirstSlash(s[1..])];
      1 + FirstSlash(s[1..])
  }

  /** The components of what follows the leading slash of a path. */
  function Split(s: seq<byte>): (names: seq<seq<byte>>)
    ensures names != [] && forall i :: 0 <= i < |names| ==> SlashFree(names[i])
  {
    var k := FirstSlash(s);
    if k == |s| then [s[..k]] else [s[..k]] + Split(s[k + 1..])
  }

  function Join(names: seq<seq<byte>>): seq<byte>
    requires names != []
  {
    if |names| == 1 then names[0] else names[0] + [SLASH] + Join(names[1..])
  }

  lemma SplitOne(a: seq<byte>)
    requires SlashFree(a)
    ensures Split(a) == [a]
  {
    assert FirstSlash(a) == |a|;
    assert a[..|a|] == a;
  }

  lemma SplitCons(a: seq<byte>, rest: seq<byte>)
    requires SlashFree(a)
    ensures Split(a + [SLASH] + rest) == [a] + Split(rest)
  {
    var s := a + [SLASH] + rest;
    var k := FirstSlash(s);
    assert forall i :: 0 <= i < k ==> s[i] == s[..k][i];
    assert forall i :: 0 <= i < |a| ==> s[i] == a[i];
    assert s[|a|] == SLASH;
    assert s[..k] == a && s[k + 1..] == rest;
  }

  lemma {:induction false} SplitJoin(names: seq<seq<byte>>)
    requires names != [] && forall i :: 0 <= i < |names| ==> SlashFree(names[i])
    ensures Split(Join(names)) == names
  {
    if |names| == 1 {
      SplitOne(names[0]);
    } else {
      SplitJoin(names[1..]);
      SplitCons(names[0], Join(names[1..]));
    }
  }

  lemma {:induction false} JoinSplit(s: seq<byte>)
    ensures Join(Split(s)) == s
    decreases |s|
  {
    var k := FirstSlash(s);
    if k == |s| {
      assert s[..k] == s;
    } else {
      JoinSplit(s[k + 1..]);
      JoinCons(s[..k], Split(s[k + 1..]));
      assert s == s[..k] + [SLASH] + s[k + 1..];
    }
  }

  lemma JoinCons(a: seq<byte>, names: seq<seq<byte>>)
    requires names != []
    ensures Join([a] + names) == a + [SLASH] + Join(names)
  {
    assert ([a] + names)[1..] == names;
  }
}
