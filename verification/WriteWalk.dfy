/**
 unified_write (src/iosched/unified.c) as a machine over the request list.

 The walk visits the list from the front. Its state is the list `l`, the index `i` of the
 request being visited, the index `p` of the last request it settled (-1 when prev_req is NULL),
 the write still to be placed (`d` at offset `o`), and the number of cache blocks that can be
 taken without waiting. When none is left the write stalls: the scheduler releases the file's
 lock and later starts again with the rest of the write.
 */
module WriteWalk {
  import opened Bytes
  import opened Requests
  import opened RequestOps

  datatype Status = Running | Finished | Stalled

  datatype Walk = Walk(l: seq<Request>, i: nat, p: int, o: nat, d: seq<byte>, blocks: nat, status: Status)

  /** What every point of a walk satisfies, whatever the write. */
  ghost predicate Sane(w: Walk, c: nat) {
    && Sized(w.l, c) && w.i <= |w.l| && -1 <= w.p < w.i
  }

  /** Insert a new request for the rest of the write before request `i`, if it starts earlier. */
  function InsertBefore(w: Walk, c: nat): Walk
    requires w.i < |w.l|
  {
    if w.d == [] || w.o >= w.l[w.i].offset then w
    else if w.blocks == 0 then w.(status := Stalled)
    else w.(l := InsertAt(w.l, w.i, NewRequest(w.o, w.d, c)), i := w.i + 1, p := w.i,
            o := w.o + |w.d|, d := [], blocks := w.blocks - 1)
  }

  /** Merge the visited request into the settled one, and stop if nothing more can change. */
  function Settle(w: Walk, c: nat): Walk
    requires Sane(w, c) && w.i < |w.l|
  {
    var m := if w.p < 0 then Merge(w.l, 0) else MergeAt(w.l, w.p, w.i, c);
    if m.result == 2 then w.(l := m.list, blocks := w.blocks + 1)
    else if w.d == [] then
      w.(l := m.list, p := w.i, i := w.i + 1, status := if m.result == 0 then Finished else Running)
    else w.(l := m.list)
  }

  /** The tail of the loop body after the visited request was pushed behind the write position. */
  function Replace(w: Walk, c: nat): Walk
    requires Sane(w, c) && w.i < |w.l| && w.d != [] && w.o < w.l[w.i].offset && 1 <= c
  {
    var w1 := InsertBefore(w, c);
    if w1.status == Stalled then w1 else Settle(w1, c)
  }

  /** The write ends inside the visited index-partition request: make room for it there. */
  function Carve(w: Walk): Walk
    requires w.i < |w.l| && w.l[w.i].offset <= w.o && w.o + |w.d| < w.l[w.i].End()
  {
    var r := w.l[w.i];
    var k := w.o - r.offset;
    if k == 0 then
      w.(l := w.l[w.i := Request(r.offset + |w.d|, r.data[|w.d|..], r.state)])
    else if w.blocks == 0 then w.(status := Stalled)
    else
      var tail := Request(w.o + |w.d|, r.data[k + |w.d|..], IP);
      w.(l := InsertAt(w.l[w.i := r.(data := r.data[..k])], w.i + 1, tail),
         i := w.i + 1, blocks := w.blocks - 1)
  }

  /** The visited request is for the index partition and holds bytes the write replaces. */
  function CutIP(w: Walk, c: nat): Walk
    requires Sane(w, c) && w.i < |w.l| && w.d != [] && w.l[w.i].Covers(w.o) && 1 <= c
  {
    var r := w.l[w.i];
    if w.o + |w.d| < r.End() then
      var v := Carve(w);
      if v.status == Stalled then v else Replace(v, c)
    else if w.o == r.offset then
      w.(l := Remove(w.l, w.i), blocks := w.blocks + 1)
    else
      w.(l := w.l[w.i := r.(data := r.data[..w.o - r.offset])], p := w.i, i := w.i + 1)
  }

  /** The visited request and the rest of the write. */
  function Place(w: Walk, c: nat): Walk
    requires Sane(w, c) && w.i < |w.l| && w.d != [] && w.o <= w.l[w.i].End() && 1 <= c
  {
    var r := w.l[w.i];
    if w.o < r.offset then Replace(w, c)
    else if r.state != IP && (w.o < r.End() || |r.data| < c) then
      var k := Taken(r, w.o, w.d, c);
      w.(l := Update(w.l, w.i, w.o, w.d, c), p := w.i, i := w.i + 1, o := w.o + k, d := w.d[k..])
    else if r.state == IP && w.o < r.End() then CutIP(w, c)
    else w.(p := w.i, i := w.i + 1)
  }

  /** Merge, then place what is left of the write at the visited request unless that is gone. */
  function Visit(w: Walk, c: nat): Walk
    requires Sane(w, c) && w.i < |w.l| && 1 <= c
    requires w.d != [] ==> w.o <= w.l[w.i].End()
  {
    var v := Settle(w, c);
    if w.d == [] || |v.l| < |w.l| then v else Place(v, c)
  }

  /** One iteration of the loop over the requests. */
  function Step(w: Walk, c: nat): Walk
    requires Sane(w, c) && w.i < |w.l| && 1 <= c
  {
    if w.o > w.l[w.i].End() then w.(i := w.i + 1)
    else
      var v := InsertBefore(w, c);
      if v.status == Stalled then v else Visit(v, c)
  }

  // ---- Clean steps ----

  /** Inserting the rest of the write here stores all of it, and over no settled request. */
  predicate InsertOk(w: Walk, c: nat)
    requires w.p < |w.l|
  {
    |w.d| <= c && (w.p < 0 || w.l[w.p].End() <= w.o)
  }

  /**
   The step passes over no request once one was settled, an insertion is `InsertOk`, and the
   merge at the top of the loop does not push the visited request behind the write position.
   */
  predicate CleanStep(w: Walk, c: nat)
    requires Sane(w, c) && w.i < |w.l|
  {
    var r := w.l[w.i];
    if w.o > r.End() then w.p < 0
    else if w.d == [] then true
    else if w.o < r.offset then InsertOk(w, c)
    else
      var v := Settle(w, c);
      |v.l| < |w.l| || v.l[w.i].offset <= w.o
  }
}
