// Splitting a group list over several buffers, and why the order in which the
// buffers are read does not matter.
module GroupBuffers {
  import opened Types
  import opened Groups
  import opened GroupBookkeeping
  import opened GroupCodec

  // ------------------------------------------------------------------- writing

  function DmnSize(d: Dmn): nat {
    DAEMON_INFO_SIZE + MAX_GROUP_NAME * |d.members|
  }

  function Sizes(ds: seq<Dmn>): nat {
    if ds == [] then 0 else DmnSize(ds[0]) + Sizes(ds[1..])
  }

  // How many of the daemons go into a buffer of which `used` bytes are taken.
  function Fitting(used: int, ds: seq<Dmn>): (k: nat)
    ensures k <= |ds|
    decreases |ds|
  {
    if ds == [] || DmnSize(ds[0]) + MESSAGE_HEADER_SIZE > GROUPS_BUF_SIZE - used then 0
    else 1 + Fitting(used + DmnSize(ds[0]), ds[1..])
  }

  // Every daemon goes out with the membership id of its group.
  function AsSent(g: Grp, ds: seq<Dmn>): Grp {
    g.(dmns := seq(|ds|, x requires 0 <= x < |ds| => ds[x].(memb := g.id.memb)))
  }

  // What one buffer takes of the groups from `gs` on, and what is left.
  datatype Cut = Cut(chunks: seq<Grp>, rest: seq<Grp>)

  function CutGroups(used: int, gs: seq<Grp>): Cut
    decreases |gs|
  {
    if gs == [] || GROUP_INFO_SIZE + MESSAGE_HEADER_SIZE > GROUPS_BUF_SIZE - used then Cut([], gs)
    else
      var g := gs[0];
      var at := used + GROUP_INFO_SIZE;
      var k := Fitting(at, g.dmns);
      var c := AsSent(g, g.dmns[..k]);
      if k < |g.dmns| then Cut([c], [g.(dmns := g.dmns[k..])] + gs[1..])
      else
        var r := CutGroups(at + Sizes(g.dmns), gs[1..]);
        Cut([c] + r.chunks, r.rest)
  }

  // A daemon that does not even fit into a buffer that holds nothing else.
  predicate TooBig(d: Dmn) {
    PREAMBLE_SIZE + GROUP_INFO_SIZE + DmnSize(d) + MESSAGE_HEADER_SIZE > GROUPS_BUF_SIZE
  }

  predicate Sendable(gs: seq<Grp>) {
    forall x, y :: 0 <= x < |gs| && 0 <= y < |gs[x].dmns| ==> !TooBig(gs[x].dmns[y])
  }

  function Todo(gs: seq<Grp>): nat {
    if gs == [] then 0 else 1 + |gs[0].dmns| + Todo(gs[1..])
  }

  lemma {:induction false} CutShrinks(used: int, gs: seq<Grp>)
    ensures Todo(CutGroups(used, gs).rest) <= Todo(gs)
    decreases |gs|
  {
    if gs != [] && GROUP_INFO_SIZE + MESSAGE_HEADER_SIZE <= GROUPS_BUF_SIZE - used {
      CutShrinks(used + GROUP_INFO_SIZE + Sizes(gs[0].dmns), gs[1..]);
      var k := Fitting(used + GROUP_INFO_SIZE, gs[0].dmns);
      if k < |gs[0].dmns| { assert CutGroups(used, gs).rest[1..] == gs[1..]; }
    }
  }

  // A later buffer always takes something.
  lemma {:induction false} CutProgress(gs: seq<Grp>)
    requires gs != [] && Sendable(gs)
    ensures Todo(CutGroups(PREAMBLE_SIZE, gs).rest) < Todo(gs) && Sendable(CutGroups(PREAMBLE_SIZE, gs).rest)
  {
    var g, at := gs[0], PREAMBLE_SIZE + GROUP_INFO_SIZE;
    CutShrinks(at + Sizes(g.dmns), gs[1..]);
    CutSendable(PREAMBLE_SIZE, gs);
    var k := Fitting(at, g.dmns);
    if k < |g.dmns| { assert CutGroups(PREAMBLE_SIZE, gs).rest[1..] == gs[1..]; }
  }

  lemma {:induction false} CutSendable(used: int, gs: seq<Grp>)
    requires Sendable(gs)
    ensures Sendable(CutGroups(used, gs).rest)
    decreases |gs|
  {
    if gs != [] && GROUP_INFO_SIZE + MESSAGE_HEADER_SIZE <= GROUPS_BUF_SIZE - used {
      CutSendable(used + GROUP_INFO_SIZE + Sizes(gs[0].dmns), gs[1..]);
    }
  }

  // The chunks of all later buffers.
  function LaterChunks(gs: seq<Grp>): seq<seq<Grp>>
    requires Sendable(gs)
    decreases Todo(gs)
  {
    if gs == [] then []
    else
      CutProgress(gs);
      [CutGroups(PREAMBLE_SIZE, gs).chunks] + LaterChunks(CutGroups(PREAMBLE_SIZE, gs).rest)
  }

  // G_build_new_groups_bufs: the chunks of each buffer.  The first one holds the
  // synced set, too.
  function AllChunks(synced: nat, gs: seq<Grp>): seq<seq<Grp>>
    requires Sendable(gs)
  {
    var used := PREAMBLE_SIZE + 4 + 4 * synced;
    CutSendable(used, gs);
    [CutGroups(used, gs).chunks] + LaterChunks(CutGroups(used, gs).rest)
  }

  // ------------------------------------------------------- rows: nothing is lost

  // One daemon of one group.
  datatype Row = Row(name: Name, dmn: Dmn)

  function RowsOf(g: Grp): seq<Row> {
    seq(|g.dmns|, x requires 0 <= x < |g.dmns| => Row(g.name, g.dmns[x].(memb := g.id.memb)))
  }

  function Rows(gs: seq<Grp>): seq<Row> {
    if gs == [] then [] else RowsOf(gs[0]) + Rows(gs[1..])
  }

  lemma {:induction false} RowsConcat(a: seq<Grp>, b: seq<Grp>)
    ensures Rows(a + b) == Rows(a) + Rows(b)
    decreases |a|
  {
    if a == [] {
      assert a + b == b;
    } else {
      RowsConcat(a[1..], b);
      assert (a + b)[1..] == a[1..] + b;
    }
  }

  // A group that is split over two buffers.
  lemma {:induction false} SplitRows(g: Grp, k: nat, more: seq<Grp>)
    requires k <= |g.dmns|
    ensures Rows([AsSent(g, g.dmns[..k])]) + Rows([g.(dmns := g.dmns[k..])] + more) == RowsOf(g) + Rows(more)
  {
    var c, h := AsSent(g, g.dmns[..k]), g.(dmns := g.dmns[k..]);
    assert RowsOf(c) + RowsOf(h) == RowsOf(g);
    assert Rows([c]) == RowsOf(c) + Rows([]);
    assert ([h] + more)[1..] == more;
  }

  lemma {:induction false} SentRows(g: Grp, more: seq<Grp>)
    ensures Rows([AsSent(g, g.dmns)] + more) == RowsOf(g) + Rows(more)
  {
    assert RowsOf(AsSent(g, g.dmns)) == RowsOf(g);
    assert ([AsSent(g, g.dmns)] + more)[1..] == more;
  }

  lemma {:induction false} CutRows(used: int, gs: seq<Grp>)
    ensures Rows(CutGroups(used, gs).chunks) + Rows(CutGroups(used, gs).rest) == Rows(gs)
    decreases |gs|
  {
    hide Fitting, Sizes, AsSent, RowsOf;
    if gs != [] && GROUP_INFO_SIZE + MESSAGE_HEADER_SIZE <= GROUPS_BUF_SIZE - used {
      var g, at := gs[0], used + GROUP_INFO_SIZE;
      var k := Fitting(at, g.dmns);
      if k < |g.dmns| {
        SplitRows(g, k, gs[1..]);
      } else {
        CutRows(at + Sizes(g.dmns), gs[1..]);
        assert g.dmns[..k] == g.dmns;
        SentRows(g, CutGroups(at + Sizes(g.dmns), gs[1..]).chunks);
      }
    }
  }

  function Flatten(bs: seq<seq<Grp>>): seq<Grp> {
    if bs == [] then [] else bs[0] + Flatten(bs[1..])
  }

  lemma {:induction false} LaterRows(gs: seq<Grp>)
    requires Sendable(gs)
    ensures Rows(Flatten(LaterChunks(gs))) == Rows(gs)
    decreases Todo(gs)
  {
    if gs != [] {
      CutProgress(gs);
      var c := CutGroups(PREAMBLE_SIZE, gs);
      CutRows(PREAMBLE_SIZE, gs);
      LaterRows(c.rest);
      RowsConcat(c.chunks, Flatten(LaterChunks(c.rest)));
      assert LaterChunks(gs)[1..] == LaterChunks(c.rest);
    }
  }

  // All buffers together hold every daemon of every group once, in order.
  lemma {:induction false} BuffersHoldAll(synced: nat, gs: seq<Grp>)
    requires Sendable(gs)
    ensures Rows(Flatten(AllChunks(synced, gs))) == Rows(gs)
  {
    var used := PREAMBLE_SIZE + 4 + 4 * synced;
    CutSendable(used, gs);
    var c := CutGroups(used, gs);
    CutRows(used, gs);
    LaterRows(c.rest);
    RowsConcat(c.chunks, Flatten(LaterChunks(c.rest)));
    assert AllChunks(synced, gs)[1..] == LaterChunks(c.rest);
  }

  // ------------------------------------------------------------------ the sizes

  function GrpSize(g: Grp): nat {
    GROUP_INFO_SIZE + Sizes(g.dmns)
  }

  function TotalSize(gs: seq<Grp>): nat {
    if gs == [] then 0 else GrpSize(gs[0]) + TotalSize(gs[1..])
  }

  lemma {:induction false} FittingSize(used: int, ds: seq<Dmn>)
    requires used + MESSAGE_HEADER_SIZE <= GROUPS_BUF_SIZE
    ensures used + Sizes(ds[..Fitting(used, ds)]) + MESSAGE_HEADER_SIZE <= GROUPS_BUF_SIZE
    decreases |ds|
  {
    var k := Fitting(used, ds);
    if k > 0 {
      FittingSize(used + DmnSize(ds[0]), ds[1..]);
      assert ds[..k][1..] == ds[1..][..k - 1];
    }
  }

  lemma {:induction false} SizesSent(g: Grp, ds: seq<Dmn>)
    ensures Sizes(AsSent(g, ds).dmns) == Sizes(ds)
    decreases |ds|
  {
    if ds != [] {
      SizesSent(g, ds[1..]);
      assert AsSent(g, ds).dmns[1..] == AsSent(g, ds[1..]).dmns;
    }
  }

  lemma {:induction false} TotalOne(c: Grp, more: seq<Grp>)
    ensures TotalSize([c] + more) == GrpSize(c) + TotalSize(more)
  {
    assert ([c] + more)[1..] == more;
  }

  // No buffer grows beyond GROUPS_BUF_SIZE, message header included.
  lemma {:induction false} CutSize(used: int, gs: seq<Grp>)
    requires used + MESSAGE_HEADER_SIZE <= GROUPS_BUF_SIZE
    ensures used + TotalSize(CutGroups(used, gs).chunks) + MESSAGE_HEADER_SIZE <= GROUPS_BUF_SIZE
    decreases |gs|
  {
    hide Fitting, Sizes, AsSent, TotalSize;
    if gs == [] || GROUP_INFO_SIZE + MESSAGE_HEADER_SIZE > GROUPS_BUF_SIZE - used {
      NoneSize();
    } else {
      var g, at := gs[0], used + GROUP_INFO_SIZE;
      var k := Fitting(at, g.dmns);
      var c := AsSent(g, g.dmns[..k]);
      FittingSize(at, g.dmns);
      SizesSent(g, g.dmns[..k]);
      if k < |g.dmns| {
        TotalOne(c, []);
        NoneSize();
        assert [c] + [] == [c];
      } else {
        assert g.dmns[..k] == g.dmns;
        CutSize(at + Sizes(g.dmns), gs[1..]);
        TotalOne(c, CutGroups(at + Sizes(g.dmns), gs[1..]).chunks);
      }
    }
  }

  lemma {:induction false} NoneSize()
    ensures TotalSize([]) == 0
  {
  }

  // A buffer is closed only when what comes next does not fit.
  lemma {:induction false} FittingFull(used: int, ds: seq<Dmn>)
    requires Fitting(used, ds) < |ds|
    ensures var k := Fitting(used, ds);
            GROUPS_BUF_SIZE < used + Sizes(ds[..k]) + DmnSize(ds[k]) + MESSAGE_HEADER_SIZE
    decreases |ds|
  {
    var k := Fitting(used, ds);
    if k > 0 {
      FittingFull(used + DmnSize(ds[0]), ds[1..]);
      assert ds[..k][1..] == ds[1..][..k - 1];
    } else {
      assert ds[..0] == [];
    }
  }

  lemma {:induction false} CutFull(used: int, gs: seq<Grp>)
    requires CutGroups(used, gs).rest != []
    ensures var c := CutGroups(used, gs);
            var next := GROUP_INFO_SIZE + (if c.rest[0].dmns == [] then 0 else DmnSize(c.rest[0].dmns[0]));
            GROUPS_BUF_SIZE < used + TotalSize(c.chunks) + next + MESSAGE_HEADER_SIZE
    decreases |gs|
  {
    hide Fitting, Sizes, AsSent, TotalSize;
    if GROUP_INFO_SIZE + MESSAGE_HEADER_SIZE > GROUPS_BUF_SIZE - used {
      NoneSize();
    } else {
      var g, at := gs[0], used + GROUP_INFO_SIZE;
      var k := Fitting(at, g.dmns);
      var c := AsSent(g, g.dmns[..k]);
      SizesSent(g, g.dmns[..k]);
      if k < |g.dmns| {
        FittingFull(at, g.dmns);
        TotalOne(c, []);
        NoneSize();
        assert [c] + [] == [c];
      } else {
        assert g.dmns[..k] == g.dmns;
        CutFull(at + Sizes(g.dmns), gs[1..]);
        TotalOne(c, CutGroups(at + Sizes(g.dmns), gs[1..]).chunks);
      }
    }
  }

  // ------------------------------------------------------------- does it end?

  // What is left of the list when `j` more buffers have been built.
  function LeftAfter(gs: seq<Grp>, j: nat): seq<Grp>
    decreases j
  {
    if j == 0 then gs else LeftAfter(CutGroups(PREAMBLE_SIZE, gs).rest, j - 1)
  }

  ghost predicate ComesToEnd(gs: seq<Grp>) {
    exists j: nat :: LeftAfter(gs, j) == []
  }

  lemma {:induction false} NoRoom(used: int, ds: seq<Dmn>, y: nat)
    requires y < |ds| && TooBig(ds[y]) && used >= PREAMBLE_SIZE + GROUP_INFO_SIZE
    ensures Fitting(used, ds) <= y
    decreases |ds|
  {
    if y > 0 { NoRoom(used + DmnSize(ds[0]), ds[1..], y - 1); }
  }

  lemma {:induction false} BigStays(used: int, gs: seq<Grp>, x: nat, y: nat)
    requires x < |gs| && y < |gs[x].dmns| && TooBig(gs[x].dmns[y]) && used >= PREAMBLE_SIZE
    ensures !Sendable(CutGroups(used, gs).rest)
    decreases |gs|
  {
    hide TooBig, Sizes, Fitting, AsSent;
    var r := CutGroups(used, gs).rest;
    if GROUP_INFO_SIZE + MESSAGE_HEADER_SIZE <= GROUPS_BUF_SIZE - used {
      var g, at := gs[0], used + GROUP_INFO_SIZE;
      var k := Fitting(at, g.dmns);
      if x == 0 {
        NoRoom(at, g.dmns, y);
        assert r[0].dmns[y - k] == g.dmns[y];
      } else if k < |g.dmns| {
        assert r[x] == gs[x];
      } else {
        BigStays(at + Sizes(g.dmns), gs[1..], x - 1, y);
      }
    }
  }

  lemma {:induction false} NeverEnds(gs: seq<Grp>, j: nat)
    requires !Sendable(gs)
    ensures LeftAfter(gs, j) != []
    decreases j
  {
    hide CutGroups;
    if j > 0 {
      var x, y :| 0 <= x < |gs| && 0 <= y < |gs[x].dmns| && TooBig(gs[x].dmns[y]);
      BigStays(PREAMBLE_SIZE, gs, x, y);
      NeverEnds(CutGroups(PREAMBLE_SIZE, gs).rest, j - 1);
    }
  }

  lemma {:induction false} EndsAfter(gs: seq<Grp>) returns (j: nat)
    requires Sendable(gs)
    ensures LeftAfter(gs, j) == []
    decreases Todo(gs)
  {
    hide CutGroups, Sendable, Todo;
    j := 0;
    if gs != [] {
      CutProgress(gs);
      var i := EndsAfter(CutGroups(PREAMBLE_SIZE, gs).rest);
      j := i + 1;
    }
  }

  // G_build_new_groups_bufs comes to an end exactly when every daemon's members
  // fit into a fresh buffer.
  lemma {:induction false} BuildingEnds(synced: nat, gs: seq<Grp>)
    ensures ComesToEnd(CutGroups(PREAMBLE_SIZE + 4 + 4 * synced, gs).rest) <==> Sendable(gs)
  {
    var used := PREAMBLE_SIZE + 4 + 4 * synced;
    var rest := CutGroups(used, gs).rest;
    if Sendable(gs) {
      CutSendable(used, gs);
      var j := EndsAfter(rest);
      assert LeftAfter(rest, j) == [];
    } else {
      var x, y :| 0 <= x < |gs| && 0 <= y < |gs[x].dmns| && TooBig(gs[x].dmns[y]);
      BigStays(used, gs, x, y);
      forall j: nat ensures LeftAfter(rest, j) != [] { NeverEnds(rest, j); }
    }
  }
}
