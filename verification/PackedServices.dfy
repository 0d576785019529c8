// Which messages share a packet: those of one service, or FIFO and AGREED ones.
// So a message is delivered with the guarantee that it was sent for.
module PackedServices {
  import opened Types
  import opened RingArith
  import opened Packing
  import R = OpRing
  import T = OpTheorems

  // One fragment of a message that waits to be sent.
  datatype Element = Element(service: Service, frag: seq<Byte>)

  function MessageElements(m: Message): seq<Element> {
    seq(|m.frags|, x requires 0 <= x < |m.frags| => Element(m.service, m.frags[x]))
  }

  function AllElements(ms: seq<Message>): seq<Element> {
    if ms == [] then [] else MessageElements(ms[0]) + AllElements(ms[1..])
  }

  // What is left to send, in order.
  function Waiting(q: Queue): seq<Element>
    requires QueueOK(q)
  {
    AllElements(q.messages)[q.cur..]
  }

  predicate MayShare(s: Service, t: Service) {
    s == t || (s in {Fifo, Agreed} && t in {Fifo, Agreed})
  }

  function Frags(es: seq<Element>): seq<seq<Byte>> {
    seq(|es|, x requires 0 <= x < |es| => es[x].frag)
  }

  // The receiver of w finds these elements in it, and nothing else.
  ghost predicate Contains(w: Wire, es: seq<Element>) {
    && es != [] && w.service == es[0].service
    && 0 <= w.firstLen <= |w.body| && w.body[..w.firstLen] == es[0].frag
    && Inner(w.body, w.firstLen) == Parsed(Frags(es[1..]), true)
  }

  // Element e could go into packet w behind what it holds.
  predicate CouldJoin(w: Wire, e: Element) {
    && MayShare(w.service, e.service)
    && |w.body| + Padding(|w.body|) + FRAGMENT_HEADER_SIZE + |e.frag| <= PACKET_BODY_SIZE
  }

  lemma {:induction false} FromTo(es: seq<Element>, rest: seq<Element>, k: nat)
    requires k < |es|
    ensures (es + rest)[k..] == [es[k]] + (es + rest)[k + 1..]
    ensures k + 1 == |es| ==> (es + rest)[k + 1..] == rest[0..]
  {
  }

  lemma {:induction false} WaitingHead(q: Queue)
    requires QueueOK(q) && q.messages != []
    ensures var m := q.messages[0];
            && Waiting(q) == [Element(m.service, m.frags[q.cur])] + Waiting(Advance(q))
            && |m.frags[q.cur]| <= PACKET_BODY_SIZE
  {
    hide AllElements;
    var m := q.messages[0];
    ElementsUnfold(q.messages);
    FromTo(MessageElements(m), AllElements(q.messages[1..]), q.cur);
  }

  lemma {:induction false} ElementsUnfold(ms: seq<Message>)
    requires ms != []
    ensures AllElements(ms) == MessageElements(ms[0]) + AllElements(ms[1..])
  {
  }

  lemma {:induction false} WaitingEnd(q: Queue)
    requires QueueOK(q) && q.messages == []
    ensures Waiting(q) == []
  {
  }

  lemma {:induction false} FitsIsCouldJoin(w: Wire, q: Queue)
    requires QueueOK(q) && q.messages != []
    ensures var m := q.messages[0]; Fits(w, q) <==> CouldJoin(w, Element(m.service, m.frags[q.cur]))
  {
  }

  // The filling loop takes elements as long as the next one may join.
  lemma {:induction false} FillTakes(w: Wire, q: Queue) returns (k: nat)
    requires QueueOK(q)
    ensures var r, es := Fill(w, q), Waiting(q);
            && k <= |es| && Waiting(r.rest) == es[k..]
            && r.w == w.(body := r.w.body) && w.body <= r.w.body && (|w.body| <= PACKET_BODY_SIZE ==> |r.w.body| <= PACKET_BODY_SIZE)
            && (forall y :: 0 <= y < k ==> MayShare(w.service, es[y].service))
            && (k < |es| ==> !CouldJoin(r.w, es[k]))
            && Inner(r.w.body, |w.body|) == Parsed(Frags(es[..k]), true)
    decreases |q.messages|, if q.messages == [] then 0 else |q.messages[0].frags| - q.cur
  {
    hide Padding, Header, Inner, Fits, MessageOK, Append, Waiting, MayShare;
    k := 0;
    var es := Waiting(q);
    if q.messages == [] {
      WaitingEnd(q);
      NoMore(w.body);
      NotFits(w, q);
    } else {
      WaitingHead(q);
      FitsIsCouldJoin(w, q);
      if Fits(w, q) {
        AppendBytes(w, q);
        var m, u, p := q.messages[0], Append(w, q), Advance(q);
        var j := FillTakes(u, p);
        k := j + 1;
        var r := Fill(w, q);
        var f := m.frags[q.cur];
        var more := r.w.body[|u.body|..];
        assert r.w.body == u.body + more;
        assert r.w.body[..|w.body|] == w.body;
        Small(q);
        HeaderAt(r.w.body, |w.body|, FragIndex(|m.frags|, q.cur), f, more);
        assert Frags(es[..k]) == [f] + Frags(Waiting(p)[..j]);
      } else {
        NoMore(w.body);
      }
    }
    assert k == 0 ==> Frags(es[..0]) == [];
  }

  lemma {:induction false} NotFits(w: Wire, q: Queue)
    requires QueueOK(q) && q.messages == []
    ensures !Fits(w, q)
  {
  }

  // One packet takes the next k elements that wait: all have a service that goes
  // with that of the packet, and the one after them does not or finds no room.
  lemma {:induction false} PacketTakes(q: Queue) returns (k: nat)
    requires QueueOK(q) && q.messages != []
    ensures var r, es := PackOne(q), Waiting(q);
            && 1 <= k <= |es| && Waiting(r.rest) == es[k..]
            && Contains(r.w, es[..k]) && |r.w.body| <= PACKET_BODY_SIZE
            && (forall y :: 0 <= y < k ==> MayShare(r.w.service, es[y].service))
            && (k < |es| ==> !CouldJoin(r.w, es[k]))
  {
    hide Inner, Fill, MessageOK, Waiting;
    WaitingHead(q);
    var m, es := q.messages[0], Waiting(q);
    var f := m.frags[q.cur];
    var w := Wire(m.service, FragIndex(|m.frags|, q.cur), |f|, f);
    var j := FillTakes(w, Advance(q));
    k := j + 1;
    assert es[..k][1..] == Waiting(Advance(q))[..j];
    assert Fill(w, Advance(q)).w.body[..|f|] == f;
  }

  // The elements of one packet: from here to there.
  datatype Span = Span(from: nat, to: nat)

  ghost predicate CutAt(w: Wire, es: seq<Element>, s: Span) {
    && s.from < s.to <= |es| && Contains(w, es[s.from..s.to]) && |w.body| <= PACKET_BODY_SIZE
    && (forall y :: s.from <= y < s.to ==> MayShare(w.service, es[y].service))
    && (s.to < |es| ==> !CouldJoin(w, es[s.to]))
  }

  // From q, packet w took what it holds, and left `rest`.
  ghost predicate Takes(q: Queue, w: Wire, rest: Queue)
    requires QueueOK(q) && QueueOK(rest)
  {
    var k := |Waiting(q)| - |Waiting(rest)|;
    0 < k && Waiting(rest) == Waiting(q)[k..] && CutAt(w, Waiting(q), Span(0, k))
  }

  lemma {:induction false} PackOneTakes(q: Queue)
    requires QueueOK(q) && q.messages != []
    ensures Takes(q, PackOne(q).w, PackOne(q).rest)
  {
    hide PackOne, Waiting, Contains, MayShare, CouldJoin;
    var k := PacketTakes(q);
    assert Waiting(q)[0..k] == Waiting(q)[..k];
  }

  // The packets hold all elements, one after the other.
  ghost predicate Cut(ws: seq<Wire>, es: seq<Element>, at: seq<Span>) {
    && |at| == |ws| && (if at == [] then es == [] else at[0].from == 0 && at[|at| - 1].to == |es|)
    && (forall x :: 0 < x < |at| ==> at[x].from == at[x - 1].to)
    && forall x :: 0 <= x < |ws| ==> CutAt(ws[x], es, at[x])
  }

  function Moved(s: Span, k: nat): Span {
    Span(k + s.from, k + s.to)
  }

  lemma {:induction false} CutMoved(w: Wire, es: seq<Element>, k: nat, s: Span)
    requires k <= |es| && CutAt(w, es[k..], s)
    ensures CutAt(w, es, Moved(s, k))
  {
    var t := Moved(s, k);
    assert es[k..][s.from..s.to] == es[t.from..t.to];
    forall y | t.from <= y < t.to ensures MayShare(w.service, es[y].service) { assert es[y] == es[k..][y - k]; }
  }

  lemma {:induction false} CutMore(w: Wire, ws: seq<Wire>, es: seq<Element>, k: nat, rest: seq<Span>) returns (at: seq<Span>)
    requires 0 < k <= |es| && CutAt(w, es, Span(0, k)) && Cut(ws, es[k..], rest)
    ensures Cut([w] + ws, es, at)
  {
    hide CutAt;
    at := [Span(0, k)] + seq(|rest|, x requires 0 <= x < |rest| => Moved(rest[x], k));
    forall x | 0 <= x < |[w] + ws| ensures CutAt(([w] + ws)[x], es, at[x]) {
      if x > 0 { CutMoved(ws[x - 1], es, k, rest[x - 1]); }
    }
    forall x | 0 < x < |at| ensures at[x].from == at[x - 1].to { if x > 1 { assert rest[x - 1].from == rest[x - 2].to; } }
  }

  // Everything that waits goes out, element by element and in order, in packets
  // each of which holds elements that go together, as many as there is room for.
  lemma {:induction false} PacketsShare(q: Queue) returns (at: seq<Span>)
    requires QueueOK(q)
    ensures Cut(PackAll(q), Waiting(q), at)
    decreases Left(q)
  {
    hide PackOne, Left, Waiting, Contains, MayShare, CouldJoin;
    at := [];
    if q.messages == [] {
      WaitingEnd(q);
    } else {
      PackLeft(q);
      LeftPositive(q);
      var k := PacketTakes(q);
      var r := PackOne(q);
      var rest := PacketsShare(r.rest);
      assert Waiting(q)[0..k] == Waiting(q)[..k];
      at := CutMore(r.w, PackAll(r.rest), Waiting(q), k, rest);
    }
  }

  // A packet is SAFE exactly if what it holds was sent SAFE, so SAFE messages are
  // in SAFE packets only, and with nothing else; the same goes for UNRELIABLE and
  // RELIABLE ones.
  lemma {:induction false} ServiceKept(q: Queue, at: seq<Span>, x: nat, y: nat)
    requires QueueOK(q) && Cut(PackAll(q), Waiting(q), at) && x < |PackAll(q)| && at[x].from <= y < at[x].to
    ensures var s, t := PackAll(q)[x].service, Waiting(q)[y].service;
            && (s == Safe <==> t == Safe) && (s == Reliable <==> t == Reliable) && (s == Unreliable <==> t == Unreliable)
  {
    hide Contains, CouldJoin, PackAll, Waiting;
    assert CutAt(PackAll(q)[x], Waiting(q), at[x]);
  }

  // ----------------------------------------------------------------- on the ring

  // A packet as the ring handles it.
  function PayloadOf(w: Wire): Payload {
    Payload(w.service, w.firstIndex, w.body)
  }

  // In every run: when a daemon has delivered a packet with a fragment of a SAFE
  // message in it, every daemon of the ring has that packet.
  lemma {:induction false} SafeMessages(v: R.World, ss: seq<R.Rstate>, k: nat, i: int, z: int, j: int, q: Queue, at: seq<Span>, x: nat, y: nat)
    requires R.Run(v, ss) && k < |ss| && 0 <= i < v.ring.n && 0 <= j < v.ring.n && |ss[k].ds| == v.ring.n
    requires QueueOK(q) && Cut(PackAll(q), Waiting(q), at) && x < |PackAll(q)| && at[x].from <= y < at[x].to
    requires 0 <= z < |ss[k].ds[i].log| && ss[k].ds[i].log[z].Msg? && ss[k].ds[i].log[z].p.payload == PayloadOf(PackAll(q)[x])
    requires Waiting(q)[y].service == Safe
    ensures T.Has(ss[k].ds[j], ss[k].ds[i].log[z].p)
  {
    hide R.Run, PackAll, Waiting, Cut, T.Has;
    ServiceKept(q, at, x, y);
    T.SafeDelivery(v, ss, k, i, z, j);
  }

  // A packet that the ring may deliver early is one that the parser takes for a
  // whole message, whatever has come before.
  lemma {:induction false} EarlyAlike(s: int, sender: int, memb: MembId, w: Wire)
    ensures Packet(s, sender, memb, PayloadOf(w)).Early() <==> Early(w)
  {
  }
}
