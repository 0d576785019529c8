// Packing of message fragments into packets and their way back: the filling loop
// of Send_new_packets, and Deliver_packet, down to the bytes of a packet body.
module Packing {
  import opened Types
  import opened RingArith

  const PACKET_BODY_SIZE := 1432
  const FRAGMENT_HEADER_SIZE := 4
  const MAX_SCATTER_ELEMENTS := 100

  // A message as it stands in the send queue: its scatter elements.
  datatype Message = Message(service: Service, frags: seq<seq<Byte>>)

  // Down_queue_ptr: the messages, and cur_element of the first of them.
  datatype Queue = Queue(messages: seq<Message>, cur: int)

  // A packet on the wire; data_len is the length of the body.
  datatype Wire = Wire(service: Service, firstIndex: int, firstLen: int, body: seq<Byte>)

  // ------------------------------------------------------------------- numbers

  function Encode16(x: int): seq<Byte>
    requires -0x8000 <= x < 0x8000
  {
    var u := if x < 0 then x + 0x1_0000 else x;
    [u % 256, u / 256]
  }

  function Decode16(s: seq<Byte>): int
    requires |s| == 2
  {
    var u: int := s[0] as int + 256 * s[1] as int;
    if u < 0x8000 then u else u - 0x1_0000
  }

  lemma {:induction false} Number16(x: int)
    requires -0x8000 <= x < 0x8000
    ensures |Encode16(x)| == 2 && Decode16(Encode16(x)) == x
  {
  }

  // A fragment header: index, then length.
  function Header(index: int, len: int): seq<Byte>
    requires -0x8000 <= index < 0x8000 && -0x8000 <= len < 0x8000
  {
    Encode16(index) + Encode16(len)
  }

  // The switch over data_len % 4.
  function Padding(n: nat): nat {
    match n % 4
    case 1 => 3
    case 2 => 2
    case 3 => 1
    case _ => 0
  }

  function Zeros(n: nat): seq<Byte> {
    seq(n, _ => 0)
  }

  // ------------------------------------------------------------------- the queue

  predicate MessageOK(m: Message) {
    && 1 <= |m.frags| <= MAX_SCATTER_ELEMENTS
    && forall k :: 0 <= k < |m.frags| ==> |m.frags[k]| <= PACKET_BODY_SIZE
  }

  predicate QueueOK(q: Queue) {
    && (forall k :: 0 <= k < |q.messages| ==> MessageOK(q.messages[k]))
    && 0 <= q.cur && (if q.messages == [] then q.cur == 0 else q.cur < |q.messages[0].frags|)
  }

  // All fragments but the last are as long as a packet body.
  predicate FullSize(m: Message) {
    forall k :: 0 <= k < |m.frags| - 1 ==> |m.frags[k]| == PACKET_BODY_SIZE
  }

  // fragment_index of the element `cur` of a message of n elements.
  function FragIndex(n: nat, cur: nat): int {
    if cur + 1 < n then cur + 1 else -(n as int)
  }

  // What taking one element leaves.
  function Advance(q: Queue): Queue
    requires QueueOK(q) && q.messages != []
    ensures QueueOK(Advance(q))
  {
    if q.cur + 1 < |q.messages[0].frags| then q.(cur := q.cur + 1)
    else Queue(q.messages[1..], 0)
  }

  function Elements(ms: seq<Message>): nat {
    if ms == [] then 0 else |ms[0].frags| + Elements(ms[1..])
  }

  function Left(q: Queue): int {
    Elements(q.messages) - q.cur
  }

  predicate Mixes(s: Service) {
    s == Fifo || s == Agreed
  }

  // Does the next element go into this packet?
  predicate Fits(w: Wire, q: Queue)
    requires QueueOK(q)
  {
    && q.messages != []
    && |q.messages[0].frags[q.cur]| <= PACKET_BODY_SIZE - |w.body| - Padding(|w.body|) - FRAGMENT_HEADER_SIZE
    && (w.service == q.messages[0].service || (Mixes(w.service) && Mixes(q.messages[0].service)))
  }

  function Append(w: Wire, q: Queue): Wire
    requires QueueOK(q) && q.messages != []
  {
    var m := q.messages[0];
    var f := m.frags[q.cur];
    w.(body := w.body + Zeros(Padding(|w.body|)) + Header(FragIndex(|m.frags|, q.cur), |f|) + f)
  }

  datatype Packed = Packed(w: Wire, rest: Queue)

  function Fill(w: Wire, q: Queue): (r: Packed)
    requires QueueOK(q)
    ensures QueueOK(r.rest)
    decreases |q.messages|, if q.messages == [] then 0 else |q.messages[0].frags| - q.cur
  {
    if Fits(w, q) then Fill(Append(w, q), Advance(q)) else Packed(w, q)
  }

  function PackOne(q: Queue): (r: Packed)
    requires QueueOK(q) && q.messages != []
    ensures QueueOK(r.rest)
  {
    var m := q.messages[0];
    var f := m.frags[q.cur];
    Fill(Wire(m.service, FragIndex(|m.frags|, q.cur), |f|, f), Advance(q))
  }

  lemma {:induction false} FillLeft(w: Wire, q: Queue)
    requires QueueOK(q)
    ensures Left(Fill(w, q).rest) <= Left(q) && 0 <= Left(q)
    decreases |q.messages|, if q.messages == [] then 0 else |q.messages[0].frags| - q.cur
  {
    if Fits(w, q) { FillLeft(Append(w, q), Advance(q)); }
  }

  // Everything in the queue, packet by packet.
  function PackAll(q: Queue): seq<Wire>
    requires QueueOK(q)
    decreases Left(q)
  {
    if q.messages == [] then []
    else
      var r := PackOne(q);
      FillLeft(Wire(q.messages[0].service, 0, 0, []), q);
      PackLeft(q);
      [r.w] + PackAll(r.rest)
  }

  lemma {:induction false} PackLeft(q: Queue)
    requires QueueOK(q) && q.messages != []
    ensures 0 <= Left(PackOne(q).rest) < Left(q)
  {
    var m := q.messages[0];
    var f := m.frags[q.cur];
    var w := Wire(m.service, FragIndex(|m.frags|, q.cur), |f|, f);
    FillLeft(w, Advance(q));
    LeftPositive(Fill(w, Advance(q)).rest);
  }

  lemma {:induction false} LeftPositive(q: Queue)
    requires QueueOK(q)
    ensures 0 <= Left(q)
  {
  }

  // ------------------------------------------------------------------ unpacking

  datatype Parsed = Parsed(messages: seq<seq<Byte>>, valid: bool)

  // The inner fragments from byte `at` on; each is a whole message.
  function Inner(body: seq<Byte>, at: nat): Parsed
    decreases |body| - at
  {
    if |body| <= at then Parsed([], true)
    else
      var h := at + Padding(at);
      if |body| < h + FRAGMENT_HEADER_SIZE then Parsed([], false)
      else
        var len := Decode16(body[h + 2..h + 4]);
        var f := h + FRAGMENT_HEADER_SIZE;
        if len < 0 || |body| < f + len then Parsed([], false)
        else
          var r := Inner(body, f + len);
          Parsed([body[f..f + len]] + r.messages, r.valid)
  }

  // What one sender's packets have brought so far: the parts of a message that
  // is not complete, and the messages handed up.
  datatype Up = Up(parts: seq<seq<Byte>>, out: seq<seq<seq<Byte>>>, fault: bool)

  predicate Early(w: Wire) {
    w.service == Reliable && w.firstIndex == -1
  }

  function Singles(ms: seq<seq<Byte>>): seq<seq<seq<Byte>>> {
    seq(|ms|, x requires 0 <= x < |ms| => [ms[x]])
  }

  // Deliver_packet.  A reliable packet that is a whole message has a queue of its
  // own, whatever has come before.
  function Deliver(u: Up, w: Wire): Up
    requires 0 <= w.firstLen <= |w.body|
  {
    var inner := Inner(w.body, w.firstLen);
    var index := if w.firstIndex < 0 then -w.firstIndex else w.firstIndex;
    var parts := if Early(w) then [] else u.parts;
    if u.fault || |parts| + 1 != index then u.(fault := true)
    else
      var all := parts + [w.body[..w.firstLen]];
      Up(if Early(w) then u.parts else if w.firstIndex < 0 then [] else all,
         u.out + (if w.firstIndex < 0 then [all] else []) + Singles(inner.messages),
         false)
  }

  // ------------------------------------------------------------- the way back

  predicate AllFull(ms: seq<Message>) {
    forall k :: 0 <= k < |ms| ==> FullSize(ms[k])
  }

  function Firsts(ms: seq<Message>): seq<seq<Byte>>
    requires forall k :: 0 <= k < |ms| ==> 1 <= |ms[k].frags|
  {
    seq(|ms|, x requires 0 <= x < |ms| && 1 <= |ms[x].frags| => ms[x].frags[0])
  }

  lemma {:induction false} HeaderAt(body: seq<Byte>, at: nat, index: int, f: seq<Byte>, more: seq<Byte>)
    requires -0x8000 <= index < 0x8000 && |f| <= PACKET_BODY_SIZE && at <= |body|
    requires body == body[..at] + Zeros(Padding(at)) + Header(index, |f|) + f + more
    ensures var h := at + Padding(at) + FRAGMENT_HEADER_SIZE;
            && at < |body| && h + |f| <= |body| && body[h..h + |f|] == f
            && Inner(body, at) == Parsed([f] + Inner(body, h + |f|).messages, Inner(body, h + |f|).valid)
  {
    hide Encode16, Decode16, Padding;
    Number16(|f|);
    Number16(index);
    var h := at + Padding(at);
    assert body[h + 2..h + 4] == Encode16(|f|);
    assert body[h + 4..h + 4 + |f|] == f;
  }

  lemma {:induction false} AppendBytes(w: Wire, q: Queue)
    requires QueueOK(q) && q.messages != []
    ensures var u, f := Append(w, q), q.messages[0].frags[q.cur];
            && u == w.(body := u.body) && w.body <= u.body
            && |u.body| == |w.body| + Padding(|w.body|) + FRAGMENT_HEADER_SIZE + |f|
            && u.body == w.body + Zeros(Padding(|w.body|)) + Header(FragIndex(|q.messages[0].frags|, q.cur), |f|) + f
  {
    var u, f := Append(w, q), q.messages[0].frags[q.cur];
    assert u.body[..|w.body|] == w.body;
  }

  // An element that still fits is a whole message.
  lemma {:induction false} FitsWhole(w: Wire, q: Queue)
    requires QueueOK(q) && AllFull(q.messages) && |w.body| <= PACKET_BODY_SIZE
    requires (q.cur == 0 || |w.body| == PACKET_BODY_SIZE) && Fits(w, q)
    ensures q.messages != [] && |q.messages[0].frags| == 1 && Advance(q) == Queue(q.messages[1..], 0)
    ensures |Append(w, q).body| <= PACKET_BODY_SIZE && AllFull(q.messages[1..])
  {
    AppendBytes(w, q);
  }

  // What the filling loop adds to a packet are whole messages, and the parser
  // finds exactly those.
  lemma {:induction false} FillParses(w: Wire, q: Queue) returns (k: nat)
    requires QueueOK(q) && AllFull(q.messages) && |w.body| <= PACKET_BODY_SIZE
    requires q.cur == 0 || |w.body| == PACKET_BODY_SIZE
    ensures var r := Fill(w, q);
            && k <= |q.messages| && (forall x :: 0 <= x < k ==> |q.messages[x].frags| == 1)
            && w.body <= r.w.body && |r.w.body| <= PACKET_BODY_SIZE && r.w == w.(body := r.w.body)
            && r.rest == (if k == 0 then q else Queue(q.messages[k..], 0))
            && Inner(r.w.body, |w.body|) == Parsed(Firsts(q.messages[..k]), true)
    decreases |q.messages|
  {
    hide Padding, Header, Inner, Fits, FullSize, MessageOK, Append;
    k := 0;
    if Fits(w, q) {
      FitsWhole(w, q);
      AppendBytes(w, q);
      var m, u, p := q.messages[0], Append(w, q), Advance(q);
      var j := FillParses(u, p);
      k := j + 1;
      var r := Fill(w, q);
      var f := m.frags[0];
      var more := r.w.body[|u.body|..];
      assert r.w.body == u.body + more;
      assert r.w.body[..|w.body|] == w.body;
      Small(q);
      HeaderAt(r.w.body, |w.body|, FragIndex(1, 0), f, more);
      assert q.messages[..k] == [m] + p.messages[..j];
      assert Firsts(q.messages[..k]) == [f] + Firsts(p.messages[..j]);
    } else {
      NoMore(w.body);
      assert q.messages[..0] == [];
    }
  }

  lemma {:induction false} Small(q: Queue)
    requires QueueOK(q) && q.messages != []
    ensures |q.messages[0].frags[q.cur]| <= PACKET_BODY_SIZE
    ensures 1 <= |q.messages[0].frags| <= MAX_SCATTER_ELEMENTS
  {
  }

  lemma {:induction false} NoMore(body: seq<Byte>)
    ensures Inner(body, |body|) == Parsed([], true)
  {
  }

  // The part of the first message that has been sent.
  function Partial(q: Queue): seq<seq<Byte>>
    requires QueueOK(q)
  {
    if q.messages == [] then [] else q.messages[0].frags[..q.cur]
  }

  function Remaining(ms: seq<Message>): seq<seq<seq<Byte>>> {
    seq(|ms|, x requires 0 <= x < |ms| => ms[x].frags)
  }

  // What a packet with well-formed inner fragments does.
  lemma {:induction false} DeliverGood(u: Up, w: Wire, xs: seq<seq<Byte>>, n: nat)
    requires 0 <= w.firstLen <= |w.body| && Inner(w.body, w.firstLen) == Parsed(xs, true)
    requires !u.fault && |u.parts| < n && w.firstIndex == FragIndex(n, |u.parts|)
    ensures var e := Deliver(u, w); var all := u.parts + [w.body[..w.firstLen]];
            && !e.fault && e.parts == (if |u.parts| + 1 < n then all else [])
            && e.out == u.out + (if |u.parts| + 1 < n then [] else [all]) + Singles(xs)
  {
    hide Inner;
    if Early(w) { assert u.parts == []; }
  }

  // What PackOne puts into a packet.
  lemma {:induction false} PackParts(q: Queue) returns (k: nat)
    requires QueueOK(q) && AllFull(q.messages) && q.messages != []
    ensures var r, m, p := PackOne(q), q.messages[0], Advance(q);
            var f := m.frags[q.cur];
            && r.w.firstLen == |f| <= |r.w.body| && r.w.body[..|f|] == f && r.w.firstIndex == FragIndex(|m.frags|, q.cur)
            && k <= |p.messages| && AllFull(p.messages)
            && (forall x :: 0 <= x < |p.messages| ==> 1 <= |p.messages[x].frags|)
            && (forall x :: 0 <= x < k ==> |p.messages[x].frags| == 1)
            && Inner(r.w.body, |f|) == Parsed(Firsts(p.messages[..k]), true)
            && r.rest == (if k == 0 then p else Queue(p.messages[k..], 0))
            && (q.cur + 1 < |m.frags| ==> k == 0)
  {
    hide Fill, Inner, MessageOK, FullSize;
    var m := q.messages[0];
    var f := m.frags[q.cur];
    var w, p := Wire(m.service, FragIndex(|m.frags|, q.cur), |f|, f), Advance(q);
    StartsFull(q);
    k := FillParses(w, p);
    assert Fill(w, p).w.body[..|f|] == f;
  }

  lemma {:induction false} AllFullFrom(ms: seq<Message>, k: nat)
    requires k <= |ms| && AllFull(ms)
    ensures AllFull(ms[k..])
  {
    hide FullSize;
  }

  // One packet: what is handed up is what has gone from the queue.
  lemma {:induction false} PackDelivers(q: Queue, u: Up)
    requires QueueOK(q) && AllFull(q.messages) && q.messages != []
    requires !u.fault && u.parts == Partial(q)
    ensures var r := PackOne(q);
            && 0 <= r.w.firstLen <= |r.w.body|
            && AllFull(r.rest.messages)
            && var e := Deliver(u, r.w);
               && !e.fault && e.parts == Partial(r.rest)
               && e.out + Remaining(r.rest.messages) == u.out + Remaining(q.messages)
  {
    hide PackOne, Inner, Deliver, MessageOK, FullSize, Remaining, Singles, Firsts, Fill, Partial;
    var k := PackParts(q);
    var r, m, p := PackOne(q), q.messages[0], Advance(q);
    var xs := Firsts(p.messages[..k]);
    HeldParts(q);
    DeliverGood(u, r.w, xs, |m.frags|);
    AllFullFrom(p.messages, k);
    if q.cur + 1 < |m.frags| {
      assert m.frags[..q.cur] + [m.frags[q.cur]] == m.frags[..q.cur + 1];
      assert p.messages[..0] == [];
      NoSingles();
      HeldParts(p);
    } else {
      assert m.frags[..q.cur] + [m.frags[q.cur]] == m.frags;
      assert q.messages == [m] + p.messages;
      FreshParts(p.messages);
      FreshParts(p.messages[k..]);
      SinglesRemain(p.messages, k);
      Balance(u.out, m, p.messages, xs, k);
    }
  }

  lemma {:induction false} HeldParts(q: Queue)
    requires QueueOK(q) && q.messages != []
    ensures Partial(q) == q.messages[0].frags[..q.cur]
  {
  }

  lemma {:induction false} FreshParts(ms: seq<Message>)
    requires QueueOK(Queue(ms, 0))
    ensures Partial(Queue(ms, 0)) == []
  {
  }

  lemma {:induction false} NoSingles()
    ensures Firsts([]) == [] && Singles([]) == []
  {
  }

  lemma {:induction false} Balance(o: seq<seq<seq<Byte>>>, m: Message, ms: seq<Message>, xs: seq<seq<Byte>>, k: nat)
    requires k <= |ms| && Singles(xs) + Remaining(ms[k..]) == Remaining(ms)
    ensures (o + [m.frags] + Singles(xs)) + Remaining(ms[k..]) == o + Remaining([m] + ms)
  {
    assert Remaining([m] + ms) == [m.frags] + Remaining(ms);
    assert (o + [m.frags] + Singles(xs)) + Remaining(ms[k..]) == (o + [m.frags]) + (Singles(xs) + Remaining(ms[k..]));
  }

  // Behind a fragment that is not the last there is no room.
  lemma {:induction false} StartsFull(q: Queue)
    requires QueueOK(q) && AllFull(q.messages) && q.messages != []
    ensures |q.messages[0].frags[q.cur]| <= PACKET_BODY_SIZE
    ensures Advance(q).cur == 0 || |q.messages[0].frags[q.cur]| == PACKET_BODY_SIZE
    ensures AllFull(Advance(q).messages) && forall x :: 0 <= x < |Advance(q).messages| ==> 1 <= |Advance(q).messages[x].frags|
    ensures q.cur + 1 < |q.messages[0].frags| ==> Advance(q).cur != 0
  {
  }

  lemma {:induction false} SinglesRemain(ms: seq<Message>, k: nat)
    requires k <= |ms| && (forall x :: 0 <= x < |ms| ==> 1 <= |ms[x].frags|) && forall x :: 0 <= x < k ==> |ms[x].frags| == 1
    ensures Singles(Firsts(ms[..k])) + Remaining(ms[k..]) == Remaining(ms)
  {
    var a := Singles(Firsts(ms[..k]));
    forall x | 0 <= x < k ensures a[x] == Remaining(ms)[x] {
      assert ms[x].frags == [ms[x].frags[0]];
    }
  }

  function DeliverAll(u: Up, ws: seq<Wire>): Up
    requires forall x :: 0 <= x < |ws| ==> 0 <= ws[x].firstLen <= |ws[x].body|
    decreases |ws|
  {
    if ws == [] then u else DeliverAll(Deliver(u, ws[0]), ws[1..])
  }

  lemma {:induction false} StreamDelivers(q: Queue, u: Up)
    requires QueueOK(q) && AllFull(q.messages) && !u.fault && u.parts == Partial(q)
    ensures forall x :: 0 <= x < |PackAll(q)| ==> 0 <= PackAll(q)[x].firstLen <= |PackAll(q)[x].body|
    ensures DeliverAll(u, PackAll(q)) == Up([], u.out + Remaining(q.messages), false)
    decreases Left(q)
  {
    hide PackOne, Deliver, Left;
    if q.messages == [] {
      assert u.out + Remaining(q.messages) == u.out;
    } else {
      PackLeft(q);
      LeftPositive(q);
      PackDelivers(q, u);
      var r := PackOne(q);
      StreamDelivers(r.rest, Deliver(u, r.w));
      assert PackAll(q) == [r.w] + PackAll(r.rest);
    }
  }

  // Whatever messages a sender queues, packing them and delivering the packets in
  // order gives back the same messages in the same order.
  lemma {:induction false} PackingRoundTrip(ms: seq<Message>)
    requires (forall k :: 0 <= k < |ms| ==> MessageOK(ms[k])) && AllFull(ms)
    ensures var q := Queue(ms, 0);
            && (forall x :: 0 <= x < |PackAll(q)| ==> 0 <= PackAll(q)[x].firstLen <= |PackAll(q)[x].body|)
            && DeliverAll(Up([], [], false), PackAll(q)) == Up([], Remaining(ms), false)
  {
    hide DeliverAll, PackAll;
    StreamDelivers(Queue(ms, 0), Up([], [], false));
  }

  // ------------------------------------------------- several senders, early packets

  function NotEarly(ws: seq<Wire>): seq<Wire> {
    if ws == [] then []
    else (if Early(ws[0]) then [] else [ws[0]]) + NotEarly(ws[1..])
  }

  predicate Sized(ws: seq<Wire>) {
    forall x :: 0 <= x < |ws| ==> 0 <= ws[x].firstLen <= |ws[x].body|
  }

  lemma {:induction false} SizedNotEarly(ws: seq<Wire>)
    requires Sized(ws)
    ensures Sized(NotEarly(ws))
  {
    if ws != [] { SizedNotEarly(ws[1..]); }
  }

  // Early packets come and go without a trace in the parts collected.
  lemma {:induction false} EarlyApart(u: Up, v: Up, ws: seq<Wire>)
    requires Sized(ws) && u.parts == v.parts && u.fault == v.fault
    ensures Sized(NotEarly(ws))
    ensures var a, b := DeliverAll(u, ws), DeliverAll(v, NotEarly(ws)); a.fault == b.fault && (!a.fault ==> a.parts == b.parts)
    decreases |ws|
  {
    hide Inner;
    SizedNotEarly(ws);
    if ws != [] {
      if Early(ws[0]) {
        EarlyApart(Deliver(u, ws[0]), v, ws[1..]);
        assert [] + NotEarly(ws[1..]) == NotEarly(ws[1..]);
      } else {
        var d, e := Deliver(u, ws[0]), Deliver(v, ws[0]);
        assert NotEarly(ws) == [ws[0]] + NotEarly(ws[1..]);
        EarlyApart(d, e, ws[1..]);
        assert NotEarly(ws)[1..] == NotEarly(ws[1..]);
      }
    }
  }

  lemma {:induction false} FaultStays(u: Up, ws: seq<Wire>)
    requires Sized(ws) && u.fault
    ensures DeliverAll(u, ws).fault
    decreases |ws|
  {
    hide Inner;
    if ws != [] { FaultStays(Deliver(u, ws[0]), ws[1..]); }
  }

  lemma {:induction false} DeliverPrefix(u: Up, ws: seq<Wire>, k: nat)
    requires Sized(ws) && k <= |ws| && !DeliverAll(u, ws).fault
    ensures Sized(ws[..k]) && !DeliverAll(u, ws[..k]).fault
    decreases |ws|
  {
    hide Deliver;
    if k == 0 {
      if u.fault { FaultStays(u, ws); }
    } else {
      DeliverPrefix(Deliver(u, ws[0]), ws[1..], k - 1);
      assert ws[..k][1..] == ws[1..][..k - 1];
    }
  }

  // The exit for a sequence error is never taken: as long as the packets of a
  // sender that are not early come in order, be it only the first of them, and
  // the early ones at any time.
  lemma {:induction false} NoSequenceError(ms: seq<Message>, ws: seq<Wire>)
    requires (forall k :: 0 <= k < |ms| ==> MessageOK(ms[k])) && AllFull(ms)
    requires Sized(ws) && NotEarly(ws) <= NotEarly(PackAll(Queue(ms, 0)))
    ensures !DeliverAll(Up([], [], false), ws).fault
  {
    hide DeliverAll, PackAll, NotEarly;
    var u, all := Up([], [], false), PackAll(Queue(ms, 0));
    PackingRoundTrip(ms);
    EarlyApart(u, u, all);
    var k := |NotEarly(ws)|;
    DeliverPrefix(u, NotEarly(all), k);
    assert NotEarly(all)[..k] == NotEarly(ws);
    EarlyApart(u, u, ws);
  }

  // A packet of the ring with its sender; Up_queue has a place for each sender.
  datatype Sent = Sent(sender: int, w: Wire)

  function Place(us: map<int, Up>, x: int): Up {
    if x in us then us[x] else Up([], [], false)
  }

  function Receive(us: map<int, Up>, ps: seq<Sent>): map<int, Up>
    requires forall k :: 0 <= k < |ps| ==> 0 <= ps[k].w.firstLen <= |ps[k].w.body|
    decreases |ps|
  {
    if ps == [] then us
    else Receive(us[ps[0].sender := Deliver(Place(us, ps[0].sender), ps[0].w)], ps[1..])
  }

  function From(ps: seq<Sent>, x: int): seq<Wire> {
    if ps == [] then [] else (if ps[0].sender == x then [ps[0].w] else []) + From(ps[1..], x)
  }

  // However the packets of several senders are mixed, each sender's messages come
  // out as if there were no others.
  lemma {:induction false} SendersApart(us: map<int, Up>, ps: seq<Sent>, x: int)
    requires forall k :: 0 <= k < |ps| ==> 0 <= ps[k].w.firstLen <= |ps[k].w.body|
    ensures Sized(From(ps, x)) && Place(Receive(us, ps), x) == DeliverAll(Place(us, x), From(ps, x))
    decreases |ps|
  {
    hide Deliver;
    if ps != [] {
      var vs := us[ps[0].sender := Deliver(Place(us, ps[0].sender), ps[0].w)];
      SendersApart(vs, ps[1..], x);
      if ps[0].sender == x {
        assert From(ps, x)[1..] == From(ps[1..], x);
      } else {
        assert [] + From(ps[1..], x) == From(ps[1..], x);
      }
    }
  }

  // ------------------------------------------------------------------- splitting

  // How many pieces of the size of a packet body it takes.
  function Pieces(b: seq<Byte>): nat
    requires b != []
  {
    (|b| - 1) / PACKET_BODY_SIZE + 1
  }

  function Joined(fs: seq<seq<Byte>>): seq<Byte> {
    if fs == [] then [] else Joined(fs[..|fs| - 1]) + fs[|fs| - 1]
  }

  lemma {:induction false} NothingJoined()
    ensures Joined([]) == []
  {
  }

  lemma {:induction false} JoinedMore(fs: seq<seq<Byte>>, f: seq<Byte>)
    ensures Joined(fs + [f]) == Joined(fs) + f
  {
    assert (fs + [f])[..|fs|] == fs;
  }

  lemma {:induction false} FullSizes(fs: seq<seq<Byte>>)
    requires 1 <= |fs| <= MAX_SCATTER_ELEMENTS && (forall k :: 0 <= k < |fs| ==> |fs[k]| <= PACKET_BODY_SIZE)
    requires forall k :: 0 <= k < |fs| - 1 ==> |fs[k]| == PACKET_BODY_SIZE
    ensures forall s :: MessageOK(Message(s, fs)) && FullSize(Message(s, fs))
  {
  }

  // The loop of Message_Buffer_to_Message_Fragments; too large a message ends
  // the process.
  method Split(head: seq<Byte>, buf: seq<Byte>) returns (ok: bool, frags: seq<seq<Byte>>)
    requires 0 < |head| <= PACKET_BODY_SIZE
    ensures ok <==> Pieces(head + buf) <= MAX_SCATTER_ELEMENTS
    ensures ok ==> |frags| == Pieces(head + buf) && Joined(frags) == head + buf
    ensures ok ==> forall s :: MessageOK(Message(s, frags)) && FullSize(Message(s, frags))
  {
    hide Joined, MessageOK, FullSize;
    var num := (|buf| + |head| - 1) / PACKET_BODY_SIZE + 1;
    frags := [];
    if num > MAX_SCATTER_ELEMENTS { return false, []; }
    NothingJoined();
    var copied := 0;
    var i := 0;
    while i < num
      invariant 0 <= i <= num && |frags| == i && 0 <= copied <= |buf|
      invariant i == 0 ==> copied == 0
      invariant 0 < i < num ==> copied + |head| == i * PACKET_BODY_SIZE
      invariant i == num ==> copied == |buf|
      invariant Joined(frags) == if i == 0 then [] else head + buf[..copied]
      invariant forall k :: 0 <= k < i ==> |frags[k]| <= PACKET_BODY_SIZE
      invariant forall k :: 0 <= k < i && k < num - 1 ==> |frags[k]| == PACKET_BODY_SIZE
    {
      var bytes;
      var f;
      if i == 0 {
        bytes := |buf|;
        if bytes > PACKET_BODY_SIZE - |head| { bytes := PACKET_BODY_SIZE - |head|; }
        f := head + buf[..bytes];
      } else {
        bytes := |buf| - copied;
        if bytes > PACKET_BODY_SIZE { bytes := PACKET_BODY_SIZE; }
        f := buf[copied..copied + bytes];
      }
      JoinedMore(frags, f);
      frags := frags + [f];
      copied := copied + bytes;
      i := i + 1;
    }
    assert buf[..copied] == buf;
    FullSizes(frags);
    ok := true;
  }
}
