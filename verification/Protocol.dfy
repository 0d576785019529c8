// What each routine of protocol.c does to the state of one daemon, as functions
// on values.  Wherever the source ends in an EXIT or FATAL alarm the state comes
// back with `fault` set, so that "this branch is never taken" can be stated.
module Protocol {
  import opened Types
  import opened RingArith

  // ---------------------------------------------------------------- delivery

  // Deliver_packet, as far as the packet entry and the sessions are concerned.
  function Deliver(d: Dstate, s: int): Dstate
    requires s in d.pk && !d.pk[s].Hole?
  {
    d.(log := d.log + [Msg(d.pk[s].p)], pk := d.pk[s := Given(d.pk[s].p)])
  }

  function AgreedLoop(d: Dstate): Dstate
    decreases d.myAru - d.delivered
  {
    var s := d.delivered + 1;
    if d.myAru < s then d
    else if s !in d.pk || d.pk[s].Hole? then d.(fault := true)
    else if d.pk[s].Held? then
      if d.pk[s].p.payload.service == Safe then d
      else AgreedLoop(Deliver(d, s).(delivered := s))
    else if Level(d.pk[s].p.payload.service) >= Level(Agreed) then d.(fault := true)
    else AgreedLoop(d.(delivered := s))
  }

  function DeliverAgreed(d: Dstate): Dstate {
    if d.myAru <= d.delivered || d.evs || d.threshold > Level(Agreed) then d
    else AgreedLoop(d)
  }

  function ReliableLoop(d: Dstate, s: int, e: int): Dstate
    decreases e - s
  {
    if e < s then d
    else if s in d.pk && d.pk[s].Held? && d.pk[s].p.Early() then ReliableLoop(Deliver(d, s), s + 1, e)
    else ReliableLoop(d, s + 1, e)
  }

  function DeliverReliable(d: Dstate, start: int, num: int): Dstate {
    if d.evs || d.threshold > Level(Reliable) then d
    else ReliableLoop(d, Max(start, d.delivered + 1), start + num - 1)
  }

  function Forget(d: Dstate, s: int): Dstate {
    d.(pk := d.pk - {s})
  }

  // Deliver entry s unless that was done before, then free it.
  function Release(d: Dstate, s: int): Dstate
    requires s in d.pk && !d.pk[s].Hole?
  {
    if d.pk[s].Held? then Forget(Deliver(d, s), s) else Forget(d, s)
  }

  function DiscardLoop(d: Dstate, s: int): Dstate
    decreases d.aru - s
  {
    if d.aru < s then d
    else if s !in d.pk || d.pk[s].Hole? then d.(fault := true)
    else DiscardLoop(Release(d, s), s + 1)
  }

  // Discard_packets outside EVS.
  function DiscardRegular(d: Dstate): Dstate {
    if d.aru <= d.discarded then d
    else
      var e := DiscardLoop(d, d.discarded + 1);
      if e.fault then e else e.(discarded := e.aru, delivered := Max(e.delivered, e.aru))
  }

  // ------------------------------------------- delivery of the old ring in EVS

  // Up to the first hole or the first safe packet.
  function BeforeTrans(d: Dstate): Dstate
    decreases d.highest - d.discarded
  {
    var s := d.discarded + 1;
    if d.highest < s then d
    else if s !in d.pk then d.(fault := true)
    else if d.pk[s].Hole? || d.pk[s].p.payload.service == Safe then d
    else BeforeTrans(Release(d, s).(discarded := s))
  }

  // The rest; beyond a hole only what committed members sent.
  function AfterTrans(d: Dstate, s: int, found: bool): Dstate
    decreases d.highest - s
  {
    if d.highest < s then d
    else if s !in d.pk then d.(fault := true)
    else if d.pk[s].Hole? then AfterTrans(Forget(d, s), s + 1, true)
    else if !found || d.pk[s].p.sender in d.commit.members then AfterTrans(Release(d, s), s + 1, found)
    else AfterTrans(Forget(d, s), s + 1, found)
  }

  lemma {:induction false} BeforeUnfold(d: Dstate)
    ensures var s := d.discarded + 1;
            BeforeTrans(d) ==
            if d.highest < s then d
            else if s !in d.pk then d.(fault := true)
            else if d.pk[s].Hole? || d.pk[s].p.payload.service == Safe then d
            else BeforeTrans(Release(d, s).(discarded := s))
  {
  }

  lemma {:induction false} AfterUnfold(d: Dstate, s: int, found: bool)
    ensures AfterTrans(d, s, found) ==
            if d.highest < s then d
            else if s !in d.pk then d.(fault := true)
            else if d.pk[s].Hole? then AfterTrans(Forget(d, s), s + 1, true)
            else if !found || d.pk[s].p.sender in d.commit.members then AfterTrans(Release(d, s), s + 1, found)
            else AfterTrans(Forget(d, s), s + 1, found)
  {
  }

  // Memb_transitional.
  function TransMembers(c: CommitSet): set<int> {
    if 0 <= c.trans <= |c.members| then set m | m in c.members[..c.trans] else {}
  }

  // Memb_regular, and the reset of the counters for the next membership.
  function Install(d: Dstate): Dstate {
    d.(memb := d.future, evs := false, justInstalled := true,
       aru := 0, myAru := 0, highest := 0, discarded := 0, delivered := 0,
       counter := 0, commit := CommitSet([d.me], 1),
       log := d.log + [RegMemb(d.future)],
       fault := d.fault || d.pk != map[])
  }

  function DiscardEvs(d: Dstate): Dstate {
    if d.aru <= d.discarded || d.aru != d.lastSeq then d
    else
      var e := BeforeTrans(d);
      if e.fault then e
      else
        var f := e.(log := e.log + [TransMemb(TransMembers(e.commit))]);
        var g := AfterTrans(f, f.discarded + 1, false);
        if g.fault then g else Install(g)
  }

  function Discard(d: Dstate): Dstate {
    if d.evs then DiscardEvs(d) else DiscardRegular(d)
  }

  // ------------------------------------------------------- receiving a packet

  // The largest r >= a up to which every entry from a + 1 on exists.
  function Advance(pk: map<int, Slot>, a: int, h: int): (r: int)
    ensures a <= r && (a <= h ==> r <= h)
    ensures forall s :: a < s <= r ==> s in pk
    ensures r < h ==> r + 1 !in pk
    decreases h - a
  {
    if a < h && a + 1 in pk then Advance(pk, a + 1, h) else a
  }

  // Prot_handle_bcast for a regular packet of this daemon's membership.
  function Receive(d: Dstate, p: Packet): Dstate {
    if p.memb != d.memb || p.seqNo <= d.discarded || p.seqNo in d.pk then d
    else
      var e := d.(pk := d.pk[p.seqNo := Held(p)], highest := Max(d.highest, p.seqNo));
      if p.seqNo == e.myAru + 1 then
        DeliverAgreed(e.(myAru := Advance(e.pk, e.myAru, e.highest)))
      else
        DeliverReliable(e, p.seqNo, 1)
  }

  // -------------------------------------------------------- the token: verdict

  datatype Verdict = Accept | Repeat | Swallow

  function Pred(ring: Ring, i: int): int {
    if i == 0 then ring.n - 1 else i - 1
  }

  // Lines 556-645: is this token the next one, a copy whose sender asks for a
  // repetition, or one to ignore?
  function Judge(d: Dstate, ring: Ring, t: Token): Verdict {
    if t.from != Pred(ring, d.me) || (!d.evs && t.seqNo > MAX_WRAP_SEQUENCE_VALUE) then Swallow
    else if d.me == ring.lead then
      if t.arq != d.last.arq then Swallow else Accept
    else if t.arq == d.last.arq then
      if t.retrans > d.last.retrans then Repeat else Swallow
    else if t.arq != (d.last.arq + 1) % 16 then Swallow
    else Accept
  }

  // --------------------------------------------- the token: retransmit requests

  datatype Answer = Answer(casts: seq<Packet>, foreign: seq<Rtr>, proc: int, seg: int, fault: bool)

  function AnswerOne(d: Dstate, mySeg: int, r: Rtr, q: int, a: Answer): Answer {
    var b := a.(fault := a.fault || q < d.aru || (q in d.pk && d.pk[q].Hole?));
    if q in d.pk && !d.pk[q].Hole? then b.(casts := b.casts + [d.pk[q].p])
    else if q in d.pk then b
    else b.(proc := -1, seg := if r.seg != mySeg then -1 else b.seg)
  }

  // The first k requests of one list.
  function AnswerList(d: Dstate, mySeg: int, r: Rtr, k: nat, a: Answer): Answer
    requires k <= |r.seqs|
  {
    if k == 0 then a else AnswerOne(d, mySeg, r, r.seqs[k - 1], AnswerList(d, mySeg, r, k - 1, a))
  }

  // The first k lists: those of this daemon's own ring are answered, the others
  // stay on the token.
  function AnswerAll(d: Dstate, mySeg: int, rs: seq<Rtr>, k: nat): Answer
    requires k <= |rs|
  {
    if k == 0 then Answer([], [], d.me, mySeg, false)
    else
      var a := AnswerAll(d, mySeg, rs, k - 1);
      if rs[k - 1].memb == d.memb then AnswerList(d, mySeg, rs[k - 1], |rs[k - 1].seqs|, a)
      else a.(foreign := a.foreign + [rs[k - 1]])
  }

  function RtrBytes(rs: seq<Rtr>): nat {
    if rs == [] then 0
    else RtrBytes(rs[..|rs| - 1]) + RING_RTR_SIZE + 4 * |rs[|rs| - 1].seqs|
  }

  // The first `room` missing sequence numbers from s up to m.
  function Missing(pk: map<int, Slot>, s: int, m: int, room: int): seq<int>
    decreases m - s
  {
    if m < s || room <= 0 then []
    else if s in pk then Missing(pk, s + 1, m, room)
    else [s] + Missing(pk, s + 1, m, room - 1)
  }

  function RoomFor(foreign: seq<Rtr>): int {
    (TOKEN_BODY_SIZE - RtrBytes(foreign) - RING_RTR_SIZE) / 4
  }

  function MaxRtrSeq(d: Dstate, ring: Ring): int {
    if ring.accelerated && !d.evs then d.last.seqNo else d.highest
  }

  // The request lists the daemon puts on the token it sends.
  function OwnRequests(d: Dstate, ring: Ring, a: Answer): seq<Rtr> {
    var m := MaxRtrSeq(d, ring);
    if d.myAru < m && RoomFor(a.foreign) > 1 then
      a.foreign + [Rtr(d.memb, a.proc, a.seg, Missing(d.pk, d.myAru + 1, m, RoomFor(a.foreign)))]
    else a.foreign
  }

  // ---------------------------------------------------- the token: new packets

  // b more packets keep to the windows, given what the token says was sent.
  predicate WithinWindows(b: int, window: int, personal: int, flowControl: int) {
    0 <= b <= window && b <= personal && b + flowControl <= window + personal
  }

  // FC_allowed.
  function Allowed(d: Dstate, window: int, personal: int, flowControl: int): int {
    if d.evs || d.highest > d.aru + MAX_SEQ_GAP then 0
    else
      var a := Max(window + personal - flowControl, 0);
      Min(Min(a, window), personal)
  }

  // Prot_queue_bcast: what goes out at once and what stays queued.
  function QueueBcast(ring: Ring, evs: bool, queue: seq<Packet>, p: Packet): (seq<Packet>, seq<Packet>) {
    if !ring.accelerated || evs then (queue + [p], [])
    else
      var k := Min(Max(|queue| - ring.acceleratedWindow + 1, 0), |queue|);
      if ring.acceleratedWindow == 0 then (queue[..k] + [p], queue[k..])
      else (queue[..k], queue[k..] + [p])
  }

  datatype Sending = Sending(d: Dstate, casts: seq<Packet>)

  // One round of the loop of Send_new_packets.
  function SendOne(ring: Ring, d: Dstate, o: Payload): Sending {
    var p := Packet(d.highest + 1, d.me, d.memb, o);
    var q := QueueBcast(ring, d.evs, d.queue, p);
    Sending(d.(highest := p.seqNo, queue := q.1, pk := d.pk[p.seqNo := Held(p)],
               fault := d.fault || p.seqNo in d.pk),
            q.0)
  }

  // Send_new_packets: one packet for each of the first k payloads.
  function SendNew(ring: Ring, d: Dstate, offer: seq<Payload>, k: nat): Sending
    requires k <= |offer|
  {
    if k == 0 then Sending(d, [])
    else
      var b := SendNew(ring, d, offer, k - 1);
      var c := SendOne(ring, b.d, offer[k - 1]);
      Sending(c.d, b.casts + c.casts)
  }

  // --------------------------------------------------------- the token: its aru

  predicate SetsAru(d: Dstate, t: Token) {
    t.aru > d.myAru || t.aruLast == d.me || (t.aru == t.seqNo && !d.evs)
  }

  function NewAru(d: Dstate, sent: Token): Dstate {
    var a := Min(d.last.aru, sent.aru);
    d.(aru := a, fault := d.fault || a < d.aru)
  }

  // To_hold_token.
  predicate Holds(d: Dstate) {
    !d.evs && d.last.retrans <= 1 && d.aru == d.highest && d.counter > 1
  }

  // Prot_token_hurry: the last token again, without its request lists.
  function Repetition(d: Dstate, retrans: int): Token {
    d.last.(retrans := retrans, rtr := [])
  }

  // ------------------------------------------------------ the token: all of it

  // What handling an accepted token leads to: the daemon before its delayed
  // packets are flushed, the token it leaves, whether it sends that token now,
  // and the packets it has put on the network.
  datatype Outcome = Outcome(d: Dstate, token: Token, sends: bool, casts: seq<Packet>)

  // On acceptance a daemon that has just installed its membership forgets the
  // aru of the last token it sent in EVS, and Highest_seq follows the token.
  function Raise(d: Dstate, t: Token): Dstate {
    d.(highest := Max(d.highest, t.seqNo),
       last := if d.justInstalled then d.last.(aru := 0) else d.last,
       justInstalled := false)
  }

  function NumSent(d: Dstate, ring: Ring, t: Token, offer: seq<Payload>): nat
    requires 0 <= d.me < |ring.personal|
  {
    Max(0, Min(|offer|, Allowed(Raise(d, t), ring.window, ring.personal[d.me], t.flowControl)))
  }

  // In EVS a daemon that has everything moves its My_aru to Last_seq and commits.
  function Complete(d: Dstate): Dstate {
    if d.evs && d.myAru == d.highest then d.(myAru := d.lastSeq, commit := d.futureCommit) else d
  }

  // The daemon when it has answered requests, sent, and advanced My_aru.
  function Prepared(ring: Ring, d: Dstate, a: Answer, t: Token, offer: seq<Payload>): Sending
    requires 0 <= d.me < |ring.personal|
  {
    var k := NumSent(d, ring, t, offer);
    var b := SendNew(ring, Raise(d, t), offer, k);
    var e := b.d.(numRetrans := |a.casts|, numSent := k, fault := b.d.fault || a.fault,
                  myAru := Advance(b.d.pk, b.d.myAru, b.d.highest));
    b.(d := e)
  }

  function TokenOut(ring: Ring, d: Dstate, before: Dstate, t: Token, rtr: seq<Rtr>): Token {
    Token(d.me,
          if d.me == ring.lead then (t.arq + 1) % 16 else t.arq,
          if d.me == ring.lead then 0 else t.retrans,
          if d.evs then t.seqNo else d.highest,
          if SetsAru(d, t) then d.myAru else t.aru,
          if SetsAru(d, t) then d.me else t.aruLast,
          t.flowControl - before.numRetrans - before.numSent + d.numRetrans + d.numSent,
          rtr)
  }

  // Aru, discarding and delivery once the token is on its way.
  function Settle(d: Dstate, sent: Token, numSent: nat): Dstate {
    var e := NewAru(d, sent);
    if e.fault then e
    else
      var f := e.(counter := if e.highest == e.aru then e.counter + 1 else 0, last := sent);
      var g := Discard(f);
      if g.fault then g
      else
        var h := DeliverAgreed(g);
        if h.fault then h else DeliverReliable(h, h.highest - numSent + 1, numSent)
  }

  // Prot_handle_token from the point where the token is accepted.
  function HandleToken(ring: Ring, d: Dstate, t: Token, offer: seq<Payload>): Outcome
    requires 0 <= d.me < |ring.personal| && |ring.seg| == |ring.personal|
  {
    var a := AnswerAll(Raise(d, t), ring.seg[d.me], t.rtr, |t.rtr|);
    var b := Prepared(ring, d, a, t, offer);
    if b.d.fault then Outcome(b.d, t, false, a.casts + b.casts)
    else
      var rtr := OwnRequests(b.d, ring, a);
      var e := Complete(b.d);
      var sent := TokenOut(ring, e, d, t, rtr);
      Outcome(Settle(e, sent, e.numSent), sent,
            !(d.me == ring.lead && Holds(e)),
            a.casts + b.casts)
  }
}
