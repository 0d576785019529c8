// A ring of daemons in normal operation as a transition system.  The network
// may lose, repeat and reorder everything: what was once sent stays available
// for ever, and nothing has to arrive.
//
// Daemons are numbered in token order so that daemon 0 sent the token that
// opens normal operation; visit t of the token (t >= 1) falls to daemon t % n.
module OpRing {
  import opened Types
  import opened RingArith
  import opened TokenHistory
  import opened Protocol
  import opened TokenVisit

  // A copy of a token on the network, with the visit that sent it.
  datatype Copy = Copy(visit: int, token: Token)

  datatype Rstate = Rstate(
    ds: seq<Dstate>,
    at: seq<int>,             // the visit at which each daemon last handled the token
    sent: seq<Token>,         // the token as each visit left it
    hist: seq<Visit>,
    all: seq<Packet>,         // every packet created, in the order of creation
    tokens: set<Copy>,
    packets: set<Packet>)

  // What stays the same during a run: the ring, its membership id, and how far
  // the 4-bit round number had come when the membership was installed.
  datatype World = World(ring: Ring, memb: MembId, base: nat)

  datatype Step =
    | Arrive(i: int, c: Copy, offer: seq<Payload>)
    | Hurry(i: int)
    | Wanted(i: int)
    | Receipt(i: int, p: Packet)
    | Flush(i: int)
    | Threshold(i: int, level: int)
    | AgreedEvent(i: int)
    | ReliableEvent(i: int)

  predicate WorldOK(w: World) {
    && 0 < w.ring.n && 0 <= w.ring.lead < w.ring.n
    && |w.ring.personal| == |w.ring.seg| == w.ring.n
    && 0 <= w.ring.window
    && forall j :: 0 <= j < w.ring.n ==> 0 <= w.ring.personal[j]
  }

  // The 4-bit round number on the token that visit t sends.
  function Arq(w: World, t: int): int
    requires WorldOK(w)
  {
    (w.base + Turns(w.ring.n, w.ring.lead, t)) % 16
  }

  ghost predicate ShapeOK(w: World, s: Rstate) {
    && WorldOK(w)
    && |s.ds| == |s.at| == w.ring.n
    && 1 <= |s.hist| == |s.sent|
  }

  // The state in which the first daemon of the ring handles its first token
  // after installing the membership: every daemon has installed it, and old
  // copies of tokens may still be about.
  ghost predicate Fresh(w: World, i: int, d: Dstate, at: int, opening: Token)
    requires WorldOK(w)
  {
    && d.me == i && d.memb == w.memb && !d.evs && !d.fault
    && d.aru == d.myAru == d.highest == d.discarded == d.delivered == 0
    && d.pk == map[] && d.queue == [] && d.log == []
    && d.numSent == 0 <= d.numRetrans
    && d.last.seqNo == 0 && (d.justInstalled || d.last.aru == 0) && d.last.arq == Arq(w, at)
    && -w.ring.n < at <= 0 && at % w.ring.n == i
    && d.last.from == i && (at == 0 ==> SameToken(d.last, opening))
  }

  ghost predicate Opening(w: World, s: Rstate, c: Copy)
    requires WorldOK(w) && 1 <= |s.sent|
  {
    && c.visit <= 0
    && c.token.from == c.visit % w.ring.n && c.token.arq == Arq(w, c.visit)
    && (c.visit == 0 ==> SameToken(c.token, s.sent[0]))
  }

  // A repetition differs from the original at most in that it asks for none of
  // the packets the original asked for, and in how often it was repeated.
  predicate SameToken(t: Token, u: Token) {
    t == u.(retrans := t.retrans, rtr := t.rtr) && (t.rtr == u.rtr || t.rtr == [])
  }

  function SumFlow(ds: seq<Dstate>): int {
    if ds == [] then 0 else SumFlow(ds[..|ds| - 1]) + ds[|ds| - 1].numRetrans + ds[|ds| - 1].numSent
  }

  function SumSent(ds: seq<Dstate>): int {
    if ds == [] then 0 else SumSent(ds[..|ds| - 1]) + ds[|ds| - 1].numSent
  }

  ghost predicate Init(w: World, s: Rstate) {
    && ShapeOK(w, s) && |s.sent| == 1 && s.all == []
    && (forall i :: 0 <= i < w.ring.n ==> Fresh(w, i, s.ds[i], s.at[i], s.sent[0]))
    && var t := s.sent[0];
    && s.hist[0] == Visit(0, t.aru, t.aruLast, 0)
    && t.from == 0 && t.arq == Arq(w, 0) && t.seqNo == 0 && 0 <= t.aru && t.aruLast == 1 % w.ring.n
    && t.flowControl == SumFlow(s.ds)
    && (forall x :: 0 <= x < |t.rtr| ==> t.rtr[x].memb != w.memb)
    && (forall c :: c in s.tokens ==> Opening(w, s, c))
    && (forall p :: p in s.packets ==> p.memb != w.memb)
  }

  // No copy of a token that is 16 rounds old or more arrives.
  predicate Recent(w: World, s: Rstate, i: int, c: Copy)
    requires 0 <= i < |s.at|
  {
    s.at[i] + w.ring.n - 1 - c.visit < 16 * w.ring.n
  }

  ghost predicate Enabled(w: World, s: Rstate, step: Step)
    requires ShapeOK(w, s)
  {
    && 0 <= step.i < w.ring.n
    && match step
       case Arrive(i, c, offer) => c in s.tokens && Recent(w, s, i, c) && s.ds[i].queue == []
       case Hurry(i) => i == w.ring.lead && s.ds[i].queue == []
       case Wanted(i) => i == w.ring.lead && s.ds[i].queue == [] && Holds(s.ds[i])
       case Receipt(i, p) => p in s.packets && s.ds[i].queue == []
       case Flush(i) => true
       case Threshold(i, level) => s.ds[i].queue == []
       case AgreedEvent(i) => s.ds[i].queue == []
       case ReliableEvent(i) => s.ds[i].queue == []
  }

  function WithDaemon(s: Rstate, i: int, d: Dstate): Rstate
    requires 0 <= i < |s.ds|
  {
    s.(ds := s.ds[i := d])
  }

  function Repeated(s: Rstate, i: int, retrans: int): Rstate
    requires 0 <= i < |s.ds| == |s.at|
  {
    var t := Repetition(s.ds[i], retrans);
    WithDaemon(s, i, s.ds[i].(last := t)).(tokens := s.tokens + {Copy(s.at[i], t)})
  }

  function SetOf(ps: seq<Packet>): set<Packet> {
    set p | p in ps
  }

  function Accepted(w: World, s: Rstate, i: int, t: Token, offer: seq<Payload>): Rstate
    requires 0 <= i < |s.ds| == |s.at| && 0 <= s.ds[i].me < |w.ring.personal| == |w.ring.seg|
  {
    var d := s.ds[i];
    var o := HandleToken(w.ring, d, t, offer);
    Rstate(
      s.ds[i := o.d], s.at[i := |s.sent|],
      s.sent + [o.token], s.hist + [Visit(o.token.seqNo, o.token.aru, o.token.aruLast, o.d.myAru)],
      s.all + Created(d.me, d.memb, Raise(d, t).highest, offer, Min(|offer|, NumSent(d, w.ring, t, offer))),
      if o.sends then s.tokens + {Copy(|s.sent|, o.token)} else s.tokens,
      s.packets + SetOf(o.casts))
  }

  function Next(w: World, s: Rstate, step: Step): Rstate
    requires |s.ds| == |s.at| && 0 <= step.i < |s.ds|
    requires 0 <= s.ds[step.i].me < |w.ring.personal| == |w.ring.seg|
  {
    var d := s.ds[step.i];
    match step
    case Arrive(i, c, offer) =>
      (match Judge(d, w.ring, c.token)
       case Swallow => s
       case Repeat => Repeated(s, i, c.token.retrans)
       case Accept => Accepted(w, s, i, c.token, offer))
    case Hurry(i) => Repeated(s, i, (d.last.retrans + 1) % 16)
    case Wanted(i) => Repeated(WithDaemon(s, i, d.(counter := 0)), i, (d.last.retrans + 1) % 16)
    case Receipt(i, p) => WithDaemon(s, i, Receive(d, p))
    case Flush(i) => WithDaemon(s, i, d.(queue := [])).(packets := s.packets + SetOf(d.queue))
    case Threshold(i, level) => WithDaemon(s, i, d.(threshold := level))
    case AgreedEvent(i) => WithDaemon(s, i, DeliverAgreed(d))
    case ReliableEvent(i) => WithDaemon(s, i, DeliverReliable(d, 1, d.highest))
  }

  // A run: the states a ring goes through.
  ghost predicate StepFrom(w: World, s: Rstate, step: Step, s': Rstate) {
    && ShapeOK(w, s) && Enabled(w, s, step)
    && 0 <= s.ds[step.i].me < w.ring.n
    && s' == Next(w, s, step)
  }

  ghost predicate CanStep(w: World, s: Rstate, s': Rstate) {
    exists step :: StepFrom(w, s, step, s')
  }

  ghost predicate Run(w: World, ss: seq<Rstate>) {
    && 0 < |ss| && Init(w, ss[0])
    && forall k :: 0 < k < |ss| ==> CanStep(w, ss[k - 1], ss[k])
  }
}
