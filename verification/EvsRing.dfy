// Recovery of a whole ring as a transition system: daemons of several old rings
// have acted on the FORM2 token and now pass the first regular token of the new
// membership round until they have exchanged what was missing.
//
// Daemons are numbered in token order so that daemon 0 is the last one, which
// turned the FORM2 token into that first token; visit t falls to daemon t % n.
module EvsRing {
  import opened Types
  import opened RingArith
  import opened TokenHistory
  import opened Protocol
  import opened TokenVisit
  import opened Form
  import opened FormRecords
  import opened Evs
  import opened FormEvs
  import opened EvsVisit
  import opened OpRing

  const INT32_MAX := 0x7fff_ffff

  // The old ring of a daemon: its packets and the record of it.
  datatype Old = Old(all: seq<Packet>, r: RingInfo)

  // The new ring, Last_seq, and the old ring of each daemon.
  datatype Recovery = Recovery(w: World, last: int, olds: seq<Old>)

  datatype Estate = Estate(
    ds: seq<Dstate>,
    at: seq<int>,
    sent: seq<Token>,
    hist: seq<Visit>,
    tokens: set<Copy>,
    packets: set<Packet>)

  datatype Estep =
    | Take(i: int, c: Copy, offer: seq<Payload>)
    | Again(i: int)
    | Get(i: int, p: Packet)
    | Limit(i: int, level: int)

  predicate RecoveryOK(v: Recovery) {
    && WorldOK(v.w) && v.w.ring.lead == 1 % v.w.ring.n && Arq(v.w, 0) == 0
    && |v.olds| == v.w.ring.n && 0 < v.last < INT32_MAX
    && (forall i :: 0 <= i < |v.olds| ==> v.olds[i].r.memb != v.w.memb)
    && (forall i, q :: 0 <= i < |v.olds| && 0 <= q < |v.olds[i].all| ==> v.olds[i].all[q].memb == v.olds[i].r.memb)
    && (forall i, j :: 0 <= i < |v.olds| && 0 <= j < |v.olds| && v.olds[i].r.memb == v.olds[j].r.memb ==> v.olds[i] == v.olds[j])
  }

  ghost predicate EShapeOK(v: Recovery, s: Estate) {
    && RecoveryOK(v)
    && |s.ds| == |s.at| == v.w.ring.n
    && 1 <= |s.hist| == |s.sent|
  }

  function FirstToken(): Token {
    Token(0, 0, 0, 0, INT32_MAX, -1, 0, [])
  }

  // Packet p, if it is one of the old ring, is the one of that number.
  ghost predicate Known(o: Old, p: Packet) {
    p.memb == o.r.memb ==> 1 <= p.seqNo <= |o.all| && p == o.all[p.seqNo - 1]
  }

  ghost predicate PacketOK(v: Recovery, p: Packet) {
    p.memb != v.w.memb && forall i :: 0 <= i < |v.olds| ==> Known(v.olds[i], p)
  }

  // A daemon that has just acted on the FORM2 token.
  ghost predicate Entered(v: Recovery, i: int, d: Dstate, at: int)
    requires RecoveryOK(v) && 0 <= i < |v.olds|
  {
    var o := v.olds[i];
    && d.me == i && d.memb == o.r.memb && d.future == v.w.memb && d.lastSeq == v.last
    && Recovering(o.all, d, o.r) && d.myAru <= d.highest && BelowHoles(o.r.holes, d.delivered)
    && d.aru == 0 && d.numRetrans == d.numSent == 0 && d.queue == []
    && d.last.arq == d.last.seqNo == d.last.aru == 0
    && -v.w.ring.n < at <= 0 && at % v.w.ring.n == i
  }

  ghost predicate EInit(v: Recovery, s: Estate) {
    && EShapeOK(v, s) && s.sent == [FirstToken()] && s.hist == [Visit(0, INT32_MAX, -1, 0)]
    && (forall i :: 0 <= i < v.w.ring.n ==> Entered(v, i, s.ds[i], s.at[i]))
    && s.tokens == {Copy(0, FirstToken())}
    && (forall p :: p in s.packets ==> PacketOK(v, p))
  }

  predicate ERecent(v: Recovery, s: Estate, i: int, c: Copy)
    requires 0 <= i < |s.at|
  {
    s.at[i] + v.w.ring.n - 1 - c.visit < 16 * v.w.ring.n
  }

  // Recovery ends when a daemon that has installed the membership would accept
  // the token.  No packet of an old ring above its record arrives any more.
  ghost predicate EEnabled(v: Recovery, s: Estate, step: Estep)
    requires EShapeOK(v, s)
  {
    && 0 <= step.i < v.w.ring.n
    && match step
       case Take(i, c, offer) =>
         c in s.tokens && ERecent(v, s, i, c) && (Judge(s.ds[i], v.w.ring, c.token) == Accept ==> s.ds[i].evs)
       case Again(i) => i == v.w.ring.lead && 1 <= s.at[i]
       case Get(i, p) => p in s.packets && (p.memb == v.olds[i].r.memb ==> p.seqNo <= v.olds[i].r.highest)
       case Limit(i, level) => true
  }

  function With(s: Estate, i: int, d: Dstate): Estate
    requires 0 <= i < |s.ds|
  {
    s.(ds := s.ds[i := d])
  }

  // A repetition of a token that was sent before the daemon joined this
  // membership still bears the id of the old one, and nobody here accepts it.
  function ERepeated(s: Estate, i: int, retrans: int): Estate
    requires 0 <= i < |s.ds| == |s.at|
  {
    var t := Repetition(s.ds[i], retrans);
    With(s, i, s.ds[i].(last := t)).(tokens := if 1 <= s.at[i] then s.tokens + {Copy(s.at[i], t)} else s.tokens)
  }

  function EAccepted(v: Recovery, s: Estate, i: int, t: Token, offer: seq<Payload>): Estate
    requires 0 <= i < |s.ds| == |s.at| && 0 <= s.ds[i].me < |v.w.ring.personal| == |v.w.ring.seg|
  {
    var d := s.ds[i];
    var o := HandleToken(v.w.ring, d, t, offer);
    Estate(
      s.ds[i := o.d], s.at[i := |s.sent|],
      s.sent + [o.token],
      s.hist + [Visit(o.token.seqNo, o.token.aru, o.token.aruLast, Complete(Ready(v.w.ring, d, t, offer).d).myAru)],
      if o.sends then s.tokens + {Copy(|s.sent|, o.token)} else s.tokens,
      s.packets + SetOf(o.casts))
  }

  function ENext(v: Recovery, s: Estate, step: Estep): Estate
    requires |s.ds| == |s.at| && 0 <= step.i < |s.ds|
    requires 0 <= s.ds[step.i].me < |v.w.ring.personal| == |v.w.ring.seg|
  {
    var d := s.ds[step.i];
    match step
    case Take(i, c, offer) =>
      (match Judge(d, v.w.ring, c.token)
       case Swallow => s
       case Repeat => ERepeated(s, i, c.token.retrans)
       case Accept => EAccepted(v, s, i, c.token, offer))
    case Again(i) => ERepeated(s, i, (d.last.retrans + 1) % 16)
    case Get(i, p) => With(s, i, Receive(d, p))
    case Limit(i, level) => With(s, i, d.(threshold := level))
  }

  ghost predicate EStepFrom(v: Recovery, s: Estate, step: Estep, s': Estate) {
    && EShapeOK(v, s) && EEnabled(v, s, step)
    && 0 <= s.ds[step.i].me < v.w.ring.n
    && s' == ENext(v, s, step)
  }

  ghost predicate ECanStep(v: Recovery, s: Estate, s': Estate) {
    exists step :: EStepFrom(v, s, step, s')
  }

  ghost predicate ERun(v: Recovery, ss: seq<Estate>) {
    && 0 < |ss| && EInit(v, ss[0])
    && forall k :: 0 < k < |ss| ==> ECanStep(v, ss[k - 1], ss[k])
  }
}
