// What the methods of a daemon ask for is what every run of its ring provides.
module DaemonInRing {
  import opened Types
  import opened RingArith
  import opened TokenHistory
  import opened Protocol
  import opened Delivery
  import opened TokenVisit
  import opened OpRing
  import opened OpInv
  import opened OpSafety
  import opened OpTheorems
  import opened OpWindows
  import DaemonClass

  lemma {:induction false} LastSeen(w: World, s: Rstate, i: int)
    requires Inv(w, s) && 0 <= i < w.ring.n
    ensures s.ds[i].last.seqNo <= s.ds[i].highest
  {
    hide NetworkOK, RequestsOK, CastOK, QueueOK, Arq, Stable, Chain;
    AnyDaemon(w, s, i);
    CoreBounds(s.all, {}, s.ds[i]);
    if 0 <= s.at[i] { assert TokenOK(w, s, s.at[i]); }
  }

  // At every moment each daemon is as its methods ask.
  lemma {:induction false} AlwaysValid(w: World, ss: seq<Rstate>, k: nat, i: int)
    requires Run(w, ss) && k < |ss| && WorldOK(w) && PersonalAtMost(w, MAX_PACKETS_IN_STRUCT - MAX_SEQ_GAP) && 0 <= i < w.ring.n
    ensures |ss[k].ds| == w.ring.n && DaemonClass.ValidState(w.ring, ss[k].ds[i])
  {
    hide HistOK, NetworkOK, RequestsOK, CastOK, LastOK, QueueOK, Arq, Stable, Core, Run;
    RunInvAt(w, ss, k);
    AnyDaemon(w, ss[k], i);
    CoreBounds(ss[k].all, {}, ss[k].ds[i]);
    LastSeen(w, ss[k], i);
    SequenceGap(w, ss, k, i, MAX_PACKETS_IN_STRUCT - MAX_SEQ_GAP);
  }

  // A packet of the ring that arrives is old or has an entry of its own.
  lemma {:induction false} ReceiptFits(w: World, ss: seq<Rstate>, k: nat, i: int, p: Packet)
    requires Run(w, ss) && k < |ss| && ShapeOK(w, ss[k]) && PersonalAtMost(w, MAX_PACKETS_IN_STRUCT - MAX_SEQ_GAP)
    requires Enabled(w, ss[k], Receipt(i, p))
    ensures p.memb == ss[k].ds[i].memb ==> p.seqNo <= ss[k].ds[i].discarded || DaemonClass.InWindowOf(ss[k].ds[i], p.seqNo)
  {
    hide HistOK, NetworkOK, RequestsOK, CastOK, LastOK, QueueOK, Arq, Stable, Core, Run;
    RunInvAt(w, ss, k);
    AnyDaemon(w, ss[k], i);
    SequenceGap(w, ss, k, i, MAX_PACKETS_IN_STRUCT - MAX_SEQ_GAP);
    if p.memb == w.memb { UniqueNumbers(w, ss, k, p); }
  }

  // A token that is accepted asks for nothing outside the window.
  lemma {:induction false} AcceptedFits(w: World, ss: seq<Rstate>, k: nat, i: int, c: Copy, offer: seq<Payload>)
    requires Run(w, ss) && k < |ss| && ShapeOK(w, ss[k]) && PersonalAtMost(w, MAX_PACKETS_IN_STRUCT - MAX_SEQ_GAP)
    requires Enabled(w, ss[k], Arrive(i, c, offer)) && Judge(ss[k].ds[i], w.ring, c.token) == Accept
    ensures DaemonClass.FitsState(w.ring, ss[k].ds[i], c.token)
  {
    hide HistOK, NetworkOK, DaemonsOK, RequestsOK, CastOK, DaemonOK, Arq, Stable, Core, Run, Judge;
    RunInvAt(w, ss, k);
    var s := ss[k];
    AnyDaemon(w, s, i);
    AnyCopy(w, s, c);
    AlwaysValid(w, ss, k, i);
    SequenceGap(w, ss, k, i, MAX_PACKETS_IN_STRUCT - MAX_SEQ_GAP);
    AcceptedIsNext(w, s, i, c);
    TurnPre(w, s, i, c.token);
    DaemonMemb(w, s, i);
    forall x, y | 0 <= x < |c.token.rtr| && c.token.rtr[x].memb == s.ds[i].memb && 0 <= y < |c.token.rtr[x].seqs|
      ensures DaemonClass.InWindowOf(s.ds[i], c.token.rtr[x].seqs[y])
    {
      RequestBounds(w, s, i, c.token, x, y);
    }
  }

  lemma {:induction false} DaemonMemb(w: World, s: Rstate, i: int)
    requires Inv(w, s) && 0 <= i < w.ring.n
    ensures s.ds[i].memb == w.memb
  {
    AnyDaemon(w, s, i);
  }
}
