// protocol.c as it is written: one object with the global counters and the
// packet array, changed in place by loops.  Each method is proved to do to the
// state what the function of the same name in Protocol says.
module DaemonClass {
  import opened Types
  import opened RingArith
  import opened PacketBuffer
  import P = Protocol
  import V = TokenVisit

  // What the methods of a daemon ask for, as conditions on its state.
  predicate InWindowOf(d: Dstate, s: int) {
    d.discarded < s <= d.discarded + MAX_PACKETS_IN_STRUCT
  }

  predicate ValidState(ring: Ring, d: Dstate) {
    && !d.fault && 0 <= d.me < |ring.personal| == |ring.seg|
    && 0 <= d.discarded <= d.delivered && d.discarded <= d.myAru && d.discarded <= d.highest <= d.discarded + MAX_PACKETS_IN_STRUCT
    && (d.evs ==> d.discarded <= d.lastSeq)
    && (d.evs || (d.myAru <= d.highest && d.aru == d.discarded && d.last.seqNo <= d.highest))
  }

  predicate FitsState(ring: Ring, d: Dstate, t: Token) {
    && ValidState(ring, d) && t.seqNo <= d.discarded + MAX_PACKETS_IN_STRUCT
    && ring.personal[d.me] <= MAX_PACKETS_IN_STRUCT - MAX_SEQ_GAP && (d.evs ==> t.seqNo <= 0)
    && forall x, y :: 0 <= x < |t.rtr| && t.rtr[x].memb == d.memb && 0 <= y < |t.rtr[x].seqs| ==>
         t.rtr[x].seqs[y] < d.aru || InWindowOf(d, t.rtr[x].seqs[y])
  }

  class Daemon {
    const me: int
    const ring: Ring
    const packets: array<Entry>
    var memb: MembId
    var evs: bool
    var justInstalled: bool
    var aru: int
    var myAru: int
    var highest: int
    var discarded: int
    var delivered: int
    var last: Token
    var numRetrans: int
    var numSent: int
    var counter: int
    var threshold: int
    var queue: seq<Packet>
    var log: seq<Event>
    var lastSeq: int
    var future: MembId
    var commit: CommitSet
    var futureCommit: CommitSet
    var fault: bool
    var wire: seq<Packet>     // everything put on the network, in order

    ghost function Live(): (m: map<int, Slot>)
      requires packets.Length == MAX_PACKETS_IN_STRUCT
      reads this, packets
      ensures forall s :: s in m ==> InWindow(s)
    {
      View(packets[..], discarded)
    }

    ghost function State(): Dstate
      requires packets.Length == MAX_PACKETS_IN_STRUCT
      reads this, packets
    {
      Dstate(me, memb, evs, justInstalled, aru, myAru, highest, discarded, delivered, Live(), last,
             numRetrans, numSent, counter, threshold, queue, log, lastSeq, future, commit, futureCommit, fault)
    }

    // The numbers whose entries the daemon may use without confusing packets.
    ghost predicate InWindow(s: int)
      reads this
    {
      discarded < s <= discarded + MAX_PACKETS_IN_STRUCT
    }

    ghost predicate Sound()
      reads this
    {
      && packets.Length == MAX_PACKETS_IN_STRUCT && !fault
      && 0 <= me < |ring.personal| == |ring.seg|
      && 0 <= discarded <= delivered && discarded <= myAru && discarded <= highest <= discarded + MAX_PACKETS_IN_STRUCT
      && (evs ==> discarded <= lastSeq)
    }

    ghost predicate Valid()
      reads this
    {
      && Sound()
      && (evs || (myAru <= highest && aru == discarded && last.seqNo <= highest))
    }

    // The object is in state r; or the process has ended in the branch where r
    // records an exit.
    ghost predicate Is(r: Dstate)
      reads this, packets
    {
      packets.Length == MAX_PACKETS_IN_STRUCT && if r.fault then fault else Valid() && State() == r
    }

    // What the methods ask for, read off the state.
    lemma {:induction false} ValueForm(t: Token, s: int)
      requires packets.Length == MAX_PACKETS_IN_STRUCT
      ensures Valid() <==> ValidState(ring, State())
      ensures Fits(t) <==> FitsState(ring, State(), t)
      ensures InWindow(s) <==> InWindowOf(State(), s)
    {
    }

    // Packets[i & PACKET_MASK].
    function At(i: int): (e: Entry)
      requires packets.Length == MAX_PACKETS_IN_STRUCT && InWindow(i)
      reads this, packets
      ensures e.Full? <==> i in Live()
      ensures e.Full? ==> Live()[i] == e.slot
    {
      ViewAt(packets[..], discarded, i);
      packets[i % MAX_PACKETS_IN_STRUCT]
    }

    method Store(i: int, e: Entry)
      requires packets.Length == MAX_PACKETS_IN_STRUCT && InWindow(i)
      modifies packets
      ensures Live() == if e.Full? then old(Live())[i := e.slot] else old(Live()) - {i}
    {
      ViewStore(packets[..], discarded, i, e);
      packets[i % MAX_PACKETS_IN_STRUCT] := e;
    }

    // Deliver_packet: hand the packet up and mark its entry.
    method DeliverPacket(s: int)
      requires packets.Length == MAX_PACKETS_IN_STRUCT && InWindow(s) && s in Live() && !Live()[s].Hole?
      modifies `log, packets
      ensures State() == P.Deliver(old(State()), s)
    {
      hide View;
      var p := At(s).slot.p;
      log := log + [Msg(p)];
      Store(s, Full(Given(p)));
    }

    // Deliver_agreed_packets.
    method DeliverAgreed()
      requires Valid()
      modifies this, packets
      ensures Is(P.DeliverAgreed(old(State()))) && wire == old(wire)
    {
      hide View, P.AgreedLoop;
      if myAru <= delivered { return; }
      if evs { return; }
      if threshold > Level(Agreed) { return; }
      ghost var end := P.AgreedLoop(State());
      var i := delivered + 1;
      while i <= myAru
        invariant Valid() && !evs && i == delivered + 1 && delivered <= myAru
        invariant P.AgreedLoop(State()) == end && wire == old(wire)
        decreases myAru - i
      {
        ghost var d := State();
        AgreedUnfold(d);
        var entry := At(i);
        if entry.Empty? || entry.slot.Hole? {
          fault := true;
          return;
        } else if entry.slot.Held? {
          if entry.slot.p.payload.service == Safe { return; }
          DeliverPacket(i);
          delivered := delivered + 1;
          assert State() == P.Deliver(d, i).(delivered := i);
        } else {
          if Level(entry.slot.p.payload.service) >= Level(Agreed) {
            fault := true;
            return;
          }
          delivered := delivered + 1;
          assert State() == d.(delivered := i);
        }
        i := i + 1;
      }
      AgreedUnfold(State());
    }

    // Deliver_reliable_packets.
    method DeliverReliable(start: int, num: int)
      requires Valid() && start + num - 1 <= discarded + MAX_PACKETS_IN_STRUCT
      modifies `log, packets
      ensures Is(P.DeliverReliable(old(State()), start, num))
    {
      hide View, P.ReliableLoop;
      if evs || threshold > Level(Reliable) { return; }
      ghost var first := State();
      var end := start + num - 1;
      var i := if start <= delivered then delivered + 1 else start;
      while i <= end
        invariant Valid() && delivered < i
        invariant P.ReliableLoop(State(), i, end) == P.DeliverReliable(first, start, num)
      {
        ghost var d := State();
        ReliableUnfold(d, i, end);
        var entry := At(i);
        if entry.Full? && entry.slot.Held? && entry.slot.p.Early() {
          DeliverPacket(i);
          assert State() == P.Deliver(d, i);
        }
        i := i + 1;
      }
      ReliableUnfold(State(), i, end);
    }

    // The loop that moves My_aru over the entries that exist.
    method AdvanceMyAru()
      requires Valid()
      modifies `myAru
      ensures Valid() && State() == old(State()).(myAru := P.Advance(old(Live()), old(myAru), highest))
    {
      hide View;
      var i := myAru + 1;
      while i <= highest
        invariant Valid() && i == myAru + 1
        invariant P.Advance(Live(), myAru, highest) == P.Advance(Live(), old(myAru), highest)
      {
        if At(i).Empty? { return; }
        myAru := myAru + 1;
        i := i + 1;
      }
    }

    // Prot_handle_bcast for a regular packet.
    method HandleBcast(p: Packet)
      requires Valid() && (p.memb == memb ==> p.seqNo <= discarded || InWindow(p.seqNo))
      modifies this, packets
      ensures Is(P.Receive(old(State()), p)) && wire == old(wire)
    {
      hide View, P.DeliverAgreed, P.DeliverReliable, P.Advance;
      if p.memb != memb { return; }
      if p.seqNo <= discarded { return; }
      if At(p.seqNo).Full? { return; }
      Store(p.seqNo, Full(Held(p)));
      if highest < p.seqNo { highest := p.seqNo; }
      if p.seqNo == myAru + 1 {
        AdvanceMyAru();
        DeliverAgreed();
      } else {
        DeliverReliable(p.seqNo, 1);
      }
    }

    // --------------------------------------------------------- sending packets

    // FC_allowed.
    method FcAllowed(flowControl: int) returns (allowed: int)
      requires Valid()
      ensures allowed == P.Allowed(State(), ring.window, ring.personal[me], flowControl)
      ensures evs || highest > aru + MAX_SEQ_GAP ==> allowed == 0
      ensures !evs && highest <= aru + MAX_SEQ_GAP && 0 <= ring.window && 0 <= ring.personal[me] ==>
                && (allowed == 0 || P.WithinWindows(allowed, ring.window, ring.personal[me], flowControl))
                && forall b :: P.WithinWindows(b, ring.window, ring.personal[me], flowControl) ==> b <= allowed
    {
      if evs { return 0; }
      if highest > aru + MAX_SEQ_GAP { return 0; }
      allowed := ring.window + ring.personal[me] - flowControl;
      if allowed < 0 { allowed := 0; }
      if allowed > ring.window { allowed := ring.window; }
      if allowed > ring.personal[me] { allowed := ring.personal[me]; }
    }

    // The first num packets of the send queue go out.
    method SendQueued(num: int)
      requires 0 <= num <= |queue|
      modifies `queue, `wire
      ensures wire == old(wire) + old(queue)[..num] && queue == old(queue)[num..]
    {
      var i := 0;
      while i < num
        invariant 0 <= i <= num
        invariant wire == old(wire) + old(queue)[..i] && queue == old(queue)[i..]
      {
        wire := wire + [queue[0]];
        queue := queue[1..];
        i := i + 1;
      }
    }

    // Prot_queue_bcast.
    method QueueBcast(p: Packet)
      modifies `queue, `wire
      ensures var q := P.QueueBcast(ring, evs, old(queue), p); wire == old(wire) + q.0 && queue == q.1
      ensures 0 <= ring.acceleratedWindow ==>
                var waiting := old(queue) + [p];
                var back := if ring.accelerated && !evs then Min(|waiting|, ring.acceleratedWindow) else 0;
                wire == old(wire) + waiting[..|waiting| - back] && queue == waiting[|waiting| - back..]
    {
      if 0 <= ring.acceleratedWindow { V.QueueBcastHoldsBack(ring, evs, queue, p); }
      var num := |queue|;
      if ring.accelerated && !evs {
        num := |queue| - ring.acceleratedWindow + 1;
        if num < 0 { num := 0; }
        if num > |queue| { num := |queue|; }
      }
      SendQueued(num);
      if !ring.accelerated || ring.acceleratedWindow == 0 || evs {
        wire := wire + [p];
      } else {
        queue := queue + [p];
      }
    }

    // One packet of Send_new_packets.
    method SendPacket(o: Payload)
      requires Valid() && InWindow(highest + 1)
      modifies `highest, `queue, `wire, `fault, packets
      ensures var c := P.SendOne(ring, old(State()), o);
              Is(c.d) && wire == old(wire) + c.casts && highest == old(highest) + 1
    {
      hide View, P.QueueBcast;
      var p := Packet(highest + 1, me, memb, o);
      highest := highest + 1;
      QueueBcast(p);
      if At(p.seqNo).Full? {
        fault := true;
        return;
      }
      Store(p.seqNo, Full(Held(p)));
    }

    // Send_new_packets.
    method SendNewPackets(offer: seq<Payload>, allowed: int) returns (num: nat)
      requires Valid() && allowed <= Max(0, discarded + MAX_PACKETS_IN_STRUCT - highest)
      modifies `highest, `queue, `wire, `fault, packets
      ensures num <= Max(0, Min(|offer|, allowed))
      ensures var k := Max(0, Min(|offer|, allowed));
              var b := P.SendNew(ring, old(State()), offer, k);
              Is(b.d) && (!b.d.fault ==> num == k && wire == old(wire) + b.casts)
    {
      hide View, P.SendNew, P.SendOne;
      ghost var first, k := State(), Max(0, Min(|offer|, allowed));
      num := 0;
      SendUnfold(ring, first, offer, 0);
      while num < allowed
        invariant 0 <= num <= k && highest == first.highest + num && Valid() && discarded == first.discarded
        invariant var b := P.SendNew(ring, first, offer, num);
                  State() == b.d && wire == old(wire) + b.casts
      {
        if num == |offer| { return; }
        SendUnfold(ring, first, offer, num + 1);
        ghost var b := P.SendNew(ring, first, offer, num);
        SendPacket(offer[num]);
        num := num + 1;
        if fault {
          SendFaultStays(ring, first, offer, num, k);
          return;
        }
      }
    }

    // ------------------------------------------------- discarding in normal operation

    // Deliver packet i unless that was done, and free its entry.
    method Release(i: int)
      requires packets.Length == MAX_PACKETS_IN_STRUCT && InWindow(i) && i in Live() && !Live()[i].Hole?
      modifies `log, packets
      ensures State() == P.Release(old(State()), i)
    {
      hide View;
      ghost var d := State();
      if At(i).slot.Held? {
        DeliverPacket(i);
        assert Live().Keys == d.pk.Keys;
      }
      Store(i, Empty);
    }

    // Discard_packets outside EVS.
    method DiscardRegular()
      requires Sound() && !evs && discarded <= aru <= myAru <= highest && last.seqNo <= highest
      modifies `log, `fault, `discarded, `delivered, packets
      ensures Is(P.DiscardRegular(old(State())))
    {
      hide View, P.DiscardLoop;
      if aru <= discarded { return; }
      ghost var d := State();
      var i := discarded + 1;
      while i <= aru
        invariant Sound() && discarded < i <= aru + 1 && discarded == d.discarded
        invariant P.DiscardLoop(State(), i) == P.DiscardLoop(d, d.discarded + 1)
        invariant State() == d.(log := log, pk := Live()) && forall s :: s in Live() ==> i <= s
      {
        ghost var e := State();
        DiscardUnfold(e, i);
        var entry := At(i);
        if entry.Empty? || entry.slot.Hole? {
          fault := true;
          return;
        }
        Release(i);
        i := i + 1;
      }
      DiscardUnfold(State(), i);
      ViewSlide(packets[..], discarded, aru);
      discarded := aru;
      if delivered < discarded { delivered := discarded; }
    }

    // ----------------------------------------------------------- discarding in EVS

    // Up to the first hole or safe packet.
    method BeforeTrans()
      requires packets.Length == MAX_PACKETS_IN_STRUCT && !fault && highest <= discarded + MAX_PACKETS_IN_STRUCT
      modifies `log, `fault, `discarded, packets
      ensures highest <= discarded + MAX_PACKETS_IN_STRUCT
      ensures var e := P.BeforeTrans(old(State())); if e.fault then fault else State() == e
    {
      hide View, P.BeforeTrans, P.Release;
      ghost var end := P.BeforeTrans(State());
      var i := discarded + 1;
      while i <= highest
        invariant packets.Length == MAX_PACKETS_IN_STRUCT && !fault && i == discarded + 1
        invariant highest <= discarded + MAX_PACKETS_IN_STRUCT && P.BeforeTrans(State()) == end
        decreases highest - i
      {
        ghost var d := State();
        P.BeforeUnfold(d);
        var entry := At(i);
        if entry.Empty? {
          fault := true;
          return;
        }
        if entry.slot.Hole? { return; }
        if entry.slot.p.payload.service == Safe { return; }
        Release(i);
        ReleaseKeys(d, i);
        ViewSlide(packets[..], discarded, i);
        discarded := i;
        i := i + 1;
      }
      P.BeforeUnfold(State());
    }

    // The rest; beyond a hole only what committed members sent.
    method AfterTrans()
      requires packets.Length == MAX_PACKETS_IN_STRUCT && !fault && highest <= discarded + MAX_PACKETS_IN_STRUCT
      modifies `log, `fault, packets
      ensures var e := P.AfterTrans(old(State()), discarded + 1, false); if e.fault then fault else State() == e
    {
      hide View, P.AfterTrans, P.Release;
      ghost var end := P.AfterTrans(State(), discarded + 1, false);
      var foundHole := false;
      var i := discarded + 1;
      while i <= highest
        invariant packets.Length == MAX_PACKETS_IN_STRUCT && !fault && discarded < i
        invariant P.AfterTrans(State(), i, foundHole) == end
      {
        ghost var d := State();
        P.AfterUnfold(d, i, foundHole);
        var entry := At(i);
        if entry.Empty? {
          fault := true;
          return;
        }
        if entry.slot.Hole? {
          foundHole := true;
          Store(i, Empty);
        } else if !foundHole || entry.slot.p.sender in commit.members {
          Release(i);
        } else {
          Store(i, Empty);
        }
        i := i + 1;
      }
      P.AfterUnfold(State(), i, foundHole);
    }

    // Is an entry left behind?
    method AllGone() returns (gone: bool)
      requires packets.Length == MAX_PACKETS_IN_STRUCT
      ensures gone <==> Live() == map[]
    {
      ViewEmpty(packets[..], discarded);
      var i := 0;
      while i < MAX_PACKETS_IN_STRUCT
        invariant 0 <= i <= MAX_PACKETS_IN_STRUCT
        invariant forall x :: 0 <= x < i ==> packets[x].Empty?
      {
        if packets[i].Full? {
          assert packets[..][i].Full?;
          return false;
        }
        i := i + 1;
      }
      return true;
    }

    // Memb_regular.
    method Regular()
      requires packets.Length == MAX_PACKETS_IN_STRUCT
      modifies `memb, `evs, `justInstalled, `commit, `log
      ensures State() == old(State()).(memb := future, evs := false, justInstalled := true,
                                       commit := CommitSet([me], 1), log := old(log) + [RegMemb(future)])
    {
      hide View;
      justInstalled := true;
      memb := future;
      evs := false;
      commit := CommitSet([me], 1);
      log := log + [RegMemb(future)];
    }

    // The counters for the next membership.
    method ResetCounters()
      requires packets.Length == MAX_PACKETS_IN_STRUCT && Live() == map[]
      modifies `highest, `myAru, `aru, `discarded, `delivered, `counter
      ensures State() == old(State()).(highest := 0, myAru := 0, aru := 0, discarded := 0, delivered := 0, counter := 0)
    {
      hide View;
      EmptyAnywhere(packets[..], discarded, 0);
      highest := 0;
      myAru := 0;
      aru := 0;
      discarded := 0;
      delivered := 0;
      counter := 0;
    }

    // A daemon that has freed every entry starts the next membership.
    method Install()
      requires packets.Length == MAX_PACKETS_IN_STRUCT && !fault && Live() == map[] && last.seqNo <= 0
      requires 0 <= me < |ring.personal| == |ring.seg|
      modifies `memb, `evs, `justInstalled, `commit, `log, `highest, `myAru, `aru, `discarded, `delivered, `counter
      ensures Is(P.Install(old(State())))
    {
      hide View;
      Regular();
      ResetCounters();
    }

    // Discard_packets in EVS.
    method DiscardEvs()
      requires Valid() && evs && last.seqNo <= 0
      modifies this, packets
      ensures Is(P.DiscardEvs(old(State())))
      ensures wire == old(wire)
    {
      hide View, P.BeforeTrans, P.AfterTrans, P.TransMembers, P.Install;
      if aru <= discarded { return; }
      if aru != lastSeq { return; }
      BeforeTrans();
      if fault { return; }
      log := log + [TransMemb(P.TransMembers(commit))];
      AfterTrans();
      if fault { return; }
      var gone := AllGone();
      if !gone {
        InstallFaults(State());
        fault := true;
        return;
      }
      Install();
    }

    // Discard_packets.
    method Discard()
      requires Sound() && if evs then last.seqNo <= 0 else discarded <= aru <= myAru <= highest && last.seqNo <= highest
      modifies this, packets
      ensures Is(P.Discard(old(State())))
      ensures wire == old(wire)
    {
      hide View, P.DiscardEvs, P.DiscardRegular;
      if evs { DiscardEvs(); } else { DiscardRegular(); }
    }

    // ------------------------------------------------------------- the token

    // The answers to one list of requests.
    method AnswerList(r: Rtr, proc0: int, seg0: int, ghost a: P.Answer) returns (num: nat, proc: int, seg: int)
      requires Valid() && !a.fault && a.proc == proc0 && a.seg == seg0
      requires forall y :: 0 <= y < |r.seqs| ==> r.seqs[y] < aru || InWindow(r.seqs[y])
      modifies `wire, `fault
      ensures var b := P.AnswerList(old(State()), ring.seg[me], r, |r.seqs|, a);
              if b.fault then fault
              else
                && !fault && b.foreign == a.foreign && proc == b.proc && seg == b.seg
                && num == |b.casts| - |a.casts| && a.casts <= b.casts && wire == old(wire) + b.casts[|a.casts|..]
    {
      hide View, P.AnswerList;
      ghost var d := State();
      num, proc, seg := 0, proc0, seg0;
      AnswerUnfold(d, ring.seg[me], r, 0, a);
      var i := 0;
      while i < |r.seqs|
        invariant 0 <= i <= |r.seqs| && !fault && State() == d
        invariant var b := P.AnswerList(d, ring.seg[me], r, i, a);
                  && !b.fault && b.foreign == a.foreign && proc == b.proc && seg == b.seg
                  && num == |b.casts| - |a.casts| && a.casts <= b.casts && wire == old(wire) + b.casts[|a.casts|..]
      {
        AnswerUnfold(d, ring.seg[me], r, i + 1, a);
        if r.seqs[i] < aru {
          fault := true;
          AnswerFaultStays(d, ring.seg[me], r, i + 1, |r.seqs|, a);
          return;
        }
        var entry := At(r.seqs[i]);
        i := i + 1;
        if entry.Full? {
          if entry.slot.Hole? {
            fault := true;
            AnswerFaultStays(d, ring.seg[me], r, i, |r.seqs|, a);
            return;
          }
          wire := wire + [entry.slot.p];
          num := num + 1;
        } else {
          proc := -1;
          if r.seg != ring.seg[me] { seg := -1; }
        }
      }
    }

    ghost predicate InReach(rs: seq<Rtr>)
      reads this
    {
      forall x, y :: 0 <= x < |rs| && rs[x].memb == memb && 0 <= y < |rs[x].seqs| ==>
        rs[x].seqs[y] < aru || InWindow(rs[x].seqs[y])
    }

    // Answer_retrans.
    method AnswerRetrans(rs: seq<Rtr>) returns (num: nat, foreign: seq<Rtr>, proc: int, seg: int)
      requires Valid() && InReach(rs)
      modifies `wire, `fault
      ensures var a := P.AnswerAll(old(State()), ring.seg[me], rs, |rs|);
              if a.fault then fault
              else
                && Valid() && foreign == a.foreign && proc == a.proc && seg == a.seg
                && num == |a.casts| && wire == old(wire) + a.casts
    {
      hide View, P.AnswerAll, P.AnswerList;
      ghost var d := State();
      num, foreign, proc, seg := 0, [], me, ring.seg[me];
      AnswerAllUnfold(d, ring.seg[me], rs, 0);
      var i := 0;
      while i < |rs|
        invariant 0 <= i <= |rs| && !fault && State() == d
        invariant var a := P.AnswerAll(d, ring.seg[me], rs, i);
                  && !a.fault && foreign == a.foreign && proc == a.proc && seg == a.seg
                  && num == |a.casts| && wire == old(wire) + a.casts
      {
        ghost var a := P.AnswerAll(d, ring.seg[me], rs, i);
        AnswerAllUnfold(d, ring.seg[me], rs, i + 1);
        if rs[i].memb == memb {
          var more;
          more, proc, seg := AnswerList(rs[i], proc, seg, a);
          if fault {
            AnswerAllFaultStays(d, ring.seg[me], rs, i + 1, |rs|);
            return;
          }
          num := num + more;
          ghost var b := P.AnswerAll(d, ring.seg[me], rs, i + 1);
          assert wire == old(wire) + (a.casts + b.casts[|a.casts|..]);
        } else {
          foreign := foreign + [rs[i]];
        }
        i := i + 1;
      }
    }

    // The requests this daemon adds to the token.
    method OwnRequests(foreign: seq<Rtr>, proc: int, seg: int, ghost a: P.Answer) returns (rtr: seq<Rtr>)
      requires Valid() && a.foreign == foreign && a.proc == proc && a.seg == seg
      ensures rtr == P.OwnRequests(State(), ring, a)
    {
      hide View;
      var max := if ring.accelerated && !evs then last.seqNo else highest;
      rtr := foreign;
      if myAru < max {
        var allowed := P.RoomFor(foreign);
        if allowed > 1 {
          var seqs := [];
          ghost var room := allowed;
          var i := myAru + 1;
          while i <= max && allowed > 0
            invariant myAru < i
            invariant seqs + P.Missing(Live(), i, max, allowed) == P.Missing(Live(), myAru + 1, max, room)
            decreases max - i
          {
            if At(i).Empty? {
              seqs := seqs + [i];
              allowed := allowed - 1;
            }
            i := i + 1;
          }
          assert seqs == seqs + P.Missing(Live(), i, max, allowed);
          rtr := foreign + [Rtr(memb, proc, seg, seqs)];
        }
      }
    }

    // Aru from the last two tokens sent.
    method NewAru(sent: Token)
      requires packets.Length == MAX_PACKETS_IN_STRUCT && !fault
      modifies `aru, `fault
      ensures var e := P.NewAru(old(State()), sent); if e.fault then fault else State() == e
    {
      hide View;
      if sent.aru > last.aru {
        if last.aru < aru { fault := true; }
        aru := last.aru;
      } else {
        if sent.aru < aru { fault := true; }
        aru := sent.aru;
      }
    }

    // The end of Prot_handle_token, from the calculation of Aru on.
    method Settle(sent: Token, num: nat)
      requires Valid() && num <= MAX_PACKETS_IN_STRUCT && sent.aru <= myAru
      requires if evs then sent.seqNo <= 0 else sent.seqNo <= highest
      modifies this, packets
      ensures Is(P.Settle(old(State()), sent, num))
      ensures wire == old(wire)
    {
      hide View, P.Discard, P.DeliverAgreed, P.DeliverReliable;
      NewAru(sent);
      if fault { return; }
      if highest == aru { counter := counter + 1; } else { counter := 0; }
      last := sent;
      Discard();
      if fault { return; }
      DeliverAgreed();
      if fault { return; }
      DeliverReliable(highest - num + 1, num);
    }

    // The token raises Highest_seq, and the first one of a new membership
    // removes what EVS left in the last token sent.
    method Raise(t: Token)
      requires Valid() && t.seqNo <= discarded + MAX_PACKETS_IN_STRUCT
      modifies `highest, `last, `justInstalled
      ensures Valid() && State() == P.Raise(old(State()), t)
      ensures InReach(t.rtr) == old(InReach(t.rtr))
    {
      hide View;
      if justInstalled {
        justInstalled := false;
        last := last.(aru := 0);
      }
      if highest < t.seqNo { highest := t.seqNo; }
    }

    // What the window of the packet array asks of a token and of the windows of
    // flow control.
    ghost predicate Fits(t: Token)
      reads this
    {
      && Valid() && InReach(t.rtr) && t.seqNo <= discarded + MAX_PACKETS_IN_STRUCT
      && ring.personal[me] <= MAX_PACKETS_IN_STRUCT - MAX_SEQ_GAP
      && (evs ==> t.seqNo <= 0)
    }

    // New packets, the counters of flow control, and My_aru.
    method SendAndAdvance(flowControl: int, offer: seq<Payload>, num: nat)
      requires Valid() && ring.personal[me] <= MAX_PACKETS_IN_STRUCT - MAX_SEQ_GAP
      modifies `highest, `queue, `wire, `fault, `numRetrans, `numSent, `myAru, packets
      ensures var d := old(State());
              var k := Max(0, Min(|offer|, P.Allowed(d, ring.window, ring.personal[me], flowControl)));
              var b := P.SendNew(ring, d, offer, k);
              && k <= MAX_PACKETS_IN_STRUCT
              && Is(b.d.(numRetrans := num, numSent := k, myAru := P.Advance(b.d.pk, b.d.myAru, b.d.highest)))
              && (!b.d.fault ==> wire == old(wire) + b.casts)
    {
      hide View, P.SendNew, P.Advance;
      var allowed := FcAllowed(flowControl);
      var sent := SendNewPackets(offer, allowed);
      if fault { return; }
      numRetrans := num;
      numSent := sent;
      AdvanceMyAru();
    }

    // Prot_handle_token up to the requests.
    method Prepare(t: Token, offer: seq<Payload>) returns (foreign: seq<Rtr>, proc: int, seg: int)
      requires Fits(t)
      modifies `highest, `last, `justInstalled, `queue, `wire, `fault, `numRetrans, `numSent, `myAru, packets
      ensures var d := old(State());
              var a := P.AnswerAll(P.Raise(d, t), ring.seg[me], t.rtr, |t.rtr|);
              var b := P.Prepared(ring, d, a, t, offer);
              && Is(b.d)
              && (!b.d.fault ==> foreign == a.foreign && proc == a.proc && seg == a.seg
                                 && wire == old(wire) + a.casts + b.casts && 0 <= numSent <= MAX_PACKETS_IN_STRUCT)
    {
      hide View, P.AnswerAll, P.SendNew, P.Advance, P.Allowed, P.Raise;
      Raise(t);
      var num;
      num, foreign, proc, seg := AnswerRetrans(t.rtr);
      if fault { return; }
      SendAndAdvance(t.flowControl, offer, num);
    }

    // Memb_commit, once nothing of the old ring is missing.
    method Complete()
      requires Valid()
      modifies `myAru, `commit
      ensures Valid() && State() == P.Complete(old(State()))
    {
      hide View;
      if evs && myAru == highest {
        myAru := lastSeq;
        commit := futureCommit;
      }
    }

    // The token as this daemon leaves it.
    method Fill(t: Token, rtr: seq<Rtr>, retrans0: int, sent0: int) returns (out: Token)
      requires Valid()
      ensures forall b: Dstate :: b.numRetrans == retrans0 && b.numSent == sent0 ==>
                out == P.TokenOut(ring, State(), b, t, rtr)
      ensures out.aru <= myAru && out.seqNo == if evs then t.seqNo else highest
    {
      out := t.(from := me, rtr := rtr, flowControl := t.flowControl - retrans0 - sent0 + numRetrans + numSent);
      if t.aru > myAru || t.aruLast == me || (t.aru == t.seqNo && !evs) {
        out := out.(aru := myAru, aruLast := me);
      }
      if !evs { out := out.(seqNo := highest); }
      if me == ring.lead { out := out.(arq := (out.arq + 1) % 16, retrans := 0); }
    }

    // Prot_flush_bcast.
    method FlushBcast()
      modifies `queue, `wire
      ensures wire == old(wire) + old(queue) && queue == []
    {
      SendQueued(|queue|);
    }

    // Prot_handle_token for an accepted token, up to the sending of the token.
    method Assemble(t: Token, offer: seq<Payload>) returns (sent: Token, sends: bool)
      requires Fits(t)
      modifies this, packets
      ensures var d := old(State());
              var a := P.AnswerAll(P.Raise(d, t), ring.seg[me], t.rtr, |t.rtr|);
              var b := P.Prepared(ring, d, a, t, offer);
              var e := P.Complete(b.d);
              if b.d.fault then fault
              else
                && Valid() && State() == e && 0 <= numSent <= MAX_PACKETS_IN_STRUCT
                && sent == P.TokenOut(ring, e, d, t, P.OwnRequests(b.d, ring, a))
                && sends == !(me == ring.lead && P.Holds(e))
                && wire == old(wire) + a.casts + b.casts
                && sent.aru <= myAru && sent.seqNo == if evs then t.seqNo else highest
      ensures evs == old(evs)
    {
      hide View, P.AnswerAll, P.Prepared, P.OwnRequests, P.Complete, P.Raise, P.TokenOut, P.Holds;
      ghost var d := State();
      ghost var a := P.AnswerAll(P.Raise(d, t), ring.seg[me], t.rtr, |t.rtr|);
      sent, sends := t, false;
      var retrans0, sent0 := numRetrans, numSent;
      var foreign, proc, seg := Prepare(t, offer);
      if fault { return; }
      var rtr := OwnRequests(foreign, proc, seg, a);
      Complete();
      sent := Fill(t, rtr, retrans0, sent0);
      sends := !(me == ring.lead && ToHoldToken());
    }

    // Prot_handle_token for an accepted token: the token it sends on, and whether
    // it sends it now.
    method TakeToken(t: Token, offer: seq<Payload>) returns (sent: Token, sends: bool)
      requires Fits(t)
      modifies this, packets
      ensures var o := P.HandleToken(ring, old(State()), t, offer);
              && Is(o.d.(queue := []))
              && (!o.d.fault ==> sent == o.token && sends == o.sends && wire == old(wire) + o.casts + o.d.queue)
    {
      hide View, P.AnswerAll, P.Prepared, P.OwnRequests, P.Settle, P.Complete, P.Raise, P.TokenOut, P.Holds;
      sent, sends := Assemble(t, offer);
      if fault { return; }
      ghost var e := State();
      FlushBcast();
      SettleQueue(e, sent, numSent, []);
      SettleQueue(e, sent, numSent, e.queue);
      Settle(sent, numSent);
    }

    // To_hold_token.
    function ToHoldToken(): (b: bool)
      requires packets.Length == MAX_PACKETS_IN_STRUCT
      reads this, packets
      ensures b <==> P.Holds(State())
    {
      !evs && last.retrans <= 1 && aru == highest && counter > 1
    }

    // Prot_token_hurry.
    method TokenHurry() returns (out: Token)
      requires Valid()
      modifies `last
      ensures var d := old(State());
              && Valid() && out == last
              && State() == d.(last := P.Repetition(d, if me == ring.lead then (d.last.retrans + 1) % 16 else d.last.retrans))
    {
      hide View;
      last := last.(rtr := []);
      if me == ring.lead { last := last.(retrans := (last.retrans + 1) % 16); }
      out := last;
    }

    // Handle_hurry: a daemon of the ring has asked for the token; a leader that
    // holds it sends it on, and will not hold the next one.
    method HandleHurry(fromRing: bool) returns (out: seq<Token>)
      requires Valid()
      modifies `last, `counter
      ensures Valid()
      ensures var d := old(State());
              if me == ring.lead && P.Holds(d) && fromRing
              then State() == d.(counter := 0, last := P.Repetition(d, (d.last.retrans + 1) % 16)) && out == [last]
              else State() == d && out == []
    {
      hide View;
      out := [];
      if me == ring.lead && ToHoldToken() && fromRing {
        counter := 0;
        var again := TokenHurry();
        out := [again];
      }
    }

    // Prot_handle_token: the tokens it puts on the network.
    method HandleToken(t: Token, offer: seq<Payload>) returns (out: seq<Token>)
      requires Valid() && (P.Judge(State(), ring, t) == P.Accept ==> Fits(t))
      modifies this, packets
      ensures var d := old(State());
              match P.Judge(d, ring, t)
              case Swallow => State() == d && wire == old(wire) && out == []
              case Repeat => State() == d.(last := P.Repetition(d, t.retrans)) && wire == old(wire) && out == [last]
              case Accept =>
                var o := P.HandleToken(ring, d, t, offer);
                && Is(o.d.(queue := []))
                && (!o.d.fault ==> out == (if o.sends then [o.token] else []) && wire == old(wire) + o.casts + o.d.queue)
    {
      hide View, P.HandleToken;
      out := [];
      if t.from != P.Pred(ring, me) { return; }
      if !evs && t.seqNo > MAX_WRAP_SEQUENCE_VALUE { return; }
      if me == ring.lead {
        if t.arq != last.arq { return; }
      } else if t.arq == last.arq {
        if t.retrans > last.retrans {
          last := last.(retrans := t.retrans);
          var again := TokenHurry();
          out := [again];
        }
        return;
      } else if t.arq != (last.arq + 1) % 16 {
        return;
      }
      var sent, sends := TakeToken(t, offer);
      if sends { out := [sent]; }
    }

    // Prot_set_delivery_threshold: an illegal service is fatal; otherwise a loop
    // that the change lets go on gets its event queued, and one that the change
    // holds back has it removed.
    method SetDeliveryThreshold(level: int) returns (reliable: EventChange, agreed: EventChange)
      requires Valid()
      modifies `threshold, `fault
      ensures if level in THRESHOLDS then Valid() && State() == old(State()).(threshold := level) else fault
      ensures level in THRESHOLDS ==> reliable == Change(old(threshold), level, Level(Reliable)) && agreed == Change(old(threshold), level, Level(Agreed))
    {
      hide View;
      reliable, agreed := Unchanged, Unchanged;
      if level !in THRESHOLDS { fault := true; return; }
      if level < threshold {
        if level <= 2 { reliable := Queued; }
        if level <= 8 { agreed := Queued; }
      } else if level > threshold {
        if level >= 16 { agreed := Dropped; }
        if level >= 4 { reliable := Dropped; }
      }
      threshold := level;
    }
  }

  const THRESHOLDS := {1, 2, 4, 8, 16, BLOCK_REGULAR_DELIVERY}

  datatype EventChange = Queued | Dropped | Unchanged

  // What becomes of the event of a loop that delivers up to `limit`.
  function Change(was: int, level: int, limit: int): EventChange {
    if level < was && level <= limit then Queued
    else if level > was && level > limit then Dropped
    else Unchanged
  }

  // ------------------------------------- one round of each loop, as an equation

  lemma {:induction false} AgreedUnfold(d: Dstate)
    ensures var s := d.delivered + 1;
            P.AgreedLoop(d) ==
            if d.myAru < s then d
            else if s !in d.pk || d.pk[s].Hole? then d.(fault := true)
            else if d.pk[s].Held? then
              if d.pk[s].p.payload.service == Safe then d
              else P.AgreedLoop(P.Deliver(d, s).(delivered := s))
            else if Level(d.pk[s].p.payload.service) >= Level(Agreed) then d.(fault := true)
            else P.AgreedLoop(d.(delivered := s))
  {
  }

  lemma {:induction false} ReliableUnfold(d: Dstate, s: int, e: int)
    ensures P.ReliableLoop(d, s, e) ==
            if e < s then d
            else if s in d.pk && d.pk[s].Held? && d.pk[s].p.Early() then P.ReliableLoop(P.Deliver(d, s), s + 1, e)
            else P.ReliableLoop(d, s + 1, e)
  {
  }

  lemma {:induction false} SendUnfold(ring: Ring, d: Dstate, offer: seq<Payload>, k: nat)
    requires k <= |offer|
    ensures P.SendNew(ring, d, offer, k) ==
            if k == 0 then P.Sending(d, [])
            else
              var b := P.SendNew(ring, d, offer, k - 1);
              var c := P.SendOne(ring, b.d, offer[k - 1]);
              P.Sending(c.d, b.casts + c.casts)
  {
  }

  lemma {:induction false} SendFaultStays(ring: Ring, d: Dstate, offer: seq<Payload>, x: nat, y: nat)
    requires x <= y <= |offer| && P.SendNew(ring, d, offer, x).d.fault
    ensures P.SendNew(ring, d, offer, y).d.fault
    decreases y
  {
    hide P.QueueBcast;
    if x < y { SendFaultStays(ring, d, offer, x, y - 1); }
  }

  lemma {:induction false} DiscardUnfold(d: Dstate, s: int)
    ensures P.DiscardLoop(d, s) ==
            if d.aru < s then d
            else if s !in d.pk || d.pk[s].Hole? then d.(fault := true)
            else P.DiscardLoop(P.Release(d, s), s + 1)
  {
  }

  lemma {:induction false} AnswerUnfold(d: Dstate, mySeg: int, r: Rtr, k: nat, a: P.Answer)
    requires k <= |r.seqs|
    ensures P.AnswerList(d, mySeg, r, k, a)
         == if k == 0 then a else P.AnswerOne(d, mySeg, r, r.seqs[k - 1], P.AnswerList(d, mySeg, r, k - 1, a))
  {
  }

  lemma {:induction false} AnswerFaultStays(d: Dstate, mySeg: int, r: Rtr, x: nat, y: nat, a: P.Answer)
    requires x <= y <= |r.seqs| && P.AnswerList(d, mySeg, r, x, a).fault
    ensures P.AnswerList(d, mySeg, r, y, a).fault
    decreases y
  {
    if x < y { AnswerFaultStays(d, mySeg, r, x, y - 1, a); }
  }

  lemma {:induction false} AnswerAllUnfold(d: Dstate, mySeg: int, rs: seq<Rtr>, k: nat)
    requires k <= |rs|
    ensures P.AnswerAll(d, mySeg, rs, k) ==
            if k == 0 then P.Answer([], [], d.me, mySeg, false)
            else
              var a := P.AnswerAll(d, mySeg, rs, k - 1);
              if rs[k - 1].memb == d.memb then P.AnswerList(d, mySeg, rs[k - 1], |rs[k - 1].seqs|, a)
              else a.(foreign := a.foreign + [rs[k - 1]])
  {
  }

  lemma {:induction false} AnswerAllFaultStays(d: Dstate, mySeg: int, rs: seq<Rtr>, x: nat, y: nat)
    requires x <= y <= |rs| && P.AnswerAll(d, mySeg, rs, x).fault
    ensures P.AnswerAll(d, mySeg, rs, y).fault
    decreases y
  {
    if x < y {
      AnswerAllFaultStays(d, mySeg, rs, x, y - 1);
      if rs[y - 1].memb == d.memb {
        AnswerFaultStays(d, mySeg, rs[y - 1], 0, |rs[y - 1].seqs|, P.AnswerAll(d, mySeg, rs, y - 1));
      }
    }
  }

  lemma {:induction false} ReleaseKeys(d: Dstate, s: int)
    requires s in d.pk && !d.pk[s].Hole?
    ensures P.Release(d, s).pk.Keys == d.pk.Keys - {s}
  {
  }

  lemma {:induction false} InstallFaults(d: Dstate)
    requires d.pk != map[]
    ensures P.Install(d).fault
  {
  }

  // ------------------------------ flushing the send queue early or late is the same

  lemma {:induction false} DeliverQueue(d: Dstate, s: int, q: seq<Packet>)
    requires s in d.pk && !d.pk[s].Hole?
    ensures P.Deliver(d.(queue := q), s) == P.Deliver(d, s).(queue := q)
  {
  }

  lemma {:induction false} DeliverShape(d: Dstate, s: int)
    requires s in d.pk && !d.pk[s].Hole?
    ensures P.Deliver(d, s).myAru == d.myAru && P.Deliver(d, s).delivered == d.delivered
  {
  }

  lemma {:induction false} AgreedQueue(d: Dstate, q: seq<Packet>)
    ensures P.AgreedLoop(d.(queue := q)) == P.AgreedLoop(d).(queue := q)
    decreases d.myAru - d.delivered
  {
    hide P.AgreedLoop, P.Deliver, Level;
    var s := d.delivered + 1;
    AgreedUnfold(d);
    AgreedUnfold(d.(queue := q));
    if s <= d.myAru && s in d.pk && !d.pk[s].Hole? {
      if d.pk[s].Held? {
        if d.pk[s].p.payload.service != Safe {
          DeliverQueue(d, s, q);
          DeliverShape(d, s);
          AgreedQueue(P.Deliver(d, s).(delivered := s), q);
        }
      } else if Level(d.pk[s].p.payload.service) < Level(Agreed) {
        AgreedQueue(d.(delivered := s), q);
      }
    }
  }

  lemma {:induction false} ReliableQueue(d: Dstate, s: int, e: int, q: seq<Packet>)
    ensures P.ReliableLoop(d.(queue := q), s, e) == P.ReliableLoop(d, s, e).(queue := q)
    decreases e - s
  {
    if s <= e {
      if s in d.pk && d.pk[s].Held? && d.pk[s].p.Early() {
        ReliableQueue(P.Deliver(d, s), s + 1, e, q);
        assert P.Deliver(d.(queue := q), s) == P.Deliver(d, s).(queue := q);
      } else {
        ReliableQueue(d, s + 1, e, q);
      }
    }
  }

  lemma {:induction false} ReleaseQueue(d: Dstate, s: int, q: seq<Packet>)
    requires s in d.pk && !d.pk[s].Hole?
    ensures P.Release(d.(queue := q), s) == P.Release(d, s).(queue := q)
    ensures P.Forget(d.(queue := q), s) == P.Forget(d, s).(queue := q)
  {
  }

  lemma {:induction false} DiscardQueue(d: Dstate, s: int, q: seq<Packet>)
    ensures P.DiscardLoop(d.(queue := q), s) == P.DiscardLoop(d, s).(queue := q)
    decreases d.aru - s
  {
    hide P.Release;
    if s <= d.aru && s in d.pk && !d.pk[s].Hole? {
      ReleaseQueue(d, s, q);
      ReleaseBounds(d, s);
      DiscardQueue(P.Release(d, s), s + 1, q);
    }
  }

  lemma {:induction false} ReleaseBounds(d: Dstate, s: int)
    requires s in d.pk && !d.pk[s].Hole?
    ensures P.Release(d, s) == d.(pk := P.Release(d, s).pk, log := P.Release(d, s).log)
  {
  }

  lemma {:induction false} BeforeQueue(d: Dstate, q: seq<Packet>)
    ensures P.BeforeTrans(d.(queue := q)) == P.BeforeTrans(d).(queue := q)
    decreases d.highest - d.discarded
  {
    hide P.Release;
    var s := d.discarded + 1;
    if s <= d.highest && s in d.pk && !(d.pk[s].Hole? || d.pk[s].p.payload.service == Safe) {
      ReleaseQueue(d, s, q);
      ReleaseBounds(d, s);
      BeforeQueue(P.Release(d, s).(discarded := s), q);
      assert P.Release(d, s).(queue := q).(discarded := s) == P.Release(d, s).(discarded := s).(queue := q);
    }
  }

  lemma {:induction false} AfterQueue(d: Dstate, s: int, found: bool, q: seq<Packet>)
    ensures P.AfterTrans(d.(queue := q), s, found) == P.AfterTrans(d, s, found).(queue := q)
    decreases d.highest - s
  {
    hide P.Release;
    if s <= d.highest && s in d.pk {
      assert P.Forget(d.(queue := q), s) == P.Forget(d, s).(queue := q);
      if d.pk[s].Hole? {
        AfterQueue(P.Forget(d, s), s + 1, true, q);
      } else if !found || d.pk[s].p.sender in d.commit.members {
        ReleaseQueue(d, s, q);
        ReleaseBounds(d, s);
        AfterQueue(P.Release(d, s), s + 1, found, q);
      } else {
        AfterQueue(P.Forget(d, s), s + 1, found, q);
      }
    }
  }

  lemma {:induction false} DiscardAnyQueue(d: Dstate, q: seq<Packet>)
    ensures P.Discard(d.(queue := q)) == P.Discard(d).(queue := q)
  {
    hide P.BeforeTrans, P.AfterTrans, P.DiscardLoop;
    if d.evs {
      BeforeQueue(d, q);
      var e := P.BeforeTrans(d);
      var f := e.(log := e.log + [TransMemb(P.TransMembers(e.commit))]);
      AfterQueue(f, f.discarded + 1, false, q);
      assert f.(queue := q) == e.(queue := q).(log := f.log);
    } else {
      DiscardQueue(d, d.discarded + 1, q);
    }
  }

  lemma {:induction false} DeliveriesQueue(d: Dstate, start: int, num: int, q: seq<Packet>)
    ensures P.DeliverAgreed(d.(queue := q)) == P.DeliverAgreed(d).(queue := q)
    ensures P.DeliverReliable(d.(queue := q), start, num) == P.DeliverReliable(d, start, num).(queue := q)
  {
    hide P.AgreedLoop, P.ReliableLoop;
    AgreedQueue(d, q);
    ReliableQueue(d, Max(start, d.delivered + 1), start + num - 1, q);
  }

  lemma {:induction false} SettleQueue(d: Dstate, sent: Token, k: nat, q: seq<Packet>)
    ensures P.Settle(d.(queue := q), sent, k) == P.Settle(d, sent, k).(queue := q)
  {
    hide P.Discard, P.DeliverAgreed, P.DeliverReliable;
    var e := P.NewAru(d, sent);
    var f := e.(counter := if e.highest == e.aru then e.counter + 1 else 0, last := sent);
    DiscardAnyQueue(f, q);
    var g := P.Discard(f);
    DeliveriesQueue(g, 0, 0, q);
    var h := P.DeliverAgreed(g);
    DeliveriesQueue(h, h.highest - k + 1, k, q);
    assert P.NewAru(d.(queue := q), sent) == e.(queue := q);
    assert f.(queue := q) == e.(queue := q).(counter := f.counter, last := sent);
  }
}
