// The invariant of one daemon's packet buffer and of what it has delivered, and
// the proof that every routine of protocol.c which delivers or frees packets
// keeps it.
module Delivery {
  import opened Types
  import opened RingArith
  import opened Protocol

  // Packet number s of a ring is all[s - 1].
  ghost predicate Numbered(all: seq<Packet>) {
    forall s :: 0 <= s < |all| ==> all[s].seqNo == s + 1
  }

  // The packets 1..k that may only be delivered in order.
  ghost function Ordered(all: seq<Packet>, k: int): seq<Event>
    requires k <= |all|
  {
    if k <= 0 then [] else Ordered(all, k - 1) + (if all[k - 1].Early() then [] else [Msg(all[k - 1])])
  }

  // What a daemon has handed up, leaving out early packets.
  ghost function InOrder(log: seq<Event>): seq<Event> {
    if log == [] then []
    else
      var e := log[|log| - 1];
      InOrder(log[..|log| - 1]) + (if e.Msg? && e.p.Early() then [] else [e])
  }

  ghost predicate InLog(log: seq<Event>, s: int) {
    exists x :: 0 <= x < |log| && log[x].Msg? && log[x].p.seqNo == s
  }

  ghost predicate OnlyPackets(all: seq<Packet>, log: seq<Event>) {
    forall x :: 0 <= x < |log| ==>
      log[x].Msg? && 1 <= log[x].p.seqNo <= |all| && log[x].p == all[log[x].p.seqNo - 1]
  }

  ghost predicate NoneTwice(log: seq<Event>) {
    forall x, y :: 0 <= x < y < |log| && log[x].Msg? && log[y].Msg? ==> log[x].p.seqNo != log[y].p.seqNo
  }

  ghost predicate GivenAt(pk: map<int, Slot>, s: int) {
    s in pk && pk[s].Given?
  }

  // The log holds every packet at most once; it holds exactly the packets up to
  // `delivered` and those marked as given; the ordered ones stand in order.
  ghost predicate LogOK(all: seq<Packet>, log: seq<Event>, delivered: int, pk: map<int, Slot>) {
    && OnlyPackets(all, log)
    && NoneTwice(log)
    && 0 <= delivered <= |all|
    && (forall s :: 1 <= s <= delivered ==> InLog(log, s))
    && (forall s :: InLog(log, s) && delivered < s ==> GivenAt(pk, s))
    && (forall s :: GivenAt(pk, s) ==> InLog(log, s))
    && InOrder(log) == Ordered(all, delivered)
  }

  ghost predicate SlotOK(all: seq<Packet>, holes: set<int>, s: int, e: Slot) {
    match e
    case Hole => s in holes
    case Held(p) => s !in holes && 1 <= s <= |all| && p == all[s - 1]
    case Given(p) => s !in holes && 1 <= s <= |all| && p == all[s - 1]
  }

  // The numbers up to which the buffer has no gap.
  function Filled(d: Dstate): int {
    Min(d.myAru, d.highest)
  }

  ghost predicate BufferOK(all: seq<Packet>, holes: set<int>, d: Dstate) {
    && 0 <= d.discarded <= d.delivered <= Filled(d) && d.highest <= |all|
    && (forall s :: s in d.pk ==> d.discarded < s <= d.highest && SlotOK(all, holes, s, d.pk[s]))
    && (forall s :: d.discarded < s <= Filled(d) ==> s in d.pk)
    && (forall s :: d.discarded < s <= d.delivered && s in d.pk ==> d.pk[s].Given?)
    && (forall s :: GivenAt(d.pk, s) && d.delivered < s ==> all[s - 1].Early())
  }

  ghost predicate Base(all: seq<Packet>, holes: set<int>, d: Dstate) {
    && Numbered(all)
    && BufferOK(all, holes, d)
    && LogOK(all, d.log, d.delivered, d.pk)
  }

  ghost predicate SafeAt(all: seq<Packet>, s: int) {
    1 <= s <= |all| && all[s - 1].payload.service == Safe
  }

  // No safe packet is delivered before it may be freed.
  ghost predicate SafeOK(all: seq<Packet>, d: Dstate) {
    forall s :: d.discarded < s <= d.delivered ==> !SafeAt(all, s)
  }

  ghost predicate Core(all: seq<Packet>, holes: set<int>, d: Dstate) {
    Base(all, holes, d) && SafeOK(all, d)
  }

  lemma {:induction false} CoreBounds(all: seq<Packet>, holes: set<int>, d: Dstate)
    requires Core(all, holes, d)
    ensures 0 <= d.discarded <= d.delivered <= Filled(d) && d.highest <= |all|
  {
  }

  // What the buffer invariant does not look at.
  lemma {:induction false} CoreOfRing(all: seq<Packet>, holes: set<int>, d: Dstate, e: Dstate)
    requires Core(all, holes, d)
    requires e.discarded == d.discarded && e.delivered == d.delivered && e.myAru == d.myAru && e.highest == d.highest
    requires e.pk == d.pk && e.log == d.log
    ensures Core(all, holes, e)
  {
  }

  // ------------------------------------------------------------------ the log

  lemma {:induction false} InOrderAppend(log: seq<Event>, e: Event)
    ensures InOrder(log + [e]) == InOrder(log) + (if e.Msg? && e.p.Early() then [] else [e])
  {
    assert (log + [e])[..|log|] == log;
  }

  lemma {:induction false} InLogAppend(log: seq<Event>, p: Packet, s: int)
    ensures InLog(log + [Msg(p)], s) <==> InLog(log, s) || s == p.seqNo
  {
    var l := log + [Msg(p)];
    if InLog(log, s) {
      var x :| 0 <= x < |log| && log[x].Msg? && log[x].p.seqNo == s;
      assert l[x] == log[x];
    }
    if s == p.seqNo { assert l[|log|] == Msg(p); }
  }

  lemma {:induction false} OnceMore(log: seq<Event>, p: Packet)
    requires NoneTwice(log) && !InLog(log, p.seqNo)
    ensures NoneTwice(log + [Msg(p)])
  {
    var l := log + [Msg(p)];
    forall x, y | 0 <= x < y < |l| && l[x].Msg? && l[y].Msg?
      ensures l[x].p.seqNo != l[y].p.seqNo
    {
      if y == |log| {
        assert log[x] == l[x] && (l[x].p.seqNo == p.seqNo ==> InLog(log, p.seqNo));
      }
    }
  }

  // Delivering packet s early, or as the next one in order.
  lemma {:induction false} LogDeliver(all: seq<Packet>, log: seq<Event>, delivered: int, pk: map<int, Slot>, s: int, next: int)
    requires Numbered(all) && LogOK(all, log, delivered, pk)
    requires s in pk && pk[s].Held? && delivered < s <= |all| && pk[s].p == all[s - 1]
    requires (next == delivered && all[s - 1].Early()) || next == s == delivered + 1
    ensures LogOK(all, log + [Msg(all[s - 1])], next, pk[s := Given(all[s - 1])])
  {
    hide InLog, NoneTwice, InOrder;
    var p := all[s - 1];
    var l, q := log + [Msg(p)], pk[s := Given(p)];
    assert !InLog(log, s);
    OnceMore(log, p);
    InOrderAppend(log, Msg(p));
    forall x {:trigger InLog(l, x)} | true
      ensures InLog(l, x) <==> InLog(log, x) || x == s
    {
      InLogAppend(log, p, x);
    }
    forall x | GivenAt(q, x) ensures InLog(l, x) {
      assert x == s || GivenAt(pk, x);
    }
    forall x | InLog(l, x) && next < x ensures GivenAt(q, x) {
      if x != s { assert GivenAt(pk, x); }
    }
  }

  // A packet that was given early is passed over, or a freed entry forgotten.
  lemma {:induction false} LogPass(all: seq<Packet>, log: seq<Event>, delivered: int, pk: map<int, Slot>)
    requires Numbered(all) && LogOK(all, log, delivered, pk)
    requires GivenAt(pk, delivered + 1) && delivered < |all| && all[delivered].Early()
    ensures LogOK(all, log, delivered + 1, pk)
  {
  }

  // --------------------------------------------------- loops that deliver only

  // The only parts of the state that delivering changes.
  ghost predicate OnlyDelivers(d: Dstate, e: Dstate) {
    && e == d.(pk := e.pk, log := e.log, delivered := e.delivered)
    && e.pk.Keys == d.pk.Keys
    && d.delivered <= e.delivered
  }

  lemma {:induction false} DeliverNext(all: seq<Packet>, holes: set<int>, d: Dstate)
    requires Base(all, holes, d)
    requires var s := d.delivered + 1; s <= Filled(d) && s in d.pk && d.pk[s].Held?
    ensures var s := d.delivered + 1;
            var e := Deliver(d, s).(delivered := s);
            && Base(all, holes, e) && OnlyDelivers(d, e)
            && (Core(all, holes, d) && d.pk[s].p.payload.service != Safe ==> Core(all, holes, e))
  {
    var s := d.delivered + 1;
    assert SlotOK(all, holes, s, d.pk[s]);
    LogDeliver(all, d.log, d.delivered, d.pk, s, s);
    var e := Deliver(d, s).(delivered := s);
    assert e.pk == d.pk[s := Given(all[s - 1])];
    assert BufferOK(all, holes, e) by {
      forall x | x in e.pk ensures SlotOK(all, holes, x, e.pk[x]) && e.discarded < x <= e.highest {
        assert x in d.pk;
      }
      forall x | GivenAt(e.pk, x) && e.delivered < x ensures all[x - 1].Early() {
        assert GivenAt(d.pk, x);
      }
    }
  }

  lemma {:induction false} DeliverEarly(all: seq<Packet>, holes: set<int>, d: Dstate, s: int)
    requires Core(all, holes, d) && d.delivered < s && s in d.pk && d.pk[s].Held? && d.pk[s].p.Early()
    ensures var e := Deliver(d, s); Core(all, holes, e) && OnlyDelivers(d, e)
  {
    assert SlotOK(all, holes, s, d.pk[s]);
    LogDeliver(all, d.log, d.delivered, d.pk, s, d.delivered);
    var e := Deliver(d, s);
    assert e.pk == d.pk[s := Given(all[s - 1])];
    assert BufferOK(all, holes, e) by {
      forall x | x in e.pk ensures SlotOK(all, holes, x, e.pk[x]) && e.discarded < x <= e.highest {
        assert x in d.pk;
      }
      forall x | GivenAt(e.pk, x) && e.delivered < x ensures all[x - 1].Early() {
        assert x == s || GivenAt(d.pk, x);
      }
    }
  }

  lemma {:induction false} PassGiven(all: seq<Packet>, holes: set<int>, d: Dstate)
    requires Base(all, holes, d)
    requires var s := d.delivered + 1; s <= Filled(d) && GivenAt(d.pk, s)
    ensures all[d.delivered].Early() && SlotOK(all, holes, d.delivered + 1, d.pk[d.delivered + 1])
    ensures Base(all, holes, d.(delivered := d.delivered + 1))
    ensures Core(all, holes, d) ==> Core(all, holes, d.(delivered := d.delivered + 1))
  {
    LogPass(all, d.log, d.delivered, d.pk);
  }

  lemma {:induction false} NextEntry(all: seq<Packet>, holes: set<int>, d: Dstate)
    requires Core(all, holes, d) && d.delivered < Filled(d)
    ensures var s := d.delivered + 1; s in d.pk && SlotOK(all, holes, s, d.pk[s])
  {
  }

  lemma {:induction false} AgreedLoopKeeps(all: seq<Packet>, holes: set<int>, d: Dstate)
    requires Core(all, holes, d) && d.myAru <= d.highest
    requires forall s :: s in holes ==> d.myAru < s
    ensures Core(all, holes, AgreedLoop(d)) && OnlyDelivers(d, AgreedLoop(d))
    decreases d.myAru - d.delivered
  {
    hide Base, SafeOK;
    var s := d.delivered + 1;
    if s <= d.myAru {
      NextEntry(all, holes, d);
      if d.pk[s].Held? {
        if d.pk[s].p.payload.service != Safe {
          DeliverNext(all, holes, d);
          AgreedLoopKeeps(all, holes, Deliver(d, s).(delivered := s));
        }
      } else {
        PassGiven(all, holes, d);
        AgreedLoopKeeps(all, holes, d.(delivered := s));
      }
    }
  }

  lemma {:induction false} ReliableLoopKeeps(all: seq<Packet>, holes: set<int>, d: Dstate, s: int, e: int)
    requires Core(all, holes, d) && d.delivered < s
    ensures Core(all, holes, ReliableLoop(d, s, e)) && OnlyDelivers(d, ReliableLoop(d, s, e))
    decreases e - s
  {
    hide Core;
    if s <= e {
      if s in d.pk && d.pk[s].Held? && d.pk[s].p.Early() {
        DeliverEarly(all, holes, d, s);
        ReliableLoopKeeps(all, holes, Deliver(d, s), s + 1, e);
      } else {
        ReliableLoopKeeps(all, holes, d, s + 1, e);
      }
    }
  }

  lemma {:induction false} DeliverAgreedKeeps(all: seq<Packet>, d: Dstate)
    requires Core(all, {}, d) && d.myAru <= d.highest
    ensures Core(all, {}, DeliverAgreed(d)) && OnlyDelivers(d, DeliverAgreed(d))
  {
    hide Core, AgreedLoop;
    if !(d.myAru <= d.delivered || d.evs || d.threshold > Level(Agreed)) { AgreedLoopKeeps(all, {}, d); }
  }

  lemma {:induction false} DeliverReliableKeeps(all: seq<Packet>, holes: set<int>, d: Dstate, start: int, num: int)
    requires Core(all, holes, d)
    ensures Core(all, holes, DeliverReliable(d, start, num)) && OnlyDelivers(d, DeliverReliable(d, start, num))
  {
    hide Core, ReliableLoop;
    if !(d.evs || d.threshold > Level(Reliable)) {
      ReliableLoopKeeps(all, holes, d, Max(start, d.delivered + 1), start + num - 1);
    }
  }

  // ------------------------------------------------------- freeing what is safe

  // What Discard_packets needs of the entries it frees: they are all there.
  ghost predicate Frees(d: Dstate, e: Dstate) {
    && e == d.(pk := e.pk, log := e.log, delivered := e.delivered, discarded := e.discarded)
    && e.delivered == Max(d.delivered, e.discarded)
    && e.pk.Keys == set s | s in d.pk.Keys && e.discarded < s
  }

  lemma {:induction false} LogForget(all: seq<Packet>, log: seq<Event>, delivered: int, pk: map<int, Slot>, s: int)
    requires LogOK(all, log, delivered, pk) && s <= delivered
    ensures LogOK(all, log, delivered, pk - {s})
  {
    forall x | GivenAt(pk - {s}, x) ensures InLog(log, x) { assert GivenAt(pk, x); }
    forall x | InLog(log, x) && delivered < x ensures GivenAt(pk - {s}, x) { assert GivenAt(pk, x); }
  }

  // The oldest entry, once passed by Last_delivered, is freed.
  lemma {:induction false} ForgetKeeps(all: seq<Packet>, holes: set<int>, d: Dstate)
    requires Base(all, holes, d) && d.discarded < d.delivered
    ensures var s := d.discarded + 1;
            var e := d.(pk := d.pk - {s}, discarded := s);
            Base(all, holes, e) && e.pk.Keys == set x | x in d.pk.Keys && s < x
  {
    var s := d.discarded + 1;
    var e := d.(pk := d.pk - {s}, discarded := s);
    LogForget(all, d.log, d.delivered, d.pk, s);
    forall x | GivenAt(e.pk, x) && e.delivered < x ensures all[x - 1].Early() {
      assert GivenAt(d.pk, x);
    }
  }

  // Entry discarded + 1 is delivered unless it was, and freed.
  lemma {:induction false} ReleaseKeeps(all: seq<Packet>, holes: set<int>, d: Dstate)
    requires Core(all, holes, d)
    requires var s := d.discarded + 1; s <= Filled(d) && s in d.pk && !d.pk[s].Hole?
    ensures var s := d.discarded + 1;
            var e := Release(d, s).(discarded := s, delivered := Max(d.delivered, s));
            Core(all, holes, e) && Frees(d, e)
  {
    var s := d.discarded + 1;
    ReleaseBase(all, holes, d);
    hide Base;
    var e := Release(d, s).(discarded := s, delivered := Max(d.delivered, s));
    forall x | e.discarded < x <= e.delivered ensures !SafeAt(all, x) {
    }
  }

  lemma {:induction false} OldestIsNext(all: seq<Packet>, holes: set<int>, d: Dstate)
    requires Base(all, holes, d)
    requires var s := d.discarded + 1; s <= Filled(d) && s in d.pk
    ensures var s := d.discarded + 1; if d.delivered < s then d.delivered + 1 == s else d.pk[s].Given?
  {
  }

  lemma {:induction false} ReleaseBase(all: seq<Packet>, holes: set<int>, d: Dstate)
    requires Base(all, holes, d)
    requires var s := d.discarded + 1; s <= Filled(d) && s in d.pk && !d.pk[s].Hole?
    ensures var s := d.discarded + 1;
            var e := Release(d, s).(discarded := s, delivered := Max(d.delivered, s));
            Base(all, holes, e) && Frees(d, e)
  {
    hide Base;
    var s := d.discarded + 1;
    OldestIsNext(all, holes, d);
    var f := if d.delivered < s then (if d.pk[s].Held? then Deliver(d, s) else d).(delivered := s) else d;
    assert Base(all, holes, f) && f.pk.Keys == d.pk.Keys by {
      if d.delivered < s {
        if d.pk[s].Held? { DeliverNext(all, holes, d); } else { PassGiven(all, holes, d); }
      }
    }
    ForgetKeeps(all, holes, f);
    assert Release(d, s).pk == f.pk - {s};
  }

  lemma {:induction false} OldestEntry(all: seq<Packet>, holes: set<int>, d: Dstate)
    requires Core(all, holes, d) && d.discarded < Filled(d)
    ensures var s := d.discarded + 1; s in d.pk && SlotOK(all, holes, s, d.pk[s])
  {
  }

  // The state as it stands while Discard_packets has freed everything up to s.
  function FreedTo(d: Dstate, s: int): Dstate {
    d.(discarded := s, delivered := Max(d.delivered, s))
  }

  lemma {:induction false} DiscardLoopKeeps(all: seq<Packet>, d: Dstate, s: int)
    requires Core(all, {}, FreedTo(d, s - 1)) && s - 1 <= d.aru <= Filled(d)
    ensures var e := DiscardLoop(d, s);
            e == d.(pk := e.pk, log := e.log) && Core(all, {}, FreedTo(e, d.aru))
    decreases d.aru - s
  {
    hide Core;
    if s <= d.aru {
      OldestEntry(all, {}, FreedTo(d, s - 1));
      ReleaseKeeps(all, {}, FreedTo(d, s - 1));
      assert Release(FreedTo(d, s - 1), s).(discarded := s, delivered := Max(Max(d.delivered, s - 1), s))
          == FreedTo(Release(d, s), s);
      DiscardLoopKeeps(all, Release(d, s), s + 1);
    }
  }

  lemma {:induction false} DiscardRegularKeeps(all: seq<Packet>, d: Dstate)
    requires Core(all, {}, d) && d.aru <= Filled(d) && !d.fault
    ensures var e := DiscardRegular(d);
            && Core(all, {}, e)
            && e == d.(pk := e.pk, log := e.log, discarded := Max(d.discarded, d.aru),
                       delivered := Max(d.delivered, d.aru))
  {
    hide Core, DiscardLoop;
    CoreBounds(all, {}, d);
    if d.discarded < d.aru {
      assert FreedTo(d, d.discarded) == d;
      DiscardLoopKeeps(all, d, d.discarded + 1);
    }
  }

  // --------------------------------------------------------- gaining a packet

  lemma {:induction false} OrderedExtend(all: seq<Packet>, p: Packet, k: int)
    requires k <= |all|
    ensures Ordered(all + [p], k) == Ordered(all, k)
    decreases k
  {
    if k > 0 { OrderedExtend(all, p, k - 1); }
  }

  // A packet created by any daemon leaves what the others know as it is.
  lemma {:induction false} ExtendKeeps(all: seq<Packet>, holes: set<int>, d: Dstate, p: Packet)
    requires Core(all, holes, d) && p.seqNo == |all| + 1
    ensures Core(all + [p], holes, d)
  {
    OrderedExtend(all, p, d.delivered);
    forall s | d.discarded < s <= d.delivered ensures !SafeAt(all + [p], s) {
      assert !SafeAt(all, s);
    }
    forall s | s in d.pk ensures SlotOK(all + [p], holes, s, d.pk[s]) {
      assert SlotOK(all, holes, s, d.pk[s]);
    }
    forall s | GivenAt(d.pk, s) && d.delivered < s ensures (all + [p])[s - 1].Early() {
      assert SlotOK(all, holes, s, d.pk[s]);
    }
  }

  lemma {:induction false} InsertKeeps(all: seq<Packet>, holes: set<int>, d: Dstate, p: Packet)
    requires Core(all, holes, d)
    requires d.discarded < p.seqNo <= |all| && p == all[p.seqNo - 1]
    requires p.seqNo !in d.pk && p.seqNo !in holes
    requires d.myAru <= d.highest || p.seqNo <= d.highest
    ensures Core(all, holes, d.(pk := d.pk[p.seqNo := Held(p)], highest := Max(d.highest, p.seqNo)))
  {
    var e := d.(pk := d.pk[p.seqNo := Held(p)], highest := Max(d.highest, p.seqNo));
    forall s | s in e.pk ensures SlotOK(all, holes, s, e.pk[s]) && e.discarded < s <= e.highest {
      assert s == p.seqNo || s in d.pk;
    }
    forall s | GivenAt(e.pk, s) ensures GivenAt(d.pk, s) { }
    forall s | GivenAt(d.pk, s) ensures GivenAt(e.pk, s) { }
  }

  lemma {:induction false} AdvanceKeeps(all: seq<Packet>, holes: set<int>, d: Dstate)
    requires Core(all, holes, d)
    ensures var e := d.(myAru := Advance(d.pk, d.myAru, d.highest));
            Core(all, holes, e) && (d.myAru <= d.highest ==> e.myAru <= d.highest)
  {
  }

  // What receiving may change.
  ghost predicate OnlyReceives(d: Dstate, e: Dstate) {
    && e == d.(pk := e.pk, log := e.log, delivered := e.delivered, myAru := e.myAru, highest := e.highest)
    && d.delivered <= e.delivered && d.myAru <= e.myAru && d.highest <= e.highest
  }

  lemma {:induction false} ReceiveKeeps(all: seq<Packet>, holes: set<int>, d: Dstate, p: Packet)
    requires Core(all, holes, d)
    requires 1 <= p.seqNo <= |all| && p == all[p.seqNo - 1]
    requires d.discarded < p.seqNo && p.seqNo !in d.pk ==> p.seqNo !in holes
    requires d.myAru <= d.highest || (d.evs && p.seqNo <= d.highest)
    requires d.evs || holes == {}
    ensures var e := Receive(d, p);
            && Core(all, holes, e) && OnlyReceives(d, e)
            && e.highest <= Max(d.highest, p.seqNo)
            && (d.myAru <= d.highest ==> e.myAru <= e.highest)
  {
    if !(p.memb != d.memb || p.seqNo <= d.discarded || p.seqNo in d.pk) {
      InsertKeeps(all, holes, d, p);
      var e := d.(pk := d.pk[p.seqNo := Held(p)], highest := Max(d.highest, p.seqNo));
      var r := Receive(d, p);
      assert Core(all, holes, r) && OnlyReceives(d, r) && r.highest == e.highest
          && (d.myAru <= d.highest ==> r.myAru <= r.highest) by {
        if p.seqNo == e.myAru + 1 {
          AdvanceKeeps(all, holes, e);
          var f := e.(myAru := Advance(e.pk, e.myAru, e.highest));
          if !d.evs { DeliverAgreedKeeps(all, f); }
        } else {
          DeliverReliableKeeps(all, holes, e, p.seqNo, 1);
        }
      }
    }
  }

  // ------------------------------------------------ nothing is held back

  // In order, everything is delivered up to My_aru or to the first SAFE packet
  // that is not stable.
  ghost predicate CaughtUp(all: seq<Packet>, d: Dstate) {
    d.delivered <= d.myAru && (d.delivered == d.myAru || SafeAt(all, d.delivered + 1))
  }

  lemma {:induction false} LoopCatchesUp(all: seq<Packet>, d: Dstate)
    requires Core(all, {}, d) && d.myAru <= d.highest
    ensures CaughtUp(all, AgreedLoop(d)) && AgreedLoop(d).myAru == d.myAru
    decreases d.myAru - d.delivered
  {
    hide Core, Base, SafeOK;
    CoreBounds(all, {}, d);
    var s := d.delivered + 1;
    if s <= d.myAru {
      NextEntry(all, {}, d);
      if d.pk[s].Held? {
        if d.pk[s].p.payload.service != Safe {
          DeliverNext(all, {}, d) by { CoreIs(all, d); }
          LoopCatchesUp(all, Deliver(d, s).(delivered := s));
        }
      } else {
        PassGiven(all, {}, d) by { CoreIs(all, d); }
        LoopCatchesUp(all, d.(delivered := s));
      }
    }
  }

  lemma {:induction false} CoreIs(all: seq<Packet>, d: Dstate)
    requires Core(all, {}, d)
    ensures Base(all, {}, d)
  {
  }

  // Outside EVS, with a threshold of at most AGREED, Deliver_agreed_packets
  // leaves nothing behind that may be delivered.
  lemma {:induction false} AgreedDelivers(all: seq<Packet>, d: Dstate)
    requires Core(all, {}, d) && d.myAru <= d.highest && !d.evs && d.threshold <= Level(Agreed)
    ensures var e := DeliverAgreed(d);
            && e.delivered <= e.myAru == d.myAru && (e.delivered == e.myAru || SafeAt(all, e.delivered + 1))
            && forall s :: 1 <= s <= e.delivered ==> InLog(e.log, s)
  {
    hide Core, AgreedLoop;
    CoreBounds(all, {}, d);
    LoopCatchesUp(all, d);
    DeliverAgreedKeeps(all, d);
    LogFull(all, DeliverAgreed(d));
  }

  lemma {:induction false} LogFull(all: seq<Packet>, d: Dstate)
    requires Core(all, {}, d)
    ensures forall s :: 1 <= s <= d.delivered ==> InLog(d.log, s)
  {
  }

  // Early delivery leaves no packet behind in its range that may be delivered
  // early, and Last_delivered where it is.
  lemma {:induction false} ReliableDelivers(d: Dstate, s: int, e: int)
    ensures var r := ReliableLoop(d, s, e);
            && r.delivered == d.delivered && r.myAru == d.myAru && r.pk.Keys == d.pk.Keys
            && (forall q :: q in d.pk && !(s <= q <= e) ==> r.pk[q] == d.pk[q])
            && (forall q :: s <= q <= e && q in r.pk && r.pk[q].Held? ==> !r.pk[q].p.Early())
    decreases e - s
  {
    if s <= e {
      if s in d.pk && d.pk[s].Held? && d.pk[s].p.Early() {
        ReliableDelivers(Deliver(d, s), s + 1, e);
      } else {
        ReliableDelivers(d, s + 1, e);
      }
    }
  }

  // Agreed delivery does not look beyond what it delivers.
  lemma {:induction false} LoopStops(d: Dstate)
    ensures var e := AgreedLoop(d);
            d.delivered <= e.delivered && forall q :: e.delivered < q && q in d.pk ==> q in e.pk && e.pk[q] == d.pk[q]
    decreases d.myAru - d.delivered
  {
    var s := d.delivered + 1;
    if s <= d.myAru && s in d.pk && !d.pk[s].Hole? {
      if d.pk[s].Held? {
        if d.pk[s].p.payload.service != Safe { LoopStops(Deliver(d, s).(delivered := s)); }
      } else if Level(d.pk[s].p.payload.service) < Level(Agreed) {
        LoopStops(d.(delivered := s));
      }
    }
  }

  // A RELIABLE packet that is a whole message is delivered the moment it comes,
  // unless it comes in sequence behind a SAFE packet that is not stable: then it
  // waits for that one.
  lemma {:induction false} EarlyOnReceipt(all: seq<Packet>, d: Dstate, p: Packet)
    requires Core(all, {}, d) && d.myAru <= d.highest && !d.evs && d.threshold <= Level(Reliable)
    requires p.memb == d.memb && d.discarded < p.seqNo <= |all| && p == all[p.seqNo - 1] && p.seqNo !in d.pk && p.Early()
    ensures var e := Receive(d, p);
            InLog(e.log, p.seqNo) <==> p.seqNo != d.myAru + 1 || p.seqNo <= e.delivered
  {
    hide Core, AgreedLoop, ReliableLoop, Advance;
    CoreBounds(all, {}, d);
    InsertKeeps(all, {}, d, p);
    ReceiveKeeps(all, {}, d, p);
    BelowIsThere(all, d, p.seqNo);
    var e := d.(pk := d.pk[p.seqNo := Held(p)], highest := Max(d.highest, p.seqNo));
    var r := Receive(d, p);
    InLogIff(all, r, p.seqNo);
    if p.seqNo == d.myAru + 1 {
      AdvanceKeeps(all, {}, e);
      LoopStops(e.(myAru := Advance(e.pk, e.myAru, e.highest)));
    } else {
      ReliableDelivers(e, p.seqNo, p.seqNo);
      EntryKind(all, r, p.seqNo);
    }
  }

  lemma {:induction false} BelowIsThere(all: seq<Packet>, d: Dstate, s: int)
    requires Core(all, {}, d) && d.discarded < s && s !in d.pk
    ensures d.delivered < s
  {
  }

  lemma {:induction false} InLogIff(all: seq<Packet>, d: Dstate, s: int)
    requires Core(all, {}, d) && 1 <= s
    ensures InLog(d.log, s) <==> s <= d.delivered || GivenAt(d.pk, s)
  {
  }

  lemma {:induction false} EntryKind(all: seq<Packet>, d: Dstate, s: int)
    requires Core(all, {}, d) && s in d.pk
    ensures 1 <= s <= |all| && !d.pk[s].Hole? && d.pk[s].p == all[s - 1]
  {
    assert SlotOK(all, {}, s, d.pk[s]);
  }

  // ------------------------------------- what delivering can change in any state

  ghost predicate Touches(d: Dstate, e: Dstate) {
    e == d.(pk := e.pk, log := e.log, delivered := e.delivered, fault := e.fault) && e.pk.Keys == d.pk.Keys
  }

  lemma {:induction false} AgreedLoopTouches(d: Dstate)
    ensures Touches(d, AgreedLoop(d))
    decreases d.myAru - d.delivered
  {
    var s := d.delivered + 1;
    if s <= d.myAru && s in d.pk && !d.pk[s].Hole? {
      if d.pk[s].Held? {
        if d.pk[s].p.payload.service != Safe { AgreedLoopTouches(Deliver(d, s).(delivered := s)); }
      } else if Level(d.pk[s].p.payload.service) < Level(Agreed) {
        AgreedLoopTouches(d.(delivered := s));
      }
    }
  }

  lemma {:induction false} ReliableLoopTouches(d: Dstate, s: int, e: int)
    ensures Touches(d, ReliableLoop(d, s, e))
    decreases e - s
  {
    if s <= e {
      if s in d.pk && d.pk[s].Held? && d.pk[s].p.Early() {
        ReliableLoopTouches(Deliver(d, s), s + 1, e);
      } else {
        ReliableLoopTouches(d, s + 1, e);
      }
    }
  }

  lemma {:induction false} EventsTouch(d: Dstate, start: int, num: int)
    ensures Touches(d, DeliverAgreed(d)) && Touches(d, DeliverReliable(d, start, num))
  {
    hide AgreedLoop, ReliableLoop;
    AgreedLoopTouches(d);
    ReliableLoopTouches(d, Max(start, d.delivered + 1), start + num - 1);
  }

  lemma {:induction false} ReceiveTouches(d: Dstate, p: Packet)
    ensures var e := Receive(d, p);
            e == d.(pk := e.pk, log := e.log, delivered := e.delivered, fault := e.fault,
                    myAru := e.myAru, highest := e.highest)
            && d.pk.Keys <= e.pk.Keys && d.myAru <= e.myAru && d.highest <= e.highest
  {
    hide DeliverAgreed, DeliverReliable, Advance;
    var e := d.(pk := d.pk[p.seqNo := Held(p)], highest := Max(d.highest, p.seqNo));
    EventsTouch(e.(myAru := Advance(e.pk, e.myAru, e.highest)), 0, 0);
    EventsTouch(e, p.seqNo, 1);
  }

  // A packet of the ring that is not an old one is in the buffer afterwards, with
  // all those that were there, and the counters stand where the buffer says.
  lemma {:induction false} ReceiptStays(all: seq<Packet>, holes: set<int>, d: Dstate, p: Packet)
    requires Core(all, holes, d) && (d.evs || holes == {}) && p.memb == d.memb && d.discarded < p.seqNo
    requires 1 <= p.seqNo <= |all| && p == all[p.seqNo - 1] && p.seqNo !in holes
    requires d.myAru <= d.highest && d.myAru + 1 !in d.pk
    ensures var e := Receive(d, p);
            && e.pk.Keys == d.pk.Keys + {p.seqNo} && e.highest == Max(d.highest, p.seqNo)
            && (forall s :: s in e.pk ==> 1 <= s <= |all| && if s in holes then e.pk[s].Hole? else !e.pk[s].Hole? && e.pk[s].p == all[s - 1])
            && d.myAru <= e.myAru && e.myAru + 1 !in e.pk && forall s :: d.myAru < s <= e.myAru ==> s in e.pk
  {
    hide Receive, Core;
    ReceiveKeeps(all, holes, d, p);
    NoneAbove(all, holes, d);
    CountersAfter(d, p);
    SlotsAre(all, holes, Receive(d, p));
  }

  lemma {:induction false} CountersAfter(d: Dstate, p: Packet)
    requires p.memb == d.memb && d.discarded < p.seqNo && (forall s :: d.highest < s ==> s !in d.pk)
    requires d.myAru <= d.highest && d.myAru + 1 !in d.pk
    ensures var e := Receive(d, p);
            && e.pk.Keys == d.pk.Keys + {p.seqNo} && e.highest == Max(d.highest, p.seqNo)
            && d.myAru <= e.myAru && e.myAru + 1 !in e.pk && forall s :: d.myAru < s <= e.myAru ==> s in e.pk
  {
    hide DeliverAgreed, DeliverReliable;
    if p.seqNo in d.pk {
      assert d.pk.Keys == d.pk.Keys + {p.seqNo};
    } else {
      var e := d.(pk := d.pk[p.seqNo := Held(p)], highest := Max(d.highest, p.seqNo));
      EventsTouch(e.(myAru := Advance(e.pk, e.myAru, e.highest)), 0, 0);
      EventsTouch(e, p.seqNo, 1);
    }
  }

  lemma {:induction false} SlotsAre(all: seq<Packet>, holes: set<int>, d: Dstate)
    requires Core(all, holes, d)
    ensures forall s :: s in d.pk ==> 1 <= s <= |all| && if s in holes then d.pk[s].Hole? else !d.pk[s].Hole? && d.pk[s].p == all[s - 1]
  {
    forall s | s in d.pk ensures 1 <= s <= |all| && if s in holes then d.pk[s].Hole? else !d.pk[s].Hole? && d.pk[s].p == all[s - 1] {
      assert SlotOK(all, holes, s, d.pk[s]);
    }
  }

  lemma {:induction false} NoneAbove(all: seq<Packet>, holes: set<int>, d: Dstate)
    requires Core(all, holes, d)
    ensures forall s :: d.highest < s ==> s !in d.pk
  {
  }
}
