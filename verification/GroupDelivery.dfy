// The exchange as one daemon sees it: the handlers, run over the messages in
// their total order, end the exchange exactly when the last message of every set
// has come.
module GroupDelivery {
  import opened Types
  import opened Groups
  import opened GroupBookkeeping
  import X = GroupExchange
  import C = GroupClass
  import E = GroupEndToEnd

  // The messages come from the leaders of the sets; the last one of a leader says
  // how many daemons its set has.
  function Take(x: X.Exchange, leaders: seq<Proc>, g: C.Gathering, e: X.Item, b: seq<Byte>): C.Gathering {
    if e.GroupsMessage? && 0 <= e.from < |x.sizes| && |leaders| == |x.sizes| && 0 <= x.sizes[e.from]
    then C.Handle(g, g.s.regId, leaders[e.from], b, e.last, x.sizes[e.from]) else g
  }

  function Run(x: X.Exchange, leaders: seq<Proc>, g: C.Gathering, log: seq<X.Item>, bodies: seq<seq<Byte>>): C.Gathering
    requires |log| <= |bodies|
    decreases |log|
  {
    if log == [] then g
    else var k := |log| - 1; Take(x, leaders, Run(x, leaders, g, log[..k], bodies), log[k], bodies[k])
  }

  // The messages of the other sets, as the handler stores them.
  function LinksAfter(leaders: seq<Proc>, own: Proc, links: seq<C.Link>, log: seq<X.Item>, bodies: seq<seq<Byte>>): seq<C.Link>
    requires |log| <= |bodies|
    decreases |log|
  {
    if log == [] then links
    else
      var k := |log| - 1;
      var less := LinksAfter(leaders, own, links, log[..k], bodies);
      if !log[k].GroupsMessage? || !(0 <= log[k].from < |leaders|) || leaders[log[k].from] == own then less
      else C.Stored(less, leaders[log[k].from], bodies[k], log[k].last)
  }

  // Only GROUPS messages, and the exchange is not over before the last of them.
  predicate Gathers(x: X.Exchange, log: seq<X.Item>) {
    && (forall k :: 0 <= k < |log| ==> log[k].GroupsMessage? && 0 <= log[k].from < |x.sizes|)
    && forall k :: 0 <= k < |log| ==> !X.Over(x, log[..k])
  }

  predicate Starts(x: X.Exchange, leaders: seq<Proc>, g: C.Gathering) {
    && X.ExchangeOK(x) && |leaders| == |x.sizes| && (forall i :: 0 <= i < |leaders| ==> leaders[i] in g.s.conf)
    && Busy(g.s) && !g.s.fault && g.s.synced != [] && g.count == 0 && |g.s.reg| == x.daemons
  }

  lemma {:induction false} GathersLess(x: X.Exchange, log: seq<X.Item>)
    requires Gathers(x, log) && log != []
    ensures Gathers(x, log[..|log| - 1]) && !X.Over(x, log[..|log| - 1])
  {
    var less := log[..|log| - 1];
    forall k | 0 <= k < |less| ensures !X.Over(x, less[..k]) { assert less[..k] == log[..k]; }
  }

  // While messages come the daemon only stores and counts them; the one that
  // makes the count complete ends the exchange.
  lemma {:induction false} CountFollows(x: X.Exchange, leaders: seq<Proc>, g: C.Gathering, log: seq<X.Item>, bodies: seq<seq<Byte>>)
    requires Starts(x, leaders, g) && Gathers(x, log) && |log| <= |bodies| && !X.Over(x, [])
    ensures var h := Run(x, leaders, g, log, bodies);
            var links := LinksAfter(leaders, g.s.synced[0], g.links, log, bodies);
            if X.Over(x, log) then h.s == C.GatheredLinks(g.s, links)
            else h.s == g.s && h.links == links && h.count == X.NumGathered(x, log)
    decreases |log|
  {
    hide C.Stored, C.GatheredLinks;
    if log != [] {
      var k := |log| - 1;
      GathersLess(x, log);
      CountFollows(x, leaders, g, log[..k], bodies);
      assert X.NumGathered(x, log) == X.NumGathered(x, log[..k]) + (if log[k].last then x.sizes[log[k].from] else 0);
    }
  }

  lemma {:induction false} DoneOrFault(s: Groups, links: seq<C.Link>)
    requires Busy(s)
    ensures C.GatheredLinks(s, links).fault || !Busy(C.GatheredLinks(s, links))
  {
    hide C.AddLinkSets, C.TakeLinks, RenewAll, TransGroup, Keep;
  }

  // ------------------------------------------------------- the log of an exchange

  // How much of a log belongs to the exchange.
  function Part(x: X.Exchange, log: seq<X.Item>): (k: nat)
    ensures k <= |log|
    decreases |log|
  {
    if log == [] then 0 else if X.Over(x, log[..|log| - 1]) then Part(x, log[..|log| - 1]) else |log|
  }

  lemma {:induction false} PartHolds(x: X.Exchange, log: seq<X.Item>)
    requires X.ExchangeOK(x) && X.OneLastEach(log) && forall k :: 0 <= k < |log| ==> X.RightPhase(x, log, k)
    requires forall k :: 0 <= k < |log| && log[k].GroupsMessage? ==> 0 <= log[k].from < |x.sizes|
    ensures var m := Part(x, log);
            && Gathers(x, log[..m]) && (X.Over(x, log) <==> X.Over(x, log[..m]))
            && forall k :: m <= k < |log| ==> log[k].Ordinary?
    decreases |log|
  {
    hide X.Over;
    var m := Part(x, log);
    if log != [] {
      var less := log[..|log| - 1];
      assert X.RightPhase(x, log, |log| - 1);
      if X.Over(x, less) {
        X.OneLastPrefix(log, |log| - 1);
        forall k | 0 <= k < |less| ensures X.RightPhase(x, less, k) { assert X.RightPhase(x, log, k) && less[..k] == log[..k]; }
        PartHolds(x, less);
        X.PrefixOver(x, log, |log| - 1);
        assert less[..m] == log[..m];
      } else {
        assert log[..m] == log;
        NoneOver(x, log);
      }
    } else {
      assert log[..m] == log;
    }
  }

  // If the exchange is not over before the last item, it was not over before.
  lemma {:induction false} NoneOver(x: X.Exchange, log: seq<X.Item>)
    requires X.ExchangeOK(x) && X.OneLastEach(log) && (forall k :: 0 <= k < |log| ==> X.RightPhase(x, log, k))
    requires forall k :: 0 <= k < |log| && log[k].GroupsMessage? ==> 0 <= log[k].from < |x.sizes|
    requires log != [] && !X.Over(x, log[..|log| - 1])
    ensures Gathers(x, log)
  {
    hide X.Over;
    forall k | 0 <= k < |log| ensures !X.Over(x, log[..k]) && log[k].GroupsMessage? {
      assert X.RightPhase(x, log, k);
      if X.Over(x, log[..k]) {
        var less := log[..|log| - 1];
        X.OneLastPrefix(log, |log| - 1);
        assert less[..k] == log[..k];
        X.PrefixOver(x, less, k);
      }
    }
  }

  lemma {:induction false} NotOverYet(x: X.Exchange)
    requires X.ExchangeOK(x)
    ensures !X.Over(x, [])
  {
    X.OverIff(x, []);
    assert !X.HasLast([], 0);
  }

  lemma {:induction false} PrefixRight(x: X.Exchange, s: X.Xstate, p: int)
    requires X.Xinv(x, s) && 0 <= p <= |s.log|
    ensures var log := s.log[..p];
            && X.ExchangeOK(x) && X.OneLastEach(log) && (forall k :: 0 <= k < |log| ==> X.RightPhase(x, log, k))
            && forall k :: 0 <= k < |log| && log[k].GroupsMessage? ==> 0 <= log[k].from < |x.sizes|
  {
    var log := s.log[..p];
    X.OneLastPrefix(s.log, p);
    forall k | 0 <= k < |log| ensures X.RightPhase(x, log, k) { assert X.RightPhase(x, s.log, k) && log[..k] == s.log[..k]; }
  }

  // In every run of the exchange: the handlers of daemon d, run over the GROUPS
  // messages it has delivered, have left GGATHER or GGT exactly if the exchange
  // is over; what it has delivered since are ordinary messages; and if the
  // messages it stored carry the sets of the membership, it has not faulted.
  lemma {:induction false} HandlersFollow(x: X.Exchange, ss: seq<X.Xstate>, k: nat, d: int,
                                          leaders: seq<Proc>, g: C.Gathering, bodies: seq<seq<Byte>>, ms: seq<SetMessage>)
    requires X.Xrun(x, ss) && k < |ss| && 0 <= d < x.daemons && X.XshapeOK(x, ss[k])
    requires Starts(x, leaders, g) && ss[k].pos[d] <= |bodies| && Inv(g.s) && Exchangeable(g.s, ms)
    ensures var log := ss[k].log[..ss[k].pos[d]];
            var m := Part(x, log);
            var h := Run(x, leaders, g, log[..m], bodies);
            && (forall q :: m <= q < |log| ==> log[q].Ordinary?)
            && (!X.Over(x, log) ==> h.s == g.s)
            && (X.Over(x, log) && E.AllCarry(LinksAfter(leaders, g.s.synced[0], g.links, log[..m], bodies), ms) ==>
                  !h.s.fault && h.s == Gathered(g.s, ms) && h.s.phase == if g.s.phase == GGT then GTRANS else GOP)
            && (!h.s.fault ==> (Busy(h.s) <==> !X.Over(x, log)))
  {
    hide X.Xrun, X.Over, Gathers, Run, LinksAfter, E.AllCarry, C.GatheredLinks, Gathered, Inv, Exchangeable, Part;
    X.XrunInv(x, ss, k);
    var log := ss[k].log[..ss[k].pos[d]];
    PrefixRight(x, ss[k], ss[k].pos[d]);
    PartHolds(x, log);
    NotOverYet(x);
    var m := Part(x, log);
    CountFollows(x, leaders, g, log[..m], bodies);
    var links := LinksAfter(leaders, g.s.synced[0], g.links, log[..m], bodies);
    DoneOrFault(g.s, links);
    if E.AllCarry(links, ms) {
      E.HandlersExchangeSets(g.s, links, ms, {}, UNKNOWN);
      GatheredKeeps(g.s, ms);
    }
  }

  // --------------------------------------------- what a daemon has gathered so far

  predicate FromRep(leaders: seq<Proc>, rep: Proc, e: X.Item) {
    e.GroupsMessage? && 0 <= e.from < |leaders| && leaders[e.from] == rep
  }

  // The messages of one representative, the newest first.
  function MessagesOf(leaders: seq<Proc>, rep: Proc, log: seq<X.Item>, bodies: seq<seq<Byte>>): seq<seq<Byte>>
    requires |log| <= |bodies|
    decreases |log|
  {
    if log == [] then []
    else
      var k := |log| - 1;
      (if FromRep(leaders, rep, log[k]) then [bodies[k]] else []) + MessagesOf(leaders, rep, log[..k], bodies)
  }

  predicate LastCame(leaders: seq<Proc>, rep: Proc, log: seq<X.Item>) {
    exists k :: 0 <= k < |log| && FromRep(leaders, rep, log[k]) && log[k].last
  }

  lemma {:induction false} LastCameMore(leaders: seq<Proc>, rep: Proc, log: seq<X.Item>)
    requires log != []
    ensures LastCame(leaders, rep, log) <==>
              LastCame(leaders, rep, log[..|log| - 1]) || (FromRep(leaders, rep, log[|log| - 1]) && log[|log| - 1].last)
  {
    var less := log[..|log| - 1];
    if LastCame(leaders, rep, less) {
      var k :| 0 <= k < |less| && FromRep(leaders, rep, less[k]) && less[k].last;
      assert log[k] == less[k];
    }
    if LastCame(leaders, rep, log) {
      var k :| 0 <= k < |log| && FromRep(leaders, rep, log[k]) && log[k].last;
      if k < |less| { assert less[k] == log[k]; }
    }
  }

  // One link for each other representative that has been heard of, with all its
  // messages, and whether the last of them has come.
  ghost predicate LinksHold(leaders: seq<Proc>, own: Proc, links: seq<C.Link>, log: seq<X.Item>, bodies: seq<seq<Byte>>)
    requires |log| <= |bodies|
  {
    && (forall x, y :: 0 <= x < y < |links| ==> links[x].rep != links[y].rep)
    && (forall x :: 0 <= x < |links| ==> LinkHolds(leaders, own, links[x], log, bodies))
    && (forall rep :: rep != own && MessagesOf(leaders, rep, log, bodies) != [] ==> HasLink(links, rep))
  }

  ghost predicate LinkHolds(leaders: seq<Proc>, own: Proc, l: C.Link, log: seq<X.Item>, bodies: seq<seq<Byte>>)
    requires |log| <= |bodies|
  {
    l.rep != own && l.messages == MessagesOf(leaders, l.rep, log, bodies) != [] && (l.complete <==> LastCame(leaders, l.rep, log))
  }

  predicate HasLink(links: seq<C.Link>, rep: Proc) {
    exists x :: 0 <= x < |links| && links[x].rep == rep
  }

  lemma {:induction false} PlaceIs(links: seq<C.Link>, rep: Proc)
    ensures var i := C.Place(links, rep); (i == |links| <==> !HasLink(links, rep)) && (i < |links| ==> links[i].rep == rep)
    decreases |links|
  {
    if links != [] && links[0].rep != rep {
      PlaceIs(links[1..], rep);
      if HasLink(links, rep) {
        var x :| 0 <= x < |links| && links[x].rep == rep;
        assert links[1..][x - 1].rep == rep;
      }
      if HasLink(links[1..], rep) {
        var x :| 0 <= x < |links[1..]| && links[1..][x].rep == rep;
        assert links[x + 1].rep == rep;
      }
    } else if links != [] {
      assert links[0].rep == rep;
    }
  }

  lemma {:induction false} NotComeYet(leaders: seq<Proc>, rep: Proc, log: seq<X.Item>, bodies: seq<seq<Byte>>)
    requires |log| <= |bodies| && MessagesOf(leaders, rep, log, bodies) == []
    ensures !LastCame(leaders, rep, log)
    decreases |log|
  {
    if log != [] {
      NotComeYet(leaders, rep, log[..|log| - 1], bodies);
      LastCameMore(leaders, rep, log);
    }
  }

  // What one more item changes for one representative.
  lemma {:induction false} OneMore(leaders: seq<Proc>, rep: Proc, log: seq<X.Item>, bodies: seq<seq<Byte>>)
    requires 0 < |log| <= |bodies|
    ensures var k := |log| - 1; var came := FromRep(leaders, rep, log[k]);
            && MessagesOf(leaders, rep, log, bodies) ==
                 (if came then [bodies[k]] else []) + MessagesOf(leaders, rep, log[..k], bodies)
            && (LastCame(leaders, rep, log) <==> LastCame(leaders, rep, log[..k]) || (came && log[k].last))
            && (MessagesOf(leaders, rep, log[..k], bodies) == [] ==> !LastCame(leaders, rep, log[..k]))
  {
    hide LastCame;
    LastCameMore(leaders, rep, log);
    if MessagesOf(leaders, rep, log[..|log| - 1], bodies) == [] { NotComeYet(leaders, rep, log[..|log| - 1], bodies); }
  }

  // The list after one message: the link of its representative, and the rest.
  lemma {:induction false} StoredIs(links: seq<C.Link>, rep: Proc, b: seq<Byte>, last: bool, x: nat)
    requires forall x, y :: 0 <= x < y < |links| ==> links[x].rep != links[y].rep
    requires x < |C.Stored(links, rep, b, last)|
    ensures var ls := C.Stored(links, rep, b, last); var i := C.Place(links, rep);
            && (HasLink(links, rep) ==> i < |links| && links[i].rep == rep)
            && (forall y :: 0 <= y < x ==> ls[y].rep != ls[x].rep)
            && (ls[x].rep != rep ==> ls[x] in links)
            && (ls[x].rep == rep ==>
                  ls[x] == if HasLink(links, rep) then C.Link(rep, [b] + links[i].messages, links[i].complete || last) else C.Link(rep, [b], last))
  {
    PlaceIs(links, rep);
    var i := C.Place(links, rep);
    if i == |links| {
      forall y | 0 <= y < |links| ensures links[y].rep != rep {
        assert HasLink(links, links[y].rep);
      }
    }
  }

  lemma {:induction false} StoredKeeps(links: seq<C.Link>, rep: Proc, b: seq<Byte>, last: bool, r: Proc)
    requires HasLink(links, r)
    ensures HasLink(C.Stored(links, rep, b, last), r)
  {
    var i := C.Place(links, rep);
    var y :| 0 <= y < |links| && links[y].rep == r;
    assert C.Stored(links, rep, b, last)[if i < |links| then y else y + 1].rep == r;
  }

  // One more message of another representative.
  lemma {:induction false} StoredHolds(leaders: seq<Proc>, own: Proc, links: seq<C.Link>, log: seq<X.Item>, bodies: seq<seq<Byte>>, rep: Proc)
    requires 0 < |log| <= |bodies| && LinksHold(leaders, own, links, log[..|log| - 1], bodies)
    requires FromRep(leaders, rep, log[|log| - 1]) && rep != own
    ensures LinksHold(leaders, own, C.Stored(links, rep, bodies[|log| - 1], log[|log| - 1].last), log, bodies)
  {
    hide LastCame, MessagesOf, C.Stored, C.Place;
    var k := |log| - 1;
    var ls := C.Stored(links, rep, bodies[k], log[k].last);
    forall x | 0 <= x < |ls|
      ensures LinkHolds(leaders, own, ls[x], log, bodies) && forall y :: 0 <= y < x ==> ls[y].rep != ls[x].rep
    {
      StoredIs(links, rep, bodies[k], log[k].last, x);
      OneMore(leaders, ls[x].rep, log, bodies);
      if ls[x].rep != rep {
        var y :| 0 <= y < |links| && links[y] == ls[x];
        assert LinkHolds(leaders, own, links[y], log[..k], bodies);
      } else if HasLink(links, rep) {
        assert LinkHolds(leaders, own, links[C.Place(links, rep)], log[..k], bodies);
      } else {
        assert MessagesOf(leaders, rep, log[..k], bodies) == [];
      }
    }
    forall r | r != own && MessagesOf(leaders, r, log, bodies) != [] ensures HasLink(ls, r) {
      OneMore(leaders, r, log, bodies);
      if r == rep {
        RepStored(links, rep, bodies[k], log[k].last);
      } else {
        StoredKeeps(links, rep, bodies[k], log[k].last, r);
      }
    }
  }

  lemma {:induction false} RepStored(links: seq<C.Link>, rep: Proc, b: seq<Byte>, last: bool)
    ensures HasLink(C.Stored(links, rep, b, last), rep)
  {
    var i := C.Place(links, rep);
    assert C.Stored(links, rep, b, last)[if i < |links| then i else 0].rep == rep;
  }

  lemma {:induction false} OtherHolds(leaders: seq<Proc>, own: Proc, links: seq<C.Link>, log: seq<X.Item>, bodies: seq<seq<Byte>>)
    requires 0 < |log| <= |bodies| && LinksHold(leaders, own, links, log[..|log| - 1], bodies)
    requires var e := log[|log| - 1]; !(e.GroupsMessage? && 0 <= e.from < |leaders| && leaders[e.from] != own)
    ensures LinksHold(leaders, own, links, log, bodies)
  {
    hide LastCame, MessagesOf;
    var k := |log| - 1;
    forall x | 0 <= x < |links| ensures LinkHolds(leaders, own, links[x], log, bodies) {
      OneMore(leaders, links[x].rep, log, bodies);
      assert LinkHolds(leaders, own, links[x], log[..k], bodies);
    }
    forall r | r != own && MessagesOf(leaders, r, log, bodies) != [] ensures HasLink(links, r) {
      OneMore(leaders, r, log, bodies);
    }
  }

  // Whatever messages have come, in whatever order.
  lemma {:induction false} GatheredSoFar(leaders: seq<Proc>, own: Proc, log: seq<X.Item>, bodies: seq<seq<Byte>>)
    requires |log| <= |bodies|
    ensures LinksHold(leaders, own, LinksAfter(leaders, own, [], log, bodies), log, bodies)
    decreases |log|
  {
    hide LinksHold, C.Stored;
    if log == [] {
      NothingGathered(leaders, own, bodies);
    } else {
      var k := |log| - 1;
      GatheredSoFar(leaders, own, log[..k], bodies);
      var links := LinksAfter(leaders, own, [], log[..k], bodies);
      if log[k].GroupsMessage? && 0 <= log[k].from < |leaders| && leaders[log[k].from] != own {
        StoredHolds(leaders, own, links, log, bodies, leaders[log[k].from]);
      } else {
        OtherHolds(leaders, own, links, log, bodies);
      }
    }
  }

  lemma {:induction false} NothingGathered(leaders: seq<Proc>, own: Proc, bodies: seq<seq<Byte>>)
    ensures LinksHold(leaders, own, [], [], bodies)
  {
  }

  lemma {:induction false} OwnCame(x: X.Exchange, leaders: seq<Proc>, g: C.Gathering, log: seq<X.Item>, bodies: seq<seq<Byte>>)
    requires Starts(x, leaders, g) && Gathers(x, log) && |log| <= |bodies| && !X.Over(x, [])
    ensures !X.Over(x, log) ==> (Run(x, leaders, g, log, bodies).own <==> g.own || LastCame(leaders, g.s.synced[0], log))
    decreases |log|
  {
    hide C.Stored, C.GatheredLinks, LastCame;
    if log != [] {
      var k := |log| - 1;
      GathersLess(x, log);
      OwnCame(x, leaders, g, log[..k], bodies);
      CountFollows(x, leaders, g, log[..k], bodies);
      LastCameMore(leaders, g.s.synced[0], log);
      assert X.NumGathered(x, log) == X.NumGathered(x, log[..k]) + (if log[k].last then x.sizes[log[k].from] else 0);
    } else {
      NoneCame(leaders, g.s.synced[0]);
    }
  }

  lemma {:induction false} NoneCame(leaders: seq<Proc>, rep: Proc)
    ensures !LastCame(leaders, rep, [])
  {
  }

  lemma {:induction false} CompletedAre(links: seq<C.Link>, own: bool, l: C.Link)
    ensures l in C.Completed(links, own) <==> own && l in links && l.complete
    decreases |links|
  {
    if links != [] {
      CompletedAre(links[..|links| - 1], own, l);
      assert links == links[..|links| - 1] + [links[|links| - 1]];
    }
  }

  // A regular membership that comes before the exchange is over takes in exactly
  // those other sets whose last message has come, each with all its messages; and
  // none if the last message of the daemon's own set has not.
  lemma {:induction false} TakenInCascade(x: X.Exchange, leaders: seq<Proc>, g: C.Gathering, log: seq<X.Item>, bodies: seq<seq<Byte>>, l: C.Link)
    requires Starts(x, leaders, g) && Gathers(x, log) && |log| <= |bodies| && !X.Over(x, []) && !X.Over(x, log)
    requires g.links == [] && !g.own
    ensures var h := Run(x, leaders, g, log, bodies); var own := g.s.synced[0];
            l in C.Completed(h.links, h.own) <==>
              && LastCame(leaders, own, log) && l.rep != own && LastCame(leaders, l.rep, log)
              && l == C.Link(l.rep, MessagesOf(leaders, l.rep, log, bodies), true)
  {
    hide C.Stored, C.GatheredLinks, LastCame, Gathers, LinksAfter, Run, MessagesOf;
    var own := g.s.synced[0];
    OwnCame(x, leaders, g, log, bodies);
    CountFollows(x, leaders, g, log, bodies);
    GatheredSoFar(leaders, own, log, bodies);
    var h := Run(x, leaders, g, log, bodies);
    CompletedAre(h.links, h.own, l);
    if l.rep != own && LastCame(leaders, l.rep, log) {
      if MessagesOf(leaders, l.rep, log, bodies) == [] { NotComeYet(leaders, l.rep, log, bodies); }
      var y :| 0 <= y < |h.links| && h.links[y].rep == l.rep;
      assert LinkHolds(leaders, own, h.links[y], log, bodies);
    }
    if l in h.links {
      var y :| 0 <= y < |h.links| && h.links[y] == l;
      assert LinkHolds(leaders, own, h.links[y], log, bodies);
    }
  }
}
