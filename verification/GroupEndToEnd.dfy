// From the bytes of the gathered messages to the view of the groups: daemons
// that have gathered the messages of all synced sets, whatever the order the
// messages came in, end with the same groups.
module GroupEndToEnd {
  import opened Types
  import opened Groups
  import opened GroupBookkeeping
  import opened GroupView
  import opened GroupCascade
  import opened GroupCodec
  import opened GroupBuffers
  import opened GroupParts
  import opened GroupBufferMethods
  import opened GroupMessages
  import S = GroupSteps
  import C = GroupClass

  // The messages of a link are those built from a list of the set's groups.
  ghost predicate Carries(l: C.Link, m: SetMessage) {
    exists all, reg, synced :: BuiltFrom(l, m, all, reg, synced)
  }

  ghost predicate BuiltFrom(l: C.Link, m: SetMessage, all: seq<Grp>, reg: MembId, synced: seq<int>) {
    && Writable(all, reg, synced) && Lists(all, m.groups) && S.Procs(synced) == m.procs && AllOK(AllChunks(|synced|, all))
    && multiset(l.messages) == multiset(Buffers(reg, synced, AllChunks(|synced|, all)))
  }

  lemma {:induction false} SetFound(ms: seq<seq<Byte>>, b: seq<Byte>, synced: seq<int>, set0: seq<Proc>)
    requires b in ms && ReadMessage(b).Got? && ReadMessage(b).value.first && ReadMessage(b).value.synced == synced
    requires forall x :: 0 <= x < |ms| ==> ms[x] == b || NotFirst(ms[x])
    ensures C.SetOf(ms, set0) == S.Procs(synced)
    decreases |ms|
  {
    hide ReadMessage, S.Procs;
    var last := ms[|ms| - 1];
    if last != b {
      assert NotFirst(last);
      SetFound(ms[..|ms| - 1], b, synced, set0);
    }
  }

  // The set a link names, from the buffers its messages were.
  lemma {:induction false} LinkNames(ms: seq<seq<Byte>>, bs: seq<seq<Grp>>, reg: MembId, synced: seq<int>, set0: seq<Proc>)
    requires MembOK(reg) && SetFits(synced) && AllOK(bs) && bs != [] && multiset(ms) == multiset(Buffers(reg, synced, bs))
    ensures C.SetOf(ms, set0) == S.Procs(synced)
    ensures forall y :: 0 <= y < |ms| ==> ReadMessage(ms[y]).Got?
  {
    hide MembOK, SetFits, AllOK, Buffers, ReadMessage, S.Procs, NotFirst, C.SetOf, Decoded, Flatten;
    var bufs := Buffers(reg, synced, bs);
    BuffersBack(reg, synced, bs);
    var b := bufs[|bufs| - 1];
    SameElements(ms, bufs);
    assert b in bufs;
    forall y | 0 <= y < |ms| ensures (ms[y] == b || NotFirst(ms[y])) && ReadMessage(ms[y]).Got? {
      assert ms[y] in bufs;
      var x :| 0 <= x < |bufs| && bufs[x] == ms[y];
      if x < |bufs| - 1 { Readable(ms[y]); }
    }
    SetFound(ms, b, synced, set0);
  }

  lemma {:induction false} LinkIsSet(gs: map<Name, Group>, l: C.Link, m: SetMessage, set0: seq<Proc>)
    requires Carries(l, m)
    ensures TakeAll(gs, l.messages) == Merge(gs, m.groups) && C.SetOf(l.messages, set0) == m.procs
    ensures forall y :: 0 <= y < |l.messages| ==> ReadMessage(l.messages[y]).Got?
  {
    hide Merge, Writable, Lists, AllChunks, Buffers, ReadMessage, S.Procs, AllOK, TakeAll, C.SetOf, MembOK, SetFits, Sendable;
    var all, reg, synced :| BuiltFrom(l, m, all, reg, synced);
    Parts(all, reg, synced);
    GroupsRoundTrip(gs, m.groups, all, reg, synced, l.messages);
    SomeChunks(|synced|, all);
    LinkNames(l.messages, AllChunks(|synced|, all), reg, synced, set0);
  }

  lemma {:induction false} Readable(b: seq<Byte>)
    requires NotFirst(b)
    ensures ReadMessage(b).Got?
  {
  }

  lemma {:induction false} SameElements(a: seq<seq<Byte>>, b: seq<seq<Byte>>)
    requires multiset(a) == multiset(b)
    ensures forall x :: x in a <==> x in b
  {
    forall x ensures x in a <==> x in b {
      assert x in a <==> x in multiset(a);
      assert x in b <==> x in multiset(b);
    }
  }

  ghost predicate AllCarry(links: seq<C.Link>, ms: seq<SetMessage>) {
    |links| == |ms| && forall x :: 0 <= x < |links| ==> Carries(links[x], ms[x])
  }

  lemma {:induction false} LinksAreSets(conf: map<Proc, int>, a: seq<Proc>, gs: map<Name, Group>, links: seq<C.Link>, ms: seq<SetMessage>)
    requires AllCarry(links, ms)
    ensures C.TakeLinks(gs, links) == MergeAll(gs, ms) && C.AddLinkSets(conf, a, links) == AddSets(conf, a, ms)
    decreases |links|
  {
    hide Carries, Merge, TakeAll, AddToSynced, C.SetOf;
    if links != [] {
      var k := |links| - 1;
      LinksAreSets(conf, a, gs, links[..k], ms[..k]);
      LinkIsSet(MergeAll(gs, ms[..k]), links[k], ms[k], C.LastSet(links[..k]));
    }
  }

  // What the handler computes from the bytes is what the exchange of whole sets
  // computes.
  lemma {:induction false} HandlersExchangeSets(s: Groups, links: seq<C.Link>, ms: seq<SetMessage>, reg: set<Proc>, id: MembId)
    requires AllCarry(links, ms)
    ensures C.GatheredLinks(s, links) == Gathered(s, ms)
    ensures s.phase == GGT ==> C.RegLinks(s, reg, id, links) == Reg(s, reg, id, ms)
  {
    hide AllCarry, C.TakeLinks, C.AddLinkSets, MergeAll, AddSets, RenewAll, CleanedAfterCascade, Trans, Keep;
    LinksAreSets(s.conf, s.synced, s.groups, links, ms);
  }

  // What a daemon comes to from the bytes it has gathered, whenever it hears of
  // the next transitional membership.
  function OutcomeOfLinks(s: Groups, links: seq<C.Link>, news: News, trans: set<Proc>, id: MembId): Groups {
    match news
    case Unheard => C.GatheredLinks(s, links)
    case Early => C.GatheredLinks(Trans(s, trans, id), links)
    case Late => Trans(C.GatheredLinks(s, links), trans, id)
  }

  // Agreement, byte for byte.
  lemma {:induction false} BytesToAgreement(w: Sets, s: Groups, j: int, order: seq<int>, links: seq<C.Link>,
                                            t: Groups, k: int, order': seq<int>, links': seq<C.Link>,
                                            x: News, y: News, trans: set<Proc>, id: MembId, n: Name)
    requires Gatherer(w, s, j, order) && Gatherer(w, t, k, order') && Whole(w, s) && Whole(w, t) && NoUnseenMerge(w)
    requires AllCarry(links, GroupView.Taken(w, order)) && AllCarry(links', GroupView.Taken(w, order'))
    requires s.regId == t.regId && s.phase == t.phase == GGATHER && !s.fault && !t.fault && s.conf == t.conf
    requires x.Unheard? <==> y.Unheard?
    ensures var a, b := OutcomeOfLinks(s, links, x, trans, id), OutcomeOfLinks(t, links', y, trans, id);
            && SameView(a, b, n) && a.phase == (if x.Unheard? then GOP else GTRANS)
            && InOrder(s.conf, a.synced)
            && forall p :: p in a.synced <==> InWorld(w, p) && (x.Unheard? || p in trans)
  {
    hide Gatherer, Whole, NoUnseenMerge, AllCarry, Gathered, C.GatheredLinks, SameView, InOrder, InWorld, Trans;
    InRange(w, s, j, order);
    InRange(w, t, k, order');
    HandlersExchangeSets(if x.Early? then Trans(s, trans, id) else s, links, GroupView.Taken(w, order), {}, UNKNOWN);
    HandlersExchangeSets(if y.Early? then Trans(t, trans, id) else t, links', GroupView.Taken(w, order'), {}, UNKNOWN);
    CascadeAgreement(w, s, j, order, t, k, order', x, y, trans, id, n);
  }

  lemma {:induction false} InRange(w: Sets, s: Groups, j: int, order: seq<int>)
    requires Gatherer(w, s, j, order)
    ensures forall x :: 0 <= x < |order| ==> 0 <= order[x] < |w|
  {
  }
}
