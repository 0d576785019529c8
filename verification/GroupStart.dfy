// What a regular membership leads to: straight back to GOP if it only took
// daemons away, and otherwise the state exchange, which begins with every daemon
// where the exchange takes it to be.
module GroupStart {
  import opened Types
  import opened Groups
  import opened GroupBookkeeping
  import opened GroupView
  import opened GroupCascade
  import opened GroupReplicas
  import X = GroupExchange
  import C = GroupClass
  import D = GroupDelivery

  // ------------------------------------------------------------- whether to exchange

  lemma {:induction false} SameSize(a: set<Proc>, b: set<Proc>)
    requires a <= b
    ensures |a| <= |b| && (|a| == |b| <==> a == b)
  {
    assert b == a + (b - a);
    if a != b {
      assert exists p :: p in b - a;
    }
  }

  // The transitional daemons are among those of the regular membership.  No other
  // daemon has come exactly if the exchange is not needed.
  lemma {:induction false} ExchangeIffJoined(s: Groups, reg: set<Proc>, id: MembId)
    requires s.phase == GTRANS && s.trans <= reg
    ensures var t := Reg(s, reg, id, []);
            && (reg == s.trans ==> t.phase == GOP)
            && ((exists p :: p in reg && p !in s.trans) ==> t.phase == GGATHER)
            && t.synced == s.synced && t.reg == reg && t.regId == id && t.fault == s.fault
  {
    hide Cleaned, RenewAll;
    SameSize(s.trans, reg);
  }

  // ------------------------------------------------------------------ all the sets

  // One daemon, the leader, of each synced set that a regular membership is made
  // of, and the sets whose messages it had complete if the membership before was
  // still being exchanged: what it is when the membership has been delivered.
  datatype Part = Part(leader: Groups, complete: seq<SetMessage>)

  function Now(s: Groups, reg: set<Proc>, id: MembId, q: Part): Groups {
    Reg(s, reg, id, if s.phase == GTRANS then [] else q.complete)
  }

  ghost predicate PartOK(q: Part, reg: set<Proc>) {
    && Inv(q.leader) && !q.leader.fault
    && (q.leader.phase == GTRANS || (q.leader.phase == GGT && Exchangeable(q.leader, q.complete)))
    && (q.leader.phase == GTRANS ==> q.leader.trans <= reg && forall p :: p in q.leader.synced <==> p in q.leader.trans)
  }

  // The synced sets make up the membership.
  ghost predicate Together(ls: seq<Part>, reg: set<Proc>, id: MembId) {
    && ls != [] && !Unknown(id)
    && (forall j :: 0 <= j < |ls| ==> PartOK(ls[j], reg) && ls[j].leader.conf == ls[0].leader.conf)
    && (forall j, k, p :: 0 <= j < |ls| && 0 <= k < |ls| && p in Lead(ls, reg, id, j).synced && p in Lead(ls, reg, id, k).synced ==> j == k)
    && (forall p :: p in reg <==> exists j :: 0 <= j < |ls| && p in Lead(ls, reg, id, j).synced)
    && (forall p, q :: p in ls[0].leader.conf && q in ls[0].leader.conf && ls[0].leader.conf[p] == ls[0].leader.conf[q] ==> p == q)
  }

  // The leader of set j in the new membership.
  function Lead(ls: seq<Part>, reg: set<Proc>, id: MembId, j: int): Groups
    requires 0 <= j < |ls|
  {
    Now(ls[j].leader, reg, id, ls[j])
  }

  // Does nobody have to exchange anything?
  predicate Subtractive(ls: seq<Part>) {
    |ls| == 1 && ls[0].leader.phase == GTRANS
  }

  // What the leaders' messages say.
  ghost function Says(ls: seq<Part>, reg: set<Proc>, id: MembId): Sets {
    seq(|ls|, j requires 0 <= j < |ls| => SetMessage(Lead(ls, reg, id, j).synced, Lead(ls, reg, id, j).groups))
  }

  // The messages of the other sets, each once, in some order.
  predicate Others(order: seq<int>, n: int, j: int) {
    && (forall x :: 0 <= x < |order| ==> 0 <= order[x] < n && order[x] != j)
    && (forall x, y :: 0 <= x < y < |order| ==> order[x] != order[y])
    && forall i :: 0 <= i < n && i != j ==> i in order
  }

  lemma {:induction false} InSynced(s: Groups)
    requires Inv(s)
    ensures s.me in s.synced && InOrder(s.conf, s.synced)
  {
  }

  // One daemon of a set, when the membership has been delivered.
  lemma {:induction false} NowOK(s: Groups, q: Part, reg: set<Proc>, id: MembId)
    requires PartOK(q, reg) && !Unknown(id) && Inv(s) && SameViews(s, q.leader)
    ensures var t := Now(s, reg, id, q);
            && Inv(t) && SameViews(t, Now(q.leader, reg, id, q)) && t.reg == reg && t.regId == id && t.conf == s.conf
            && (s.phase == GTRANS ==> t.synced == s.synced)
            && t.phase == (if s.phase == GTRANS && s.trans == reg then GOP else GGATHER)
  {
    hide Inv, Reg, Exchangeable, InOrder, Apart;
    if s.phase == GTRANS {
      RegKeepsInTrans(s, reg, id);
      RegAlike(s, q.leader, reg, id);
      ExchangeIffJoined(s, reg, id);
      RegShape(s, reg, id);
    } else {
      SameExchangeable(s, q.leader, q.complete);
      RegKeepsInCascade(s, reg, id, q.complete);
      RegKeepsInCascade(q.leader, reg, id, q.complete);
      RegAlikeInCascade(s, q.leader, reg, id, q.complete);
      RegShapeInCascade(s, reg, id, q.complete);
    }
  }

  lemma {:induction false} SameExchangeable(s: Groups, l: Groups, ms: seq<SetMessage>)
    requires SameViews(s, l) && Exchangeable(l, ms)
    ensures Exchangeable(s, ms)
  {
    hide MessageOK, InOrder, Apart;
  }

  lemma {:induction false} RegShape(s: Groups, reg: set<Proc>, id: MembId)
    requires s.phase == GTRANS
    ensures var t := Reg(s, reg, id, []);
            t == s.(phase := t.phase, groups := t.groups, reg := reg, regId := id)
  {
    hide Cleaned, RenewAll;
  }

  lemma {:induction false} RegShapeInCascade(s: Groups, reg: set<Proc>, id: MembId, complete: seq<SetMessage>)
    requires s.phase == GGT && !Reg(s, reg, id, complete).fault
    ensures var t := Reg(s, reg, id, complete);
            t == s.(phase := GGATHER, synced := t.synced, groups := t.groups, reg := reg, regId := id)
  {
    hide CleanedAfterCascade, MergeAll, AddSets, Keep;
  }

  lemma {:induction false} SelfView(s: Groups)
    requires !s.fault
    ensures SameViews(s, s)
  {
  }

  // The leader of set j: alone in the membership, it is back in GOP; otherwise it
  // gathers.
  lemma {:induction false} LeadOK(ls: seq<Part>, reg: set<Proc>, id: MembId, j: int)
    requires Together(ls, reg, id) && 0 <= j < |ls|
    ensures var t := Lead(ls, reg, id, j);
            && Inv(t) && !t.fault && t.me in t.synced && InOrder(t.conf, t.synced) && t.conf == ls[0].leader.conf
            && t.phase == (if Subtractive(ls) then GOP else GGATHER)
            && PartOK(ls[j], reg) && t.regId == id && t.reg == reg && !Unknown(id)
  {
    hide Inv, Reg, Exchangeable, InOrder;
    var q := ls[j];
    SelfView(q.leader);
    NowOK(q.leader, q, reg, id);
    InSynced(Lead(ls, reg, id, j));
    assert Lead(ls, reg, id, j) == Now(q.leader, reg, id, q);
    if q.leader.phase == GTRANS {
      Proportion(ls, reg, id, j);
    }
  }

  // The transitional membership is the regular one only if there is no other set.
  lemma {:induction false} Proportion(ls: seq<Part>, reg: set<Proc>, id: MembId, j: int)
    requires Together(ls, reg, id) && 0 <= j < |ls| && ls[j].leader.phase == GTRANS && Lead(ls, reg, id, j).synced == ls[j].leader.synced
    ensures ls[j].leader.trans == reg <==> |ls| == 1
  {
    hide Inv, Reg, Exchangeable, InOrder, Now;
    if |ls| > 1 {
      var k := if j == 0 then 1 else 0;
      SelfView(ls[k].leader);
      NowOK(ls[k].leader, ls[k], reg, id);
      InSynced(Lead(ls, reg, id, k));
      var m := Lead(ls, reg, id, k).me;
      assert m in Lead(ls, reg, id, k).synced;
      assert m in reg && m !in Lead(ls, reg, id, j).synced;
    } else {
      forall p ensures p in reg <==> p in ls[j].leader.trans {
        assert p in reg <==> p in Lead(ls, reg, id, 0).synced;
      }
    }
  }

  lemma {:induction false} GroupSays(t: Groups, n: Name)
    requires Inv(t) && t.phase == GGATHER && n in t.groups
    ensures CountOK(t.groups[n]) && !Unknown(t.groups[n].id.memb) && forall p :: p in t.groups[n].daemons ==> p in t.synced
  {
    assert GroupOK(t, t.groups[n]);
  }

  lemma {:induction false} SetsApart(ls: seq<Part>, reg: set<Proc>, id: MembId, j: int, k: int)
    requires Together(ls, reg, id) && 0 <= j < |ls| && 0 <= k < |ls| && j != k
    ensures Apart(ls[0].leader.conf, Lead(ls, reg, id, j).synced, Lead(ls, reg, id, k).synced)
  {
    hide Inv, PartOK, Lead;
    LeadOK(ls, reg, id, j);
    LeadOK(ls, reg, id, k);
    var a, b := Lead(ls, reg, id, j).synced, Lead(ls, reg, id, k).synced;
    InConf(ls[0].leader.conf, a);
    InConf(ls[0].leader.conf, b);
    forall x, y | 0 <= x < |a| && 0 <= y < |b| ensures ls[0].leader.conf[a[x]] != ls[0].leader.conf[b[y]] {
      assert a[x] in Lead(ls, reg, id, j).synced && b[y] in Lead(ls, reg, id, k).synced;
      assert a[x] != b[y];
    }
  }

  lemma {:induction false} InConf(conf: map<Proc, int>, ps: seq<Proc>)
    requires InOrder(conf, ps)
    ensures forall x :: 0 <= x < |ps| ==> ps[x] in conf
  {
  }

  lemma {:induction false} SaysWhole(ls: seq<Part>, reg: set<Proc>, id: MembId, s: Groups)
    requires Together(ls, reg, id) && !Subtractive(ls) && s.conf == ls[0].leader.conf
    ensures Whole(Says(ls, reg, id), s)
  {
    hide Together, CountOK, InOrder, Apart, Lead, Inv, PartOK, Subtractive;
    var w := Says(ls, reg, id);
    forall j | 0 <= j < |w| ensures MessageOK(w[j]) && InOrder(s.conf, w[j].procs) {
      LeadOK(ls, reg, id, j);
      forall n | n in w[j].groups
        ensures CountOK(w[j].groups[n]) && !Unknown(w[j].groups[n].id.memb) && forall p :: p in w[j].groups[n].daemons ==> p in w[j].procs
      {
        GroupSays(Lead(ls, reg, id, j), n);
      }
    }
    forall j, k | 0 <= j < |w| && 0 <= k < |w| && j != k ensures Apart(s.conf, w[j].procs, w[k].procs) { SetsApart(ls, reg, id, j, k); }
  }

  // ------------------------------------------------------------ the exchange begins

  // A membership of one synced set that was not exchanging: every daemon is back
  // in GOP at once, with the view of all the others.
  lemma {:induction false} OneSet(ls: seq<Part>, reg: set<Proc>, id: MembId, s: Groups)
    requires Together(ls, reg, id) && Subtractive(ls) && Inv(s) && SameViews(s, ls[0].leader)
    ensures var t := Now(s, reg, id, ls[0]);
            t.phase == GOP && Inv(t) && SameViews(t, Lead(ls, reg, id, 0)) && forall p :: p in t.synced <==> p in reg
  {
    hide Inv, Now, InOrder;
    LeadOK(ls, reg, id, 0);
    NowOK(s, ls[0], reg, id);
    forall p ensures p in Lead(ls, reg, id, 0).synced <==> p in reg { }
  }

  // Any other membership: every daemon of every set gathers, with the groups that
  // its leader's message lists, and the messages of all sets are as the exchange
  // needs them.
  lemma {:induction false} SeveralSets(ls: seq<Part>, reg: set<Proc>, id: MembId, j: int, s: Groups, order: seq<int>)
    requires Together(ls, reg, id) && !Subtractive(ls) && 0 <= j < |ls| && Inv(s) && SameViews(s, ls[j].leader) && Others(order, |ls|, j)
    ensures var t := Now(s, reg, id, ls[j]);
            && t.phase == GGATHER && !t.fault && t.regId == id && t.reg == reg && t.conf == ls[0].leader.conf && Inv(t)
            && Gatherer(Says(ls, reg, id), t, j, order) && Whole(Says(ls, reg, id), t)
  {
    hide Inv, Now, Whole, Together, Alike, PartOK, InOrder, Subtractive;
    LeadOK(ls, reg, id, j);
    NowOK(s, ls[j], reg, id);
    SaysWhole(ls, reg, id, Now(s, reg, id, ls[j]));
  }

  // ----------------------------------------------------------------- how many daemons

  function Sizes(ts: seq<seq<Proc>>): seq<int> {
    seq(|ts|, j requires 0 <= j < |ts| => |ts[j]|)
  }

  function Daemons(ts: seq<seq<Proc>>): set<Proc> {
    set j, p | 0 <= j < |ts| && p in ts[j] :: p
  }

  lemma {:induction false} ListSize(conf: map<Proc, int>, ps: seq<Proc>, qs: set<Proc>)
    requires InOrder(conf, ps) && forall p :: p in ps <==> p in qs
    ensures |ps| == |qs|
    decreases |ps|
  {
    if ps != [] {
      var less, p := ps[..|ps| - 1], ps[|ps| - 1];
      assert ps == less + [p];
      assert p !in less;
      ListSize(conf, less, qs - {p});
      assert p in ps && qs == (qs - {p}) + {p};
    } else {
      assert forall p :: p !in qs;
      assert qs == {};
    }
  }

  lemma {:induction false} SizesSum(conf: map<Proc, int>, ts: seq<seq<Proc>>)
    requires forall j :: 0 <= j < |ts| ==> InOrder(conf, ts[j])
    requires forall j, k, p :: 0 <= j < |ts| && 0 <= k < |ts| && p in ts[j] && p in ts[k] ==> j == k
    ensures X.Sum(Sizes(ts)) == |Daemons(ts)|
    decreases |ts|
  {
    hide InOrder;
    if ts == [] {
      assert Sizes(ts) == [] && Daemons(ts) == {};
    } else {
      var less, s := ts[..|ts| - 1], ts[|ts| - 1];
      SizesSum(conf, less);
      assert Sizes(ts)[..|ts| - 1] == Sizes(less);
      ListSize(conf, s, ProcsIn(s));
      DaemonsMore(ts);
      assert Daemons(less) !! ProcsIn(s);
    }
  }

  function ProcsIn(ps: seq<Proc>): set<Proc> {
    set p | p in ps
  }

  lemma {:induction false} DaemonsMore(ts: seq<seq<Proc>>)
    requires ts != []
    ensures Daemons(ts) == Daemons(ts[..|ts| - 1]) + ProcsIn(ts[|ts| - 1])
  {
    var less := ts[..|ts| - 1];
    forall p ensures p in Daemons(ts) <==> p in Daemons(less) || p in ts[|ts| - 1] {
      if p in Daemons(ts) {
        var j :| 0 <= j < |ts| && p in ts[j];
        assert j < |less| ==> less[j] == ts[j];
      }
      if p in Daemons(less) {
        var j :| 0 <= j < |less| && p in less[j];
        assert ts[j] == less[j];
      }
    }
  }

  function Lists(ls: seq<Part>, reg: set<Proc>, id: MembId): seq<seq<Proc>> {
    seq(|ls|, j requires 0 <= j < |ls| => Lead(ls, reg, id, j).synced)
  }

  // The first of each set.
  function Leaders(ts: seq<seq<Proc>>, me: Proc): seq<Proc> {
    seq(|ts|, i requires 0 <= i < |ts| => if ts[i] == [] then me else ts[i][0])
  }

  lemma {:induction false} DaemonsAre(ls: seq<Part>, reg: set<Proc>, id: MembId)
    requires Together(ls, reg, id)
    ensures Daemons(Lists(ls, reg, id)) == reg
  {
    hide PartOK, Lead;
    var ts := Lists(ls, reg, id);
    forall p ensures p in Daemons(ts) <==> p in reg {
      if p in Daemons(ts) {
        var j :| 0 <= j < |ts| && p in ts[j];
        assert p in Lead(ls, reg, id, j).synced;
      }
      if p in reg {
        var j :| 0 <= j < |ls| && p in Lead(ls, reg, id, j).synced;
        assert p in ts[j];
      }
    }
  }

  // The sizes that the leaders give with their last messages add up to the size of
  // the membership, and each daemon starts the exchange with nothing counted.
  lemma {:induction false} ExchangeStarts(ls: seq<Part>, reg: set<Proc>, id: MembId, j: int, s: Groups, counts: seq<int>)
    requires Together(ls, reg, id) && !Subtractive(ls) && 0 <= j < |ls| && Inv(s) && SameViews(s, ls[j].leader)
    requires |counts| == |ls| && forall i :: 0 <= i < |counts| ==> 1 <= counts[i]
    ensures var ts := Lists(ls, reg, id);
            D.Starts(X.Exchange(Sizes(ts), counts, |reg|), Leaders(ts, s.me), C.Gathering(Now(s, reg, id, ls[j]), [], false, 0))
  {
    hide Inv, Now, InOrder, PartOK;
    var ts := Lists(ls, reg, id);
    forall i | 0 <= i < |ls| ensures ts[i] != [] && InOrder(ls[0].leader.conf, ts[i]) && Leaders(ts, s.me)[i] in ls[0].leader.conf {
      LeadOK(ls, reg, id, i);
      InConf(ls[0].leader.conf, ts[i]);
    }
    SizesSum(ls[0].leader.conf, ts);
    DaemonsAre(ls, reg, id);
    LeadOK(ls, reg, id, j);
    NowOK(s, ls[j], reg, id);
    InSynced(Now(s, reg, id, ls[j]));
  }

  // ------------------------------------------------------------------ all of the way

  // Where a daemon of set j ends: at once, or after the exchange of all sets, the
  // messages of the others taken in in some order.
  ghost function Ends(ls: seq<Part>, reg: set<Proc>, id: MembId, j: int, s: Groups, order: seq<int>): Groups
    requires 0 <= j < |ls| && forall x :: 0 <= x < |order| ==> 0 <= order[x] < |ls|
  {
    var t := Now(s, reg, id, ls[j]);
    if t.phase == GOP then t else Gathered(t, Taken(Says(ls, reg, id), order))
  }

  // Every regular membership, whatever synced sets it is made of: all daemons are
  // in GOP again in the end with one view of the groups, and the membership is
  // their synced set.
  lemma {:induction false} MembershipAgreement(ls: seq<Part>, reg: set<Proc>, id: MembId,
                                               j: int, s: Groups, order: seq<int>, k: int, t: Groups, order': seq<int>, n: Name)
    requires Together(ls, reg, id) && 0 <= j < |ls| && 0 <= k < |ls|
    requires Inv(s) && SameViews(s, ls[j].leader) && Others(order, |ls|, j)
    requires Inv(t) && SameViews(t, ls[k].leader) && Others(order', |ls|, k)
    requires !Subtractive(ls) ==> NoUnseenMerge(Says(ls, reg, id))
    ensures var a, b := Ends(ls, reg, id, j, s, order), Ends(ls, reg, id, k, t, order');
            && a.phase == GOP && SameView(a, b, n) && forall p :: p in a.synced <==> p in reg
  {
    hide Inv, Now, Whole, Together, Alike, Gathered, Gatherer, NoUnseenMerge, InOrder, Lead;
    if Subtractive(ls) {
      OneSet(ls, reg, id, s);
      OneSet(ls, reg, id, t);
      AlikeBack(Now(s, reg, id, ls[0]), Now(t, reg, id, ls[0]), Lead(ls, reg, id, 0), n);
    } else {
      SeveralSets(ls, reg, id, j, s, order);
      SeveralSets(ls, reg, id, k, t, order');
      GathererInWorld(Says(ls, reg, id), Now(s, reg, id, ls[j]), j, order, Now(t, reg, id, ls[k]), k, order', n);
      forall p ensures InWorld(Says(ls, reg, id), p) <==> p in reg { WorldIsReg(ls, reg, id, p); }
    }
  }

  lemma {:induction false} AlikeBack(a: Groups, b: Groups, c: Groups, n: Name)
    requires SameViews(a, c) && SameViews(b, c)
    ensures SameView(a, b, n)
  {
    assert n in a.groups <==> n in a.groups.Keys;
    assert n in b.groups <==> n in b.groups.Keys;
  }

  lemma {:induction false} WorldIsReg(ls: seq<Part>, reg: set<Proc>, id: MembId, p: Proc)
    requires Together(ls, reg, id)
    ensures InWorld(Says(ls, reg, id), p) <==> p in reg
  {
    hide Inv, Lead, PartOK;
    var w := Says(ls, reg, id);
    if InWorld(w, p) {
      var i :| 0 <= i < |w| && p in w[i].procs;
      assert p in Lead(ls, reg, id, i).synced;
    }
    if p in reg {
      var i :| 0 <= i < |ls| && p in Lead(ls, reg, id, i).synced;
      assert p in w[i].procs;
    }
  }

  // And so it is when the next transitional membership comes: the synced set is
  // that membership, as the next regular one needs it.
  lemma {:induction false} NextTransitional(s: Groups, trans: set<Proc>, id: MembId)
    requires s.phase == GOP && (forall p :: p in s.synced <==> p in s.reg) && trans <= s.reg
    ensures var t := Trans(s, trans, id); t.phase == GTRANS && t.trans == trans && forall p :: p in t.synced <==> p in trans
  {
    hide TransGroup, Keep;
    KeepHolds(s.synced, trans);
  }
}
