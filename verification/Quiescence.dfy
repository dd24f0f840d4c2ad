/** Overhearing cannot chatter forever: without further setValue calls, the network drains. */
module Quiescence {
  import opened Property
  import opened Overhearing

  function InTransit(qs: seq<seq<Signal>>): nat {
    if |qs| == 0 then 0 else InTransit(qs[..|qs| - 1]) + |qs[|qs| - 1]|
  }

  function AllInTransit(cs: seq<seq<seq<Signal>>>): nat {
    if |cs| == 0 then 0 else AllInTransit(cs[..|cs| - 1]) + InTransit(cs[|cs| - 1])
  }

  function TotalDebt(ps: seq<State>): nat {
    if |ps| == 0 then 0 else TotalDebt(ps[..|ps| - 1]) + Debt(ps[|ps| - 1])
  }

  /** An upper bound on the deliveries that can still happen if nobody sets a value. */
  function Load(s: Network): nat {
    AllInTransit(s.chans) + s.Receivers() * TotalDebt(s.props)
  }

  lemma {:induction false} InTransitUpdate(qs: seq<seq<Signal>>, i: nat, q: seq<Signal>)
    requires i < |qs|
    ensures InTransit(qs[i := q]) + |qs[i]| == InTransit(qs) + |q|
  {
    var n := |qs| - 1;
    if i < n {
      assert qs[i := q][..n] == qs[..n][i := q];
      InTransitUpdate(qs[..n], i, q);
    } else {
      assert qs[i := q][..n] == qs[..n];
    }
  }

  lemma {:induction false} AllInTransitUpdate(cs: seq<seq<seq<Signal>>>, i: nat, qs: seq<seq<Signal>>)
    requires i < |cs|
    ensures AllInTransit(cs[i := qs]) + InTransit(cs[i]) == AllInTransit(cs) + InTransit(qs)
  {
    var n := |cs| - 1;
    if i < n {
      assert cs[i := qs][..n] == cs[..n][i := qs];
      AllInTransitUpdate(cs[..n], i, qs);
    } else {
      assert cs[i := qs][..n] == cs[..n];
    }
  }

  lemma {:induction false} TotalDebtUpdate(ps: seq<State>, i: nat, p: State)
    requires i < |ps|
    ensures TotalDebt(ps[i := p]) + Debt(ps[i]) == TotalDebt(ps) + Debt(p)
  {
    var n := |ps| - 1;
    if i < n {
      assert ps[i := p][..n] == ps[..n][i := p];
      TotalDebtUpdate(ps[..n], i, p);
    } else {
      assert ps[i := p][..n] == ps[..n];
    }
  }

  lemma {:induction false} InTransitGrows(qs: seq<seq<Signal>>, rs: seq<seq<Signal>>, out: seq<Signal>)
    requires |rs| == |qs| && forall i | 0 <= i < |qs| :: rs[i] == qs[i] + out
    ensures InTransit(rs) == InTransit(qs) + |qs| * |out|
  {
    if |qs| > 0 {
      var n := |qs| - 1;
      InTransitGrows(qs[..n], rs[..n], out);
      assert rs[n] == qs[n] + out;
      assert |qs| * |out| == n * |out| + |out|;
    }
  }

  /** A broadcast puts one copy per receiver in transit. */
  lemma BroadcastLoad(cs: seq<seq<seq<Signal>>>, p: nat, out: seq<Signal>)
    requires p < |cs|
    ensures AllInTransit(Broadcast(cs, p, out)) == AllInTransit(cs) + |cs[p]| * |out|
  {
    var b := Broadcast(cs, p, out);
    InTransitGrows(cs[p], b[p], out);
    AllInTransitUpdate(cs, p, b[p]);
    assert cs[p := b[p]] == b;
  }

  lemma ConsumeLoad(s: Network, p: nat, r: nat)
    requires WellFormed(s) && Enabled(s, Deliver(p, r))
    ensures Load(Consume(s, p, r)) + 1 == Load(s)
  {
    InTransitUpdate(s.chans[p], r, s.chans[p][r][1..]);
    AllInTransitUpdate(s.chans, p, s.chans[p][r := s.chans[p][r][1..]]);
  }

  lemma AdvanceLoad(s: Network, r: nat, t: State, out: seq<Signal>)
    requires WellFormed(s) && r < |s.props|
    ensures Load(Advance(s, r, t, out)) ==
      AllInTransit(s.chans) + s.Receivers() * |out| + s.Receivers() * TotalDebt(s.props[r := t])
  {
    BroadcastLoad(s.chans, r, out);
  }

  lemma OverhearLoad(s: Network, r: nat, m: Signal)
    requires Sound(s) && r < |s.props|
    ensures var (t, out) := Overhear(s.props[r], m);
      && Load(Advance(s, r, t, out)) <= Load(s)
      && |out| + TotalDebt(s.props[r := t]) <= TotalDebt(s.props)
  {
    var n, d := s.Receivers(), TotalDebt(s.props);
    var (t, out) := Overhear(s.props[r], m);
    assert |out| + TotalDebt(s.props[r := t]) <= d by {
      OverhearStep(s.props[r], m);
      TotalDebtUpdate(s.props, r, t);
    }
    AdvanceLoad(s, r, t, out);
    Distribute(n, |out|, TotalDebt(s.props[r := t]), d);
  }

  lemma Distribute(n: nat, a: nat, b: nat, c: nat)
    requires a + b <= c
    ensures n * a + n * b <= n * c
  {
    assert n * a + n * b == n * (a + b);
    MulMonotone(n, a + b, c);
  }

  lemma MulMonotone(n: nat, a: nat, b: nat)
    requires a <= b
    ensures n * a <= n * b
  {
  }

  lemma AdvanceEmissions(s: Network, r: nat, t: State, out: seq<Signal>)
    requires WellFormed(s) && r < |s.props| && |out| + TotalDebt(s.props[r := t]) <= TotalDebt(s.props)
    ensures var u := Advance(s, r, t, out);
      Sum(u.sent) + TotalDebt(u.props) <= Sum(s.sent) + TotalDebt(s.props)
  {
    SumUpdate(s.sent, r, s.sent[r] + |out|);
  }

  lemma HearingSpendsLoad(s: Network, p: nat, r: nat)
    requires Sound(s) && Enabled(s, Deliver(p, r)) && r < |s.props|
    ensures var t := Step(s, Deliver(p, r));
      && Load(t) < Load(s)
      && Sum(t.sent) + TotalDebt(t.props) <= Sum(s.sent) + TotalDebt(s.props)
  {
    var k, m := Consume(s, p, r), s.chans[p][r][0];
    assert Sound(k) && Load(k) < Load(s) by {
      ConsumeLoad(s, p, r);
      ConsumeIsSound(s, p, r);
    }
    OverhearLoad(k, r, m);
    var (x, out) := Overhear(k.props[r], m);
    AdvanceEmissions(k, r, x, out);
    assert Step(s, Deliver(p, r)) == Advance(k, r, x, out);
  }

  lemma DeliverySpendsLoad(s: Network, a: Action)
    requires Sound(s) && Enabled(s, a) && a.Deliver?
    ensures Load(Step(s, a)) < Load(s)
    ensures Sum(Step(s, a).sent) + TotalDebt(Step(s, a).props) <= Sum(s.sent) + TotalDebt(s.props)
  {
    if a.r < |s.props| {
      HearingSpendsLoad(s, a.p, a.r);
    } else {
      ConsumeLoad(s, a.p, a.r);
    }
  }

  function Sum(ns: seq<nat>): nat {
    if |ns| == 0 then 0 else Sum(ns[..|ns| - 1]) + ns[|ns| - 1]
  }

  lemma {:induction false} SumUpdate(ns: seq<nat>, i: nat, n: nat)
    requires i < |ns|
    ensures Sum(ns[i := n]) + ns[i] == Sum(ns) + n
  {
    var l := |ns| - 1;
    if i < l {
      assert ns[i := n][..l] == ns[..l][i := n];
      SumUpdate(ns[..l], i, n);
    } else {
      assert ns[i := n][..l] == ns[..l];
    }
  }

  lemma {:induction false} TotalDebtBounded(ps: seq<State>)
    ensures TotalDebt(ps) <= |ps|
  {
    if |ps| > 0 {
      TotalDebtBounded(ps[..|ps| - 1]);
    }
  }

  /** From any sound state, a run of deliveries only is no longer than the load, whatever the order
      of delivery; it makes no more emissions than there are owed ones, at most one per provider. */
  lemma {:induction false} ChatterEnds(ss: seq<Network>, acts: seq<Action>)
    requires Steps(ss, acts) && Sound(ss[0])
    requires forall i | 0 <= i < |acts| :: acts[i].Deliver?
    ensures var s, t := ss[0], ss[|acts|];
      && Sound(t) && |acts| + Load(t) <= Load(s)
      && Sum(t.sent) + TotalDebt(t.props) <= Sum(s.sent) + TotalDebt(s.props)
      && Sum(t.sent) <= Sum(s.sent) + |s.props|
    decreases |acts|
  {
    TotalDebtBounded(ss[0].props);
    if |acts| > 0 {
      var n := |acts| - 1;
      ChatterEnds(ss[..n + 1], acts[..n]);
      assert acts[n].Deliver?;
      DeliverySpendsLoad(ss[n], acts[n]);
      StepIsSound(ss[n], acts[n]);
    }
  }

  /** Every sound network can be drained by deliveries alone. */
  lemma {:induction false} EveryNetworkDrains(s: Network) returns (ss: seq<Network>, acts: seq<Action>)
    requires Sound(s)
    ensures Steps(ss, acts) && ss[0] == s && forall i | 0 <= i < |acts| :: acts[i].Deliver?
    ensures WellFormed(ss[|acts|]) && Drained(ss[|acts|])
    decreases Load(s)
  {
    if Drained(s) {
      ss, acts := [s], [];
    } else {
      var p: nat, r: nat :| p < |s.props| && r < s.Receivers() && s.chans[p][r] != [];
      hide Step, Sound, Load, Drained;
      var a := Deliver(p, r);
      var t := Step(s, a);
      DeliverySpendsLoad(s, a);
      StepIsSound(s, a);
      var tt, bs := EveryNetworkDrains(t);
      OneStep(s, a);
      StepsConcat([s, t], [a], tt, bs);
      ss, acts := [s, t] + tt[1..], [a] + bs;
    }
  }

  lemma OneStep(s: Network, a: Action)
    requires WellFormed(s) && Enabled(s, a)
    ensures Steps([s, Step(s, a)], [a])
  {
  }
}
