/** A provider that emits while nobody is subscribed to it can lose its last write, too. */
module UnheardWrite {
  import opened Variants
  import opened Property
  import opened Resolution
  import opened Overhearing
  import opened Convergence

  /** Two providers and one client; only the client's channels may hold signals. */
  function Pair(x: State, y: State, toClient: seq<seq<Signal>>, cache: seq<TimedValue>, joined: set<(nat, nat)>,
                clock: nat, sets: seq<nat>): Network
    requires |toClient| == |cache| == |sets| == 2
  {
    Network([x, y], [[[], [], toClient[0]], [[], [], toClient[1]]], [cache], joined, clock, sets, [0, 0])
  }

  /** The first provider sets w, then the second v, both before anybody subscribes; the client joins
      both; then the first sets w again. */
  function Unheard(v: Variant, w: Variant): seq<Action> {
    [SetValue(0, w, 2), SetValue(1, v, 3), Subscribe(0, 2), Subscribe(1, 2), Deliver(0, 2), Deliver(1, 2),
     SetValue(0, w, 4)]
  }

  function UnheardStates(v: Variant, w: Variant): seq<Network> {
    var quiet, unknown := [[], []], [TimedValue(Null, 0), TimedValue(Null, 0)];
    var x, y := State(w, 2, w, 2, false, false), State(v, 3, v, 3, false, false);
    var xs, ys := x.(subscribed := true), y.(subscribed := true);
    var a, b := [Signal(Pack(w), 2)], [Signal(Pack(v), 3)];
    var got := [TimedValue(w, 2), TimedValue(v, 3)];
    [Pair(Fresh(0), Fresh(1), quiet, unknown, {}, 1, [0, 0]),
     Pair(x, Fresh(1), quiet, unknown, {}, 2, [1, 0]),
     Pair(x, y, quiet, unknown, {}, 3, [1, 1]),
     Pair(xs, y, [a, []], unknown, {(0, 2)}, 3, [1, 1]),
     Pair(xs, ys, [a, b], unknown, {(0, 2), (1, 2)}, 3, [1, 1]),
     Pair(xs, ys, [[], b], [got[0], unknown[1]], {(0, 2), (1, 2)}, 3, [1, 1]),
     Pair(xs, ys, quiet, got, {(0, 2), (1, 2)}, 3, [1, 1]),
     Pair(xs.(timestamp := 4), ys, quiet, got, {(0, 2), (1, 2)}, 4, [2, 1])]
  }

  lemma QuietSet(s: Network, p: nat, v: Variant, now: nat)
    requires WellFormed(s) && Enabled(s, SetValue(p, v, now)) && Set(s.props[p], v, now).1 == []
    ensures Step(s, SetValue(p, v, now)) ==
      s.(props := s.props[p := Set(s.props[p], v, now).0], clock := now, sets := s.sets[p := s.sets[p] + 1])
  {
    var t := Step(s, SetValue(p, v, now));
    assert forall r | 0 <= r < |s.chans[p]| :: s.chans[p][r] + [] == s.chans[p][r];
    assert t.chans[p] == s.chans[p];
    assert t.chans == s.chans && t.sent == s.sent;
  }

  lemma UnheardSet(v: Variant, w: Variant, i: nat)
    requires v != w && v != Null && w != Null && i in {0, 1, 6}
    ensures var s, a := UnheardStates(v, w)[i], Unheard(v, w)[i];
      && WellFormed(s) && Enabled(s, a) && UnheardStates(v, w)[i + 1] == Step(s, a)
      && (Harmless(s, a) <==> i != 1)
  {
    var s := UnheardStates(v, w)[i];
    if i == 0 {
      QuietSet(s, 0, w, 2);
    } else if i == 1 {
      QuietSet(s, 1, v, 3);
      assert s.props[0] == State(w, 2, w, 2, false, false);
    } else {
      QuietSet(s, 0, w, 4);
    }
  }

  /** Two networks of a pair are the same if their client channels and the rest are. */
  lemma SamePair(s: Network, t: Network)
    requires |s.chans| == |t.chans| == 2 && |s.caches| == |t.caches| == 1
    requires forall p | 0 <= p < 2 :: |s.chans[p]| == |t.chans[p]| == 3
    requires forall p, r | 0 <= p < 2 && 0 <= r < 3 :: s.chans[p][r] == t.chans[p][r]
    requires s.props == t.props && s.caches[0] == t.caches[0] && s.joined == t.joined && s.clock == t.clock
    requires s.sets == t.sets && s.sent == t.sent
    ensures s == t
  {
    assert s.chans[0] == t.chans[0] && s.chans[1] == t.chans[1];
    assert s.chans == t.chans && s.caches == t.caches;
  }

  lemma UnheardJoin(v: Variant, w: Variant, i: nat)
    requires i in {2, 3}
    ensures var s, a := UnheardStates(v, w)[i], Unheard(v, w)[i];
      && WellFormed(s) && Enabled(s, a) && UnheardStates(v, w)[i + 1] == Step(s, a)
      && (Harmless(s, a) <==> i != 1)
  {
    var s, a := UnheardStates(v, w)[i], Unheard(v, w)[i];
    if i == 2 {
      SamePair(UnheardStates(v, w)[3], Step(s, a));
    } else {
      SamePair(UnheardStates(v, w)[4], Step(s, a));
    }
  }

  lemma UnheardRead(v: Variant, w: Variant, i: nat)
    requires i in {4, 5}
    ensures var s, a := UnheardStates(v, w)[i], Unheard(v, w)[i];
      && WellFormed(s) && Enabled(s, a) && UnheardStates(v, w)[i + 1] == Step(s, a)
      && (Harmless(s, a) <==> i != 1)
  {
    var s, a := UnheardStates(v, w)[i], Unheard(v, w)[i];
    if i == 4 {
      SamePair(UnheardStates(v, w)[5], Step(s, a));
    } else {
      SamePair(UnheardStates(v, w)[6], Step(s, a));
    }
  }

  /** A second provider that sets another value before it has a subscriber is not overheard, so a
      repetition by the first is dropped.  That is the only harmful step of the run, and the client
      settles on the older write. */
  lemma UnheardEmissionLosesTheLastWrite(v: Variant, w: Variant)
    requires v != w && v != Null && w != Null
    ensures var ss, acts := UnheardStates(v, w), Unheard(v, w);
      && Run(ss, acts)
      && (forall i | 0 <= i < 7 :: Harmless(ss[i], acts[i]) <==> i != 1)
      && WellFormed(ss[7]) && Drained(ss[7]) && SubscribedToAll(ss[7], 0)
      && LastWriter(ss[7], 0) && ss[7].props[0].value == w && Resolve(ss[7].caches[0]) == v
  {
    var ss, acts := UnheardStates(v, w), Unheard(v, w);
    forall i | 0 <= i < 7
      ensures WellFormed(ss[i]) && Enabled(ss[i], acts[i]) && ss[i + 1] == Step(ss[i], acts[i])
      ensures Harmless(ss[i], acts[i]) <==> i != 1
    {
      if i in {0, 1, 6} { UnheardSet(v, w, i); } else if i < 4 { UnheardJoin(v, w, i); } else { UnheardRead(v, w, i); }
    }
    hide Step, Harmless;
    UnheardStart(v, w);
    UnheardEnd(v, w);
  }

  lemma UnheardStart(v: Variant, w: Variant)
    ensures Init(UnheardStates(v, w)[0])
    ensures |UnheardStates(v, w)| == 8 && |Unheard(v, w)| == 7
  {
  }

  lemma UnheardEnd(v: Variant, w: Variant)
    requires v != Null && w != Null && v != w
    ensures var s := UnheardStates(v, w)[7];
      && WellFormed(s) && Drained(s) && SubscribedToAll(s, 0)
      && LastWriter(s, 0) && s.props[0].value == w && Resolve(s.caches[0]) == v
  {
    var s := UnheardStates(v, w)[7];
    assert s.caches[0] == [TimedValue(w, 2), TimedValue(v, 3)];
    NewestWins(s.caches[0], 1);
  }
}
