/** The hypothesis of LastWriterWins on re-emissions cannot be dropped. */
module StaleReemission {
  import opened Variants
  import opened Property
  import opened Resolution
  import opened Overhearing
  import opened Convergence

  predicate AllSubscribed(s: Network) {
    forall p | 0 <= p < |s.props| :: s.props[p].subscribed
  }

  /** Provider p sets v twice (the second time only its intention changes), provider q sets w,
      p overhears w and re-emits v with the older stamp, and sets v once more. */
  function Story(p: nat, q: nat, v: Variant, w: Variant, t: nat): seq<Action> {
    [SetValue(p, v, t + 1), SetValue(p, v, t + 2), SetValue(q, w, t + 3), Deliver(q, p),
     SetValue(p, v, t + 5)]
  }

  ghost predicate Tells(s: Network, a: Action, t: Network) {
    WellFormed(s) && Enabled(s, a) && t == Step(s, a)
  }

  lemma NewValueSpeaks(s: Network, t: Network, p: nat, v: Variant, now: nat)
    requires Sound(s) && Tells(s, SetValue(p, v, now), t)
    requires s.props[p].subscribed && v != s.props[p].value
    ensures Sound(t) && t.clock == now
    ensures Speaks(s, t, p, State(v, now, v, now, false, true), [Signal(Pack(v), now)])
  {
    StepIsSound(s, SetValue(p, v, now));
    SettingSpeaks(s, p, v, now);
  }

  lemma SameValueIsSilent(s: Network, t: Network, p: nat, now: nat)
    requires Sound(s) && p < |s.props| && !s.props[p].overheard
    requires Tells(s, SetValue(p, s.props[p].value, now), t)
    ensures Sound(t) && t.clock == now
    ensures Speaks(s, t, p, s.props[p].(timestamp := now), [])
  {
    StepIsSound(s, SetValue(p, s.props[p].value, now));
    SettingSpeaks(s, p, s.props[p].value, now);
  }

  /** What client c will have cached for provider x. */
  function Belief(s: Network, c: nat, x: nat): TimedValue
    requires WellFormed(s) && c < |s.caches| && x < |s.props|
  {
    Eventually(s.chans[x][|s.props| + c], s.caches[c][x])
  }

  lemma RevisedByMore(ms: seq<Signal>, out: seq<Signal>, cached: TimedValue)
    ensures Eventually(ms + out, cached) == Eventually(out, Eventually(ms, cached))
  {
  }

  lemma SpeakingRevises(s: Network, t: Network, p: nat, x: State, ms: seq<Signal>, c: nat, i: nat)
    requires WellFormed(s) && p < |s.props| && Speaks(s, t, p, x, ms) && c < |s.caches| && i < |s.props|
    ensures Belief(t, c, i) == if i == p then Eventually(ms, Belief(s, c, i)) else Belief(s, c, i)
  {
    var r := |s.props| + c;
    assert t.chans[i][r] == if i == p then s.chans[i][r] + ms else s.chans[i][r];
    RevisedByMore(s.chans[i][r], ms, s.caches[c][i]);
  }

  lemma SpeakingRevisesBelief(s: Network, t: Network, p: nat, x: State, ms: seq<Signal>, c: nat)
    requires WellFormed(s) && p < |s.props| && Speaks(s, t, p, x, ms) && c < |s.caches|
    ensures Belief(t, c, p) == Eventually(ms, Belief(s, c, p))
    ensures forall i | 0 <= i < |s.props| && i != p :: Belief(t, c, i) == Belief(s, c, i)
  {
    SpeakingRevises(s, t, p, x, ms, c, p);
    forall i | 0 <= i < |s.props| && i != p
      ensures Belief(t, c, i) == Belief(s, c, i)
    {
      SpeakingRevises(s, t, p, x, ms, c, i);
    }
  }

  ghost predicate Bystanders(s: Network, p: nat, q: nat, t: nat) {
    forall x | 0 <= x < |s.props| && x != p && x != q :: s.props[x].timestamp <= t
  }

  /** Client c ends up with w from provider q as the newest value of all. */
  ghost predicate Believes(s: Network, q: nat, w: Variant, t: nat, c: nat)
    requires WellFormed(s) && q < |s.props| && c < |s.caches|
  {
    && Belief(s, c, q) == TimedValue(w, t + 3)
    && forall x | 0 <= x < |s.props| && x != q :: Belief(s, c, x).time <= t + 2
  }

  /** After the first three steps: p owes stamp t + 2, and w is on its way to p. */
  ghost predicate Warned(s: Network, p: nat, q: nat, v: Variant, w: Variant, t: nat, c: nat) {
    && WellFormed(s) && p < |s.props| && q < |s.props| && p != q && c < |s.caches| && v != w
    && s.props[p] == State(v, t + 2, v, t + 1, false, true)
    && s.props[q] == State(w, t + 3, w, t + 3, false, true)
    && Bystanders(s, p, q, t) && Believes(s, q, w, t, c)
    && s.chans[q][p] == [Signal(Pack(w), t + 3)]
  }

  /** The last write of p, stamped t + 5, is unknown to everybody and stays so: p announced t + 2,
      q announced w at t + 3, and nothing in transit can make p speak up again. */
  ghost predicate Lost(s: Network, p: nat, q: nat, v: Variant, w: Variant, t: nat, c: nat) {
    && WellFormed(s) && p < |s.props| && q < |s.props| && p != q && c < |s.caches|
    && s.props[p] == State(v, t + 5, v, t + 2, false, true)
    && s.props[q] == State(w, t + 3, w, t + 3, false, true)
    && Bystanders(s, p, q, t) && Believes(s, q, w, t, c)
    && s.chans[q][p] == []
  }

  lemma ThreeTurnsWarn(s0: Network, s1: Network, s2: Network, s3: Network,
                       p: nat, q: nat, v: Variant, w: Variant, t: nat, c: nat)
    requires WellFormed(s0) && Drained(s0)
    requires p < |s0.props| && q < |s0.props| && p != q && c < |s0.caches| && v != w
    requires forall x | 0 <= x < |s0.props| :: s0.props[x].timestamp <= t && Belief(s0, c, x).time <= t
    requires Speaks(s0, s1, p, State(v, t + 1, v, t + 1, false, true), [Signal(Pack(v), t + 1)])
    requires Speaks(s1, s2, p, State(v, t + 2, v, t + 1, false, true), [])
    requires Speaks(s2, s3, q, State(w, t + 3, w, t + 3, false, true), [Signal(Pack(w), t + 3)])
    ensures Warned(s3, p, q, v, w, t, c)
  {
    SpeakingRevisesBelief(s0, s1, p, s1.props[p], [Signal(Pack(v), t + 1)], c);
    SpeakingRevisesBelief(s1, s2, p, s2.props[p], [], c);
    SpeakingRevisesBelief(s2, s3, q, s3.props[q], [Signal(Pack(w), t + 3)], c);
    assert s0.chans[q][p] == [] && s1.chans[q][p] == [] && s2.chans[q][p] == [];
  }

  lemma WarnedReemitsStale(s: Network, u: Network, p: nat, q: nat, v: Variant, w: Variant, t: nat, c: nat)
    requires Sound(s) && Warned(s, p, q, v, w, t, c) && Tells(s, Deliver(q, p), u)
    ensures Sound(u)
    ensures Speaks(Consume(s, q, p), u, p, State(v, t + 2, v, t + 2, false, true), [Signal(Pack(v), t + 2)])
  {
    StepIsSound(s, Deliver(q, p));
    OverhearStep(s.props[p], s.chans[q][p][0]);
    HearingSpeaks(s, q, p);
  }

  lemma TwoTurnsLose(s: Network, u: Network, f: Network,
                     p: nat, q: nat, v: Variant, w: Variant, t: nat, c: nat)
    requires Warned(s, p, q, v, w, t, c)
    requires Speaks(Consume(s, q, p), u, p, State(v, t + 2, v, t + 2, false, true), [Signal(Pack(v), t + 2)])
    requires Speaks(u, f, p, State(v, t + 5, v, t + 2, false, true), [])
    ensures Lost(f, p, q, v, w, t, c)
  {
    var k := Consume(s, q, p);
    assert forall x | 0 <= x < |s.props| :: Belief(k, c, x) == Belief(s, c, x);
    SpeakingRevisesBelief(k, u, p, u.props[p], [Signal(Pack(v), t + 2)], c);
    SpeakingRevisesBelief(u, f, p, f.props[p], [], c);
    assert u.chans[q][p] == k.chans[q][p] == [];
  }

  lemma WarningLosesTheWrite(s: Network, u: Network, f: Network,
                             p: nat, q: nat, v: Variant, w: Variant, t: nat, c: nat)
    requires Sound(s) && Warned(s, p, q, v, w, t, c)
    requires Tells(s, Deliver(q, p), u) && Tells(u, SetValue(p, v, t + 5), f)
    ensures Sound(f) && Lost(f, p, q, v, w, t, c)
  {
    WarnedReemitsStale(s, u, p, q, v, w, t, c);
    SameValueIsSilent(u, f, p, t + 5);
    TwoTurnsLose(s, u, f, p, q, v, w, t, c);
  }

  /** The network s goes through the story. */
  ghost predicate Told(ss: seq<Network>, p: nat, q: nat, v: Variant, w: Variant) {
    && |ss| >= 6 && WellFormed(ss[0]) && p < |ss[0].props| && q < |ss[0].props| && p != q
    && v != w && v != ss[0].props[p].value && w != ss[0].props[q].value
    && AllSubscribed(ss[0]) && Drained(ss[0]) && Sound(ss[0])
    && forall i | 0 <= i < 5 :: Tells(ss[i], Story(p, q, v, w, ss[0].clock)[i], ss[i + 1])
  }

  lemma FirstTurn(ss: seq<Network>, p: nat, q: nat, v: Variant, w: Variant)
    requires Told(ss, p, q, v, w)
    ensures var t := ss[0].clock;
      Sound(ss[1]) && Speaks(ss[0], ss[1], p, State(v, t + 1, v, t + 1, false, true), [Signal(Pack(v), t + 1)])
    ensures |ss[1].props| == |ss[0].props| && ss[1].props[q] == ss[0].props[q]
    ensures ss[1].props[p] == State(v, ss[0].clock + 1, v, ss[0].clock + 1, false, true)
  {
    var t := ss[0].clock;
    assert Tells(ss[0], Story(p, q, v, w, t)[0], ss[1]);
    NewValueSpeaks(ss[0], ss[1], p, v, t + 1);
  }

  lemma SecondTurn(ss: seq<Network>, p: nat, q: nat, v: Variant, w: Variant)
    requires Told(ss, p, q, v, w) && Sound(ss[1])
    requires p < |ss[1].props| && ss[1].props[p] == State(v, ss[0].clock + 1, v, ss[0].clock + 1, false, true)
    requires q < |ss[1].props| && ss[1].props[q] == ss[0].props[q]
    ensures var t := ss[0].clock;
      Sound(ss[2]) && Speaks(ss[1], ss[2], p, State(v, t + 2, v, t + 1, false, true), [])
    ensures q < |ss[2].props| && ss[2].props[q] == ss[0].props[q]
  {
    var t := ss[0].clock;
    assert Tells(ss[1], Story(p, q, v, w, t)[1], ss[2]);
    SameValueIsSilent(ss[1], ss[2], p, t + 2);
  }

  lemma ThirdTurn(ss: seq<Network>, p: nat, q: nat, v: Variant, w: Variant)
    requires Told(ss, p, q, v, w) && Sound(ss[2])
    requires q < |ss[2].props| && ss[2].props[q].subscribed && ss[2].props[q].value != w
    ensures var t := ss[0].clock;
      Sound(ss[3]) && Speaks(ss[2], ss[3], q, State(w, t + 3, w, t + 3, false, true), [Signal(Pack(w), t + 3)])
  {
    var t := ss[0].clock;
    assert Tells(ss[2], Story(p, q, v, w, t)[2], ss[3]);
    NewValueSpeaks(ss[2], ss[3], q, w, t + 3);
  }

  lemma LastTurns(ss: seq<Network>, p: nat, q: nat, v: Variant, w: Variant, c: nat)
    requires Told(ss, p, q, v, w) && Sound(ss[3])
    requires Warned(ss[3], p, q, v, w, ss[0].clock, c)
    ensures Sound(ss[5]) && Lost(ss[5], p, q, v, w, ss[0].clock, c)
  {
    var t := ss[0].clock;
    assert Tells(ss[3], Story(p, q, v, w, t)[3], ss[4]) && Tells(ss[4], Story(p, q, v, w, t)[4], ss[5]);
    WarningLosesTheWrite(ss[3], ss[4], ss[5], p, q, v, w, t, c);
  }

  lemma BeliefsAreOld(s: Network, c: nat)
    requires Converging(s) && c < |s.caches| && SubscribedToAll(s, c)
    ensures forall x | 0 <= x < |s.props| :: s.props[x].timestamp <= s.clock && Belief(s, c, x).time <= s.clock
  {
    forall x | 0 <= x < |s.props|
      ensures Belief(s, c, x).time <= s.clock
    {
      assert SubscribedTo(s, c, x);
      assert Known(s.chans[x][|s.props| + c], s.caches[c][x], s.props[x]);
    }
  }

  lemma StoryLosesTheWrite(ss: seq<Network>, p: nat, q: nat, v: Variant, w: Variant, c: nat)
    requires Told(ss, p, q, v, w) && Converging(ss[0])
    requires c < |ss[0].caches| && SubscribedToAll(ss[0], c)
    ensures Sound(ss[5]) && Lost(ss[5], p, q, v, w, ss[0].clock, c)
  {
    hide Told, Speaks, Tells, Warned, Lost, Belief, Sound, Converging, SubscribedToAll, Drained, WellFormed;
    StoryBegins(ss, p, q, v, w);
    BeliefsAreOld(ss[0], c);
    FirstTurn(ss, p, q, v, w);
    SecondTurn(ss, p, q, v, w);
    ThirdTurn(ss, p, q, v, w);
    ThreeTurnsWarn(ss[0], ss[1], ss[2], ss[3], p, q, v, w, ss[0].clock, c);
    LastTurns(ss, p, q, v, w, c);
  }

  lemma StoryBegins(ss: seq<Network>, p: nat, q: nat, v: Variant, w: Variant)
    requires Told(ss, p, q, v, w)
    ensures |ss| >= 6 && WellFormed(ss[0]) && Drained(ss[0]) && p < |ss[0].props| && q < |ss[0].props|
    ensures p != q && v != w && ss[0].props[q].subscribed && ss[0].props[q].value != w
  {
  }

  lemma ReadingKeepsLost(s: Network, u: Network, p: nat, q: nat, v: Variant, w: Variant, t: nat, c: nat, a: Action)
    requires Lost(s, p, q, v, w, t, c) && Tells(s, a, u) && a.Deliver? && a.r >= |s.props|
    ensures Lost(u, p, q, v, w, t, c)
  {
    assert forall x | 0 <= x < |s.props| :: Belief(u, c, x) == Belief(s, c, x);
  }

  /** Nothing that is still in transit makes p or q react. */
  lemma NobodyReacts(s: Network, p: nat, q: nat, v: Variant, w: Variant, t: nat, c: nat, i: nat, r: nat)
    requires Sound(s) && Lost(s, p, q, v, w, t, c) && Enabled(s, Deliver(i, r)) && r < |s.props|
    ensures r == p || r == q ==> Overhear(s.props[r], s.chans[i][r][0]) == (s.props[r], [])
    ensures var (x, out) := Overhear(s.props[r], s.chans[i][r][0]);
      && x.timestamp == s.props[r].timestamp && |out| <= 1
      && (out != [] ==> out[0].time <= x.timestamp)
  {
    var m := s.chans[i][r][0];
    assert NotAfter(s.chans[i][r], s.props[i].emittedTimestamp);
    assert m in s.chans[i][r];
    assert Consistent(s.props[i]) && Consistent(s.props[r]);
    OverhearStep(s.props[r], m);
  }

  /** At most one more announcement leaves a client believing it, or what it believed. */
  lemma OneMoreBelief(out: seq<Signal>, b: TimedValue)
    requires |out| <= 1
    ensures out == [] ==> Eventually(out, b) == b
    ensures out != [] ==> Eventually(out, b).time == out[0].time
  {
  }

  lemma TurnKeepsLost(s: Network, k: Network, u: Network, p: nat, q: nat, v: Variant, w: Variant,
                      t: nat, c: nat, r: nat, x: State, out: seq<Signal>)
    requires Lost(s, p, q, v, w, t, c) && r < |s.props|
    requires WellFormed(k) && k.props == s.props && k.caches == s.caches && k.chans[q][p] == []
    requires forall i | 0 <= i < |s.props| :: Belief(k, c, i) == Belief(s, c, i)
    requires Speaks(k, u, r, x, out)
    requires r == p || r == q ==> x == s.props[r] && out == []
    requires x.timestamp == s.props[r].timestamp && |out| <= 1
    requires out != [] ==> out[0].time <= x.timestamp
    ensures Lost(u, p, q, v, w, t, c)
  {
    hide Eventually;
    SpeakingRevisesBelief(k, u, r, x, out, c);
    OneMoreBelief(out, Belief(k, c, r));
    hide Belief;
    assert u.chans[q][p] == if q == r then k.chans[q][p] + out else k.chans[q][p];
  }

  lemma HearingKeepsLost(s: Network, u: Network, p: nat, q: nat, v: Variant, w: Variant, t: nat, c: nat, a: Action)
    requires Sound(s) && Lost(s, p, q, v, w, t, c) && Tells(s, a, u) && a.Deliver? && a.r < |s.props|
    ensures Lost(u, p, q, v, w, t, c)
  {
    NobodyReacts(s, p, q, v, w, t, c, a.p, a.r);
    HearingSpeaks(s, a.p, a.r);
    var (x, out) := Overhear(s.props[a.r], s.chans[a.p][a.r][0]);
    TurnKeepsLost(s, Consume(s, a.p, a.r), u, p, q, v, w, t, c, a.r, x, out);
  }

  lemma DeliveryKeepsLost(s: Network, u: Network, p: nat, q: nat, v: Variant, w: Variant, t: nat, c: nat, a: Action)
    requires Sound(s) && Lost(s, p, q, v, w, t, c) && Tells(s, a, u) && a.Deliver?
    ensures Sound(u) && Lost(u, p, q, v, w, t, c) && u.props[p].value == v
  {
    StepIsSound(s, a);
    hide Sound, Step, WellFormed, Belief;
    if a.r < |s.props| {
      HearingKeepsLost(s, u, p, q, v, w, t, c, a);
    } else {
      ReadingKeepsLost(s, u, p, q, v, w, t, c, a);
    }
  }

  /** When the story has been told in a drained network, then however the network drains afterwards,
      the client resolves to w although p wrote v last. */
  lemma {:induction false} StaleReemissionLosesTheLastWrite(
      ss: seq<Network>, acts: seq<Action>, p: nat, q: nat, v: Variant, w: Variant, c: nat)
    requires Steps(ss, acts) && |acts| >= 5
    requires Converging(ss[0]) && Drained(ss[0]) && AllSubscribed(ss[0])
    requires p < |ss[0].props| && q < |ss[0].props| && p != q
    requires v != w && v != ss[0].props[p].value && w != ss[0].props[q].value
    requires v != Null && w != Null
    requires c < |ss[0].caches| && SubscribedToAll(ss[0], c)
    requires acts[..5] == Story(p, q, v, w, ss[0].clock)
    requires forall i | 5 <= i < |acts| :: acts[i].Deliver?
    ensures var s := ss[|acts|];
      && Sound(s) && Lost(s, p, q, v, w, ss[0].clock, c)
      && LastWriter(s, p) && s.props[p].value == v
      && (Drained(s) ==> Resolve(s.caches[c]) == w)
    decreases |acts|
  {
    var n, t := |acts|, ss[0].clock;
    if n == 5 {
      hide Step, Enabled, Story, Lost, LastWriter;
      forall i | 0 <= i < 5
        ensures Tells(ss[i], Story(p, q, v, w, t)[i], ss[i + 1])
      {
        assert acts[i] == acts[..5][i];
      }
      assert Told(ss, p, q, v, w);
      hide Told, Tells;
      StoryLosesTheWrite(ss, p, q, v, w, c);
      EndOfStory(ss[n], p, q, v, w, t, c);
    } else {
      assert acts[..n - 1][..5] == acts[..5];
      assert Tells(ss[n - 1], acts[n - 1], ss[n]);
      hide Tells, Lost, Sound, Converging, Drained, AllSubscribed, SubscribedToAll, WellFormed, Story, LastWriter, Step;
      StaleReemissionLosesTheLastWrite(ss[..n], acts[..n - 1], p, q, v, w, c);
      DeliveryKeepsLost(ss[n - 1], ss[n], p, q, v, w, t, c, acts[n - 1]);
    }
    LostMeansLost(ss[n], p, q, v, w, t, c);
  }

  lemma EndOfStory(s: Network, p: nat, q: nat, v: Variant, w: Variant, t: nat, c: nat)
    requires Lost(s, p, q, v, w, t, c)
    ensures WellFormed(s) && p < |s.props| && s.props[p].value == v && c < |s.caches|
  {
  }

  lemma LostMeansLost(s: Network, p: nat, q: nat, v: Variant, w: Variant, t: nat, c: nat)
    requires Lost(s, p, q, v, w, t, c) && v != Null && w != Null
    ensures LastWriter(s, p)
    ensures Drained(s) ==> Resolve(s.caches[c]) == w
  {
    if Drained(s) {
      forall x | 0 <= x < |s.props|
        ensures Belief(s, c, x) == s.caches[c][x]
      {
        assert s.chans[x][|s.props| + c] == [];
      }
      NewestWins(s.caches[c], q);
    }
  }
}
