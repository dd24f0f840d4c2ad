/** The story of StaleReemission happens: every constructed network can lose its last write. */
module LostWrite {
  import opened Variants
  import opened Property
  import opened Resolution
  import opened Overhearing
  import opened Quiescence
  import opened Convergence
  import opened StaleReemission

  /** The story can be told from every drained state. */
  lemma StoryHappens(s: Network, p: nat, q: nat, v: Variant, w: Variant) returns (ss: seq<Network>)
    requires Sound(s) && Drained(s) && AllSubscribed(s)
    requires p < |s.props| && q < |s.props| && p != q
    requires v != w && v != s.props[p].value && w != s.props[q].value
    ensures Steps(ss, Story(p, q, v, w, s.clock)) && ss[0] == s
  {
    hide Step, Sound, Set, Overhear;
    var t := s.clock;
    assert WellFormed(s) by { SoundIsWellFormed(s); }
    var s1 := Step(s, SetValue(p, v, t + 1));
    NewValueSpeaks(s, s1, p, v, t + 1);
    var s2 := Step(s1, SetValue(p, v, t + 2));
    SameValueIsSilent(s1, s2, p, t + 2);
    var s3 := Step(s2, SetValue(q, w, t + 3));
    NewValueSpeaks(s2, s3, q, w, t + 3);
    assert s3.chans[q][p] == s2.chans[q][p] + [Signal(Pack(w), t + 3)];
    hide Speaks;
    var s4 := Step(s3, Deliver(q, p));
    DeliveryKeepsClock(s3, q, p);
    var s5 := Step(s4, SetValue(p, v, t + 5));
    ss := [s, s1, s2, s3, s4, s5];
  }

  lemma DeliveryKeepsClock(s: Network, p: nat, r: nat)
    requires WellFormed(s) && Enabled(s, Deliver(p, r))
    ensures Step(s, Deliver(p, r)).clock == s.clock
  {
  }

  lemma SoundIsWellFormed(s: Network)
    requires Sound(s)
    ensures WellFormed(s)
  {
  }

  /** A client subscribes to a provider and gets the answer. */
  lemma JoinOne(s: Network, p: nat, c: nat) returns (ss: seq<Network>)
    requires Sound(s) && Drained(s) && p < |s.props| && c < |s.caches|
    ensures Steps(ss, [Subscribe(p, |s.props| + c), Deliver(p, |s.props| + c)]) && ss[0] == s
    ensures Joins(s, ss[2], p, c)
    ensures forall i | 0 <= i < 2 ::
      var a := [Subscribe(p, |s.props| + c), Deliver(p, |s.props| + c)][i]; Harmless(ss[i], a)
  {
    hide Sound;
    SoundIsWellFormed(s);
    var r := |s.props| + c;
    var t := Step(s, Subscribe(p, r));
    StepIsSound(s, Subscribe(p, r));
    JoinAsked(s, p, r);
    var u := Step(t, Deliver(p, r));
    StepIsSound(t, Deliver(p, r));
    JoinAnswered(t, p, c);
    hide Step;
    ss := [s, t, u];
  }

  lemma JoinAsked(s: Network, p: nat, r: nat)
    requires WellFormed(s) && Drained(s) && Enabled(s, Subscribe(p, r))
    ensures var t := Step(s, Subscribe(p, r));
      && t.props == s.props[p := s.props[p].(subscribed := true)]
      && t.joined == s.joined + {(p, r)}
      && t.chans[p][r] == [Get(s.props[p])] && OnlyWaiting(t, p, r)
  {
  }

  /** At most the channel from p to r holds signals. */
  predicate OnlyWaiting(s: Network, p: nat, r: nat)
    requires WellFormed(s)
  {
    forall q, i | 0 <= q < |s.props| && 0 <= i < s.Receivers() && (q, i) != (p, r) :: s.chans[q][i] == []
  }

  lemma JoinAnswered(t: Network, p: nat, c: nat)
    requires WellFormed(t) && p < |t.props| && c < |t.caches|
    requires |t.chans[p][|t.props| + c]| == 1 && OnlyWaiting(t, p, |t.props| + c)
    ensures var u := Step(t, Deliver(p, |t.props| + c));
      u.props == t.props && u.joined == t.joined && Drained(u)
  {
  }

  /** From s to t nothing happens but that client c joins provider p. */
  ghost predicate Joins(s: Network, t: Network, p: nat, c: nat)
    requires p < |s.props|
  {
    && Sound(t) && Drained(t) && |t.caches| == |s.caches|
    && t.props == s.props[p := s.props[p].(subscribed := true)]
    && t.joined == s.joined + {(p, |s.props| + c)}
  }

  /** The subscriptions made when client c of provider p is next, in order of providers. */
  ghost predicate JoinedBefore(s: Network, p: nat, c: nat) {
    && (forall i, j | 0 <= i < |s.props| && 0 <= j < |s.caches| && (i < p || (i == p && j < c)) ::
          SubscribedTo(s, j, i) && s.props[i].subscribed)
    && forall i | 0 <= i < |s.props| :: s.props[i].value == Null
  }

  /** From every constructed network with a client there is a good run after which everybody has
      subscribed to everybody and nothing is in transit. */
  lemma EverybodyJoins(s: Network) returns (ss: seq<Network>, acts: seq<Action>)
    requires Init(s) && |s.caches| > 0
    ensures GoodRun(ss, acts) && ss[0] == s
    ensures Converging(ss[|acts|]) && Drained(ss[|acts|]) && AllSubscribed(ss[|acts|])
    ensures |ss[|acts|].props| == |s.props| && |ss[|acts|].caches| == |s.caches|
    ensures forall c | 0 <= c < |s.caches| :: SubscribedToAll(ss[|acts|], c)
    ensures forall p | 0 <= p < |s.props| :: ss[|acts|].props[p].value == Null
  {
    ss, acts := [s], [];
    EveryRunIsSound(ss, acts, 0);
    var p := 0;
    while p < |s.props|
      invariant p <= |s.props| && Steps(ss, acts) && ss[0] == s && IsGood(ss, acts)
      invariant Sound(ss[|acts|]) && Drained(ss[|acts|]) && JoinedBefore(ss[|acts|], p, 0)
      invariant |ss[|acts|].props| == |s.props| && |ss[|acts|].caches| == |s.caches|
    {
      ss, acts := ProviderIsJoined(ss, acts, p);
      p := p + 1;
    }
    EverybodyJoined(ss[|acts|]);
    GoodRunConverges(ss, acts, |acts|);
  }

  ghost predicate IsGood(ss: seq<Network>, acts: seq<Action>)
    requires Steps(ss, acts)
  {
    forall i | 0 <= i < |acts| :: Harmless(ss[i], acts[i])
  }

  lemma ProviderIsJoined(before: seq<Network>, done: seq<Action>, p: nat) returns (ss: seq<Network>, acts: seq<Action>)
    requires Steps(before, done) && IsGood(before, done)
    requires Sound(before[|done|]) && Drained(before[|done|]) && JoinedBefore(before[|done|], p, 0)
    requires p < |before[|done|].props|
    ensures Steps(ss, acts) && ss[0] == before[0] && IsGood(ss, acts)
    ensures |ss[|acts|].props| == |before[|done|].props| && |ss[|acts|].caches| == |before[|done|].caches|
    ensures Sound(ss[|acts|]) && Drained(ss[|acts|]) && JoinedBefore(ss[|acts|], p + 1, 0)
  {
    hide Harmless, Sound, Drained, Step, Enabled, WellFormed;
    SoundIsWellFormed(before[|done|]);
    ss, acts := before, done;
    var c, m, n := 0, |before[|done|].caches|, |before[|done|].props|;
    while c < m
      invariant c <= m && Steps(ss, acts) && ss[0] == before[0] && IsGood(ss, acts)
      invariant WellFormed(ss[|acts|])
      invariant Sound(ss[|acts|]) && Drained(ss[|acts|]) && JoinedBefore(ss[|acts|], p, c)
      invariant |ss[|acts|].props| == n && |ss[|acts|].caches| == m
    {
      var s := ss[|acts|];
      var tt := JoinOne(s, p, c);
      var bs := [Subscribe(p, n + c), Deliver(p, n + c)];
      SoundIsWellFormed(tt[2]);
      GoodConcat(ss, acts, tt, bs);
      JoinedOneMore(s, tt[2], p, c);
      ss, acts := ss + tt[1..], acts + bs;
      c := c + 1;
    }
    AllJoined(ss[|acts|], p);
  }

  lemma GoodConcat(ss: seq<Network>, acts: seq<Action>, tt: seq<Network>, bs: seq<Action>)
    requires Steps(ss, acts) && Steps(tt, bs) && ss[|acts|] == tt[0] && IsGood(ss, acts) && IsGood(tt, bs)
    ensures Steps(ss + tt[1..], acts + bs) && IsGood(ss + tt[1..], acts + bs)
    ensures (ss + tt[1..])[0] == ss[0] && (ss + tt[1..])[|acts| + |bs|] == tt[|bs|]
  {
    hide Harmless, Step, Enabled, WellFormed;
    StepsConcat(ss, acts, tt, bs);
    forall i | 0 <= i < |acts + bs|
      ensures Harmless((ss + tt[1..])[i], (acts + bs)[i])
    {
      if i >= |acts| {
        assert (ss + tt[1..])[|acts| + (i - |acts|)] == tt[i - |acts|] && (acts + bs)[i] == bs[i - |acts|];
      }
    }
  }

  lemma JoinedOneMore(s: Network, t: Network, p: nat, c: nat)
    requires p < |s.props| && Joins(s, t, p, c) && JoinedBefore(s, p, c)
    ensures JoinedBefore(t, p, c + 1)
  {
    hide Sound, Drained;
    forall i, j | 0 <= i < |t.props| && 0 <= j < |t.caches| && (i < p || (i == p && j < c + 1))
      ensures SubscribedTo(t, j, i) && t.props[i].subscribed
    {
      assert i != p || j != c ==> SubscribedTo(s, j, i);
    }
  }

  lemma AllJoined(s: Network, p: nat)
    requires JoinedBefore(s, p, |s.caches|)
    ensures JoinedBefore(s, p + 1, 0)
  {
  }

  lemma EverybodyJoined(s: Network)
    requires |s.caches| > 0 && JoinedBefore(s, |s.props|, 0)
    ensures AllSubscribed(s) && forall c | 0 <= c < |s.caches| :: SubscribedToAll(s, c)
  {
    forall p | 0 <= p < |s.props| ensures s.props[p].subscribed {
      assert SubscribedTo(s, 0, p);
    }
    forall c, p | 0 <= c < |s.caches| && 0 <= p < |s.props| ensures SubscribedTo(s, c, p) {
    }
  }

  /** Nobody leaves unless by leaving. */
  lemma {:induction false} JoinedForEver(ss: seq<Network>, acts: seq<Action>, i: nat, j: nat)
    requires Steps(ss, acts) && i <= j <= |acts|
    requires forall k | i <= k < j :: acts[k].SetValue? || acts[k].Deliver?
    ensures ss[i].joined == ss[j].joined
    ensures |ss[j].props| == |ss[i].props| && |ss[j].caches| == |ss[i].caches|
  {
    if i < j { JoinedForEver(ss, acts, i, j - 1); }
  }

  /** The story, and then deliveries until nothing is in transit. */
  lemma StoryThenDrain(s: Network, p: nat, q: nat, v: Variant, w: Variant) returns (ss: seq<Network>, acts: seq<Action>)
    requires Sound(s) && Drained(s) && AllSubscribed(s)
    requires p < |s.props| && q < |s.props| && p != q
    requires v != w && v != s.props[p].value && w != s.props[q].value
    ensures Steps(ss, acts) && ss[0] == s && |acts| >= 5 && acts[..5] == Story(p, q, v, w, s.clock)
    ensures forall i | 5 <= i < |acts| :: acts[i].Deliver?
    ensures WellFormed(ss[|acts|]) && Drained(ss[|acts|]) && ss[|acts|].joined == s.joined
    ensures |ss[|acts|].props| == |s.props| && |ss[|acts|].caches| == |s.caches|
  {
    hide Sound, Drained, Step, Enabled, WellFormed, Story, AllSubscribed;
    var ss1 := StoryHappens(s, p, q, v, w);
    var acts1 := Story(p, q, v, w, s.clock);
    StoryLength(p, q, v, w, s.clock);
    TellingIsSound(ss1, acts1, 5);
    var ss2, acts2 := EveryNetworkDrains(ss1[5]);
    StepsConcat(ss1, acts1, ss2, acts2);
    ss, acts := ss1 + ss2[1..], acts1 + acts2;
    assert acts[..5] == acts1;
    assert forall i | 5 <= i < |acts| :: acts[i] == acts2[i - 5];
    assert forall i | 0 <= i < 5 :: acts[i] in acts1;
    JoinedForEver(ss, acts, 0, |acts|);
  }

  /** Every constructed network with two providers and a client has a run that loses the last write
      for good: everything is delivered, p wrote v last, and all clients resolve to w. */
  lemma TheLastWriteCanBeLost(s: Network, p: nat, q: nat, v: Variant, w: Variant)
    returns (ss: seq<Network>, acts: seq<Action>)
    requires Init(s) && p < |s.props| && q < |s.props| && p != q && |s.caches| > 0
    requires v != w && v != Null && w != Null
    ensures Run(ss, acts) && ss[0] == s
    ensures var t := ss[|acts|];
      && WellFormed(t) && Drained(t) && LastWriter(t, p) && t.props[p].value == v && |t.caches| == |s.caches|
      && forall c | 0 <= c < |s.caches| :: SubscribedToAll(t, c) && Resolve(t.caches[c]) == w
  {
    hide Sound, Drained, Step, Enabled, WellFormed, Resolve, Converging, LastWriter, Lost, Story, AllSubscribed;
    var ss1, acts1 := EverybodyJoins(s);
    var s1 := ss1[|acts1|];
    ConvergingIsSound(s1);
    var tt, bs := StoryThenDrain(s1, p, q, v, w);
    StepsConcat(ss1, acts1, tt, bs);
    ss, acts := ss1 + tt[1..], acts1 + bs;
    var t := tt[|bs|];
    forall c | 0 <= c < |s.caches|
      ensures SubscribedToAll(t, c) && Resolve(t.caches[c]) == w
      ensures LastWriter(t, p) && t.props[p].value == v
    {
      SubscribedStays(s1, t, c);
      StaleReemissionLosesTheLastWrite(tt, bs, p, q, v, w, c);
    }
    assert SubscribedToAll(t, 0);
  }

  lemma SubscribedStays(s: Network, t: Network, c: nat)
    requires SubscribedToAll(s, c) && s.joined <= t.joined && |s.props| == |t.props|
    ensures SubscribedToAll(t, c)
  {
    forall p | 0 <= p < |t.props| ensures SubscribedTo(t, c, p) {
      assert SubscribedTo(s, c, p);
    }
  }

  lemma ConvergingIsSound(s: Network)
    requires Converging(s)
    ensures Sound(s)
  {
  }

  lemma StoryLength(p: nat, q: nat, v: Variant, w: Variant, t: nat)
    ensures |Story(p, q, v, w, t)| == 5
    ensures forall a | a in Story(p, q, v, w, t) :: a.SetValue? || a.Deliver?
  {
  }

  lemma {:induction false} TellingIsSound(ss: seq<Network>, acts: seq<Action>, i: nat)
    requires Steps(ss, acts) && Sound(ss[0]) && i <= |acts|
    ensures Sound(ss[i])
  {
    hide Sound;
    if i > 0 {
      TellingIsSound(ss, acts, i - 1);
      StepIsSound(ss[i - 1], acts[i - 1]);
    }
  }
}
