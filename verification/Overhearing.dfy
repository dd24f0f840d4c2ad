/** Any number of providers publishing one key, overhearing each other, and any number of clients.

    Receivers 0 .. |props| - 1 are the providers themselves (a provider also hears its own
    signals), the rest are clients.  `chans[p][r]` is the FIFO channel from provider p to
    receiver r.  `sets` and `sent` count the setValue calls and emitted signals per provider. */
module Overhearing {
  import opened Variants
  import opened Property

  datatype Network = Network(
    props: seq<State>,
    chans: seq<seq<seq<Signal>>>,
    caches: seq<seq<TimedValue>>,
    joined: set<(nat, nat)>,
    clock: nat,
    sets: seq<nat>,
    sent: seq<nat>)
  {
    function Receivers(): nat { |props| + |caches| }
  }

  datatype Action =
    | SetValue(p: nat, v: Variant, now: nat)
    | Deliver(p: nat, r: nat)
    | Subscribe(p: nat, r: nat)
    | Leave(p: nat, r: nat)          // a client unsubscribes while others stay
    | LoseLastSubscriber(p: nat)     // nobody is subscribed any more

  predicate WellFormed(s: Network) {
    && |s.chans| == |s.sets| == |s.sent| == |s.props|
    && (forall p | 0 <= p < |s.props| :: |s.chans[p]| == s.Receivers())
    && (forall c | 0 <= c < |s.caches| :: |s.caches[c]| == |s.props|)
  }

  /** Nothing is in transit. */
  predicate Drained(s: Network)
    requires WellFormed(s)
  {
    forall p, r | 0 <= p < |s.props| && 0 <= r < s.Receivers() :: s.chans[p][r] == []
  }

  /** Providers just constructed at distinct times, whether or not somebody outside the model is
      subscribed to them; nothing in transit, and clients with whatever they have cached. */
  ghost predicate Init(s: Network) {
    && WellFormed(s)
    && (forall p | 0 <= p < |s.props| ::
          s.props[p] == Fresh(s.props[p].timestamp).(subscribed := s.props[p].subscribed))
    && (forall p | 0 <= p < |s.props| :: s.props[p].timestamp <= s.clock)
    && (forall p, q | 0 <= p < q < |s.props| :: s.props[p].timestamp != s.props[q].timestamp)
    && (forall p, r | 0 <= p < |s.props| && 0 <= r < s.Receivers() :: s.chans[p][r] == [])
    && s.joined == {}
    && (forall p | 0 <= p < |s.props| :: s.sets[p] == s.sent[p] == 0)
  }

  predicate Enabled(s: Network, a: Action)
    requires WellFormed(s)
  {
    match a
    case SetValue(p, v, now) => p < |s.props| && now > s.clock
    case Deliver(p, r) => p < |s.props| && r < s.Receivers() && s.chans[p][r] != []
    case Subscribe(p, r) => p < |s.props| && |s.props| <= r < s.Receivers()
    case Leave(p, r) => (p, r) in s.joined
    case LoseLastSubscriber(p) => p < |s.props|
  }

  /** Every signal of a provider goes to every receiver. */
  function Broadcast(chans: seq<seq<seq<Signal>>>, p: nat, out: seq<Signal>): (r: seq<seq<seq<Signal>>>)
    requires p < |chans|
    ensures |r| == |chans|
  {
    chans[p := seq(|chans[p]|, i requires 0 <= i < |chans[p]| => chans[p][i] + out)]
  }

  /** Provider p moves to state t and sends `out`. */
  function Advance(s: Network, p: nat, t: State, out: seq<Signal>): Network
    requires WellFormed(s) && p < |s.props|
  {
    s.(props := s.props[p := t],
       chans := Broadcast(s.chans, p, out),
       sent := s.sent[p := s.sent[p] + |out|])
  }

  function Consume(s: Network, p: nat, r: nat): Network
    requires WellFormed(s) && p < |s.props| && r < s.Receivers() && s.chans[p][r] != []
  {
    s.(chans := s.chans[p := s.chans[p][r := s.chans[p][r][1..]]])
  }

  function Step(s: Network, a: Action): (t: Network)
    requires WellFormed(s) && Enabled(s, a)
    ensures WellFormed(t) && |t.props| == |s.props| && |t.caches| == |s.caches|
  {
    match a
    case SetValue(p, v, now) =>
      var (t, out) := Set(s.props[p], v, now);
      Advance(s, p, t, out).(clock := now, sets := s.sets[p := s.sets[p] + 1])
    case Deliver(p, r) =>
      var m := s.chans[p][r][0];
      var u := Consume(s, p, r);
      if r < |s.props| then
        var (t, out) := Overhear(s.props[r], m);
        Advance(u, r, t, out)
      else
        var c := r - |s.props|;
        u.(caches := s.caches[c := s.caches[c][p := TimedValue(Unpack(m.values), m.time)]])
    case Subscribe(p, r) =>
      s.(props := s.props[p := s.props[p].(subscribed := true)],
         chans := s.chans[p := s.chans[p][r := s.chans[p][r] + [Get(s.props[p])]]],
         joined := s.joined + {(p, r)})
    case Leave(p, r) =>
      s.(joined := s.joined - {(p, r)})
    case LoseLastSubscriber(p) =>
      s.(props := s.props[p := s.props[p].(subscribed := false)], joined := set j | j in s.joined && j.0 != p)
  }

  ghost predicate Steps(ss: seq<Network>, acts: seq<Action>) {
    && |ss| == |acts| + 1
    && forall i | 0 <= i < |acts| ::
         WellFormed(ss[i]) && Enabled(ss[i], acts[i]) && ss[i + 1] == Step(ss[i], acts[i])
  }

  ghost predicate Run(ss: seq<Network>, acts: seq<Action>) {
    Steps(ss, acts) && Init(ss[0])
  }

  lemma StepsConcat(ss: seq<Network>, acts: seq<Action>, tt: seq<Network>, bs: seq<Action>)
    requires Steps(ss, acts) && Steps(tt, bs) && ss[|acts|] == tt[0]
    ensures Steps(ss + tt[1..], acts + bs)
    ensures (ss + tt[1..])[0] == ss[0] && (ss + tt[1..])[|acts| + |bs|] == tt[|bs|]
    ensures forall i | 0 <= i <= |bs| :: (ss + tt[1..])[|acts| + i] == tt[i]
  {
    var us, cs := ss + tt[1..], acts + bs;
    forall i | 0 <= i < |cs|
      ensures WellFormed(us[i]) && Enabled(us[i], cs[i]) && us[i + 1] == Step(us[i], cs[i])
    {
      if i >= |acts| {
        assert cs[i] == bs[i - |acts|] && us[i] == tt[i - |acts|] && us[i + 1] == tt[i + 1 - |acts|];
      }
    }
  }

  /** Provider p moves to x and sends `out`; all other providers, channels and caches stay. */
  ghost predicate Speaks(s: Network, t: Network, p: nat, x: State, out: seq<Signal>)
    requires WellFormed(s) && p < |s.props|
  {
    && WellFormed(t) && t.props == s.props[p := x] && t.caches == s.caches && t.joined == s.joined
    && forall i, r | 0 <= i < |s.props| && 0 <= r < s.Receivers() ::
         t.chans[i][r] == if i == p then s.chans[i][r] + out else s.chans[i][r]
  }

  lemma SettingSpeaks(s: Network, p: nat, v: Variant, now: nat)
    requires WellFormed(s) && Enabled(s, SetValue(p, v, now))
    ensures var (x, out) := Set(s.props[p], v, now);
      Speaks(s, Step(s, SetValue(p, v, now)), p, x, out)
  {
  }

  /** Overhearing is a turn after the message has been taken out of its channel. */
  lemma HearingSpeaks(s: Network, p: nat, r: nat)
    requires WellFormed(s) && Enabled(s, Deliver(p, r)) && r < |s.props|
    ensures var (x, out) := Overhear(s.props[r], s.chans[p][r][0]);
      Speaks(Consume(s, p, r), Step(s, Deliver(p, r)), r, x, out)
  {
  }

  // ---------------------------------------------------------------- invariant of every run

  /** Each provider is consistent, stamps never run ahead of the clock and are never shared,
      a provider's own signals are never newer than its last emission, each provider has sent at
      most as many signals as it had setValue calls, one fewer if it still owes one, and whoever has
      a client is subscribed. */
  ghost predicate Sound(s: Network) {
    && WellFormed(s)
    && (forall j | j in s.joined :: j.0 < |s.props| && s.props[j.0].subscribed)
    && (forall p | 0 <= p < |s.props| ::
          && Consistent(s.props[p])
          && s.props[p].timestamp <= s.clock
          && s.sent[p] + Debt(s.props[p]) <= s.sets[p])
    && (forall p, q | 0 <= p < |s.props| && 0 <= q < |s.props| && p != q ::
          Apart(s.props[p], s.props[q]))
    && (forall p, r | 0 <= p < |s.props| && 0 <= r < |s.props| ::
          NotAfter(s.chans[p][r], s.props[p].emittedTimestamp))
  }

  predicate Apart(s: State, t: State) {
    && s.timestamp != t.timestamp && s.timestamp != t.emittedTimestamp
    && s.emittedTimestamp != t.timestamp && s.emittedTimestamp != t.emittedTimestamp
  }

  ghost predicate NotAfter(ms: seq<Signal>, t: nat) {
    forall m | m in ms :: m.time <= t
  }

  /** Provider p moves to t and sends `out`; clock and set counts may move forward with it. */
  lemma AdvanceIsSound(s: Network, p: nat, t: State, out: seq<Signal>, clock: nat, n: nat)
    requires Sound(s) && p < |s.props| && Consistent(t) && t.subscribed == s.props[p].subscribed
    requires s.props[p].emittedTimestamp <= t.emittedTimestamp
    requires NotAfter(out, t.emittedTimestamp)
    requires s.clock <= clock && t.timestamp <= clock
    requires s.sent[p] + |out| + Debt(t) <= n
    requires forall q | 0 <= q < |s.props| && q != p :: Apart(t, s.props[q]) && Apart(s.props[q], t)
    ensures Sound(Advance(s, p, t, out).(clock := clock, sets := s.sets[p := n]))
  {
    var u := Advance(s, p, t, out).(clock := clock, sets := s.sets[p := n]);
    forall q, r | 0 <= q < |s.props| && 0 <= r < |s.props|
      ensures NotAfter(u.chans[q][r], u.props[q].emittedTimestamp)
    {
      assert NotAfter(s.chans[q][r], s.props[q].emittedTimestamp);
    }
  }

  lemma SetIsSound(s: Network, p: nat, v: Variant, now: nat)
    requires Sound(s) && Enabled(s, SetValue(p, v, now))
    ensures Sound(Step(s, SetValue(p, v, now)))
  {
    SetStep(s.props[p], v, now);
    var (t, out) := Set(s.props[p], v, now);
    AdvanceIsSound(s, p, t, out, now, s.sets[p] + 1);
  }

  lemma ConsumeIsSound(s: Network, p: nat, r: nat)
    requires Sound(s) && Enabled(s, Deliver(p, r))
    ensures Sound(Consume(s, p, r))
  {
    var t := Consume(s, p, r);
    forall q, i | 0 <= q < |s.props| && 0 <= i < |s.props|
      ensures NotAfter(t.chans[q][i], t.props[q].emittedTimestamp)
    {
      assert NotAfter(s.chans[q][i], s.props[q].emittedTimestamp);
    }
  }

  lemma OverhearIsSound(s: Network, r: nat, m: Signal)
    requires Sound(s) && r < |s.props|
    ensures var (t, out) := Overhear(s.props[r], m); Sound(Advance(s, r, t, out))
  {
    OverhearStep(s.props[r], m);
    var (t, out) := Overhear(s.props[r], m);
    AdvanceIsSound(s, r, t, out, s.clock, s.sets[r]);
    assert s.sets[r := s.sets[r]] == s.sets;
  }

  /** Only the subscription flag of p and its channels to clients differ. */
  lemma SubscriptionIsSound(s: Network, t: Network, p: nat, b: bool)
    requires Sound(s) && WellFormed(t) && p < |s.props| && |t.caches| == |s.caches|
    requires t.props == s.props[p := s.props[p].(subscribed := b)]
    requires t.clock == s.clock && t.sets == s.sets && t.sent == s.sent
    requires forall j | j in t.joined :: j.0 < |s.props| && (if j.0 == p then b else j in s.joined)
    requires forall q, r | 0 <= q < |s.props| && 0 <= r < |s.props| :: t.chans[q][r] == s.chans[q][r]
    ensures Sound(t)
  {
    forall q, r | 0 <= q < |s.props| && 0 <= r < |s.props|
      ensures NotAfter(t.chans[q][r], t.props[q].emittedTimestamp)
    {
      assert NotAfter(s.chans[q][r], s.props[q].emittedTimestamp);
    }
  }

  lemma StepIsSound(s: Network, a: Action)
    requires Sound(s) && Enabled(s, a)
    ensures Sound(Step(s, a))
  {
    match a
    case SetValue(p, v, now) =>
      SetIsSound(s, p, v, now);
    case Deliver(p, r) =>
      ConsumeIsSound(s, p, r);
      if r < |s.props| {
        OverhearIsSound(Consume(s, p, r), r, s.chans[p][r][0]);
      }
    case Subscribe(p, r) =>
      SubscriptionIsSound(s, Step(s, a), p, true);
    case Leave(p, r) =>
      assert s.props[p := s.props[p].(subscribed := s.props[p].subscribed)] == s.props;
      SubscriptionIsSound(s, Step(s, a), p, s.props[p].subscribed);
    case LoseLastSubscriber(p) =>
      SubscriptionIsSound(s, Step(s, a), p, false);
  }

  lemma {:induction false} EveryRunIsSound(ss: seq<Network>, acts: seq<Action>, i: nat)
    requires Run(ss, acts) && i <= |acts|
    ensures Sound(ss[i])
  {
    if i > 0 {
      EveryRunIsSound(ss, acts, i - 1);
      StepIsSound(ss[i - 1], acts[i - 1]);
    }
  }

  /** In every run no provider has emitted more signals than it had setValue calls. */
  lemma EmissionsNeverExceedSets(ss: seq<Network>, acts: seq<Action>, i: nat, p: nat)
    requires Run(ss, acts) && i <= |acts| && p < |ss[i].props|
    ensures WellFormed(ss[i]) && ss[i].sent[p] <= ss[i].sets[p]
  {
    EveryRunIsSound(ss, acts, i);
  }

  /** A signal that a provider hears from itself only leaves the channel. */
  lemma OwnSignalsChangeNothing(ss: seq<Network>, acts: seq<Action>, i: nat, p: nat)
    requires Run(ss, acts) && i <= |acts| && p < |ss[i].props|
    requires WellFormed(ss[i]) && Enabled(ss[i], Deliver(p, p))
    ensures Step(ss[i], Deliver(p, p)) == Consume(ss[i], p, p)
  {
    EveryRunIsSound(ss, acts, i);
    var s := ss[i];
    var m := s.chans[p][p][0];
    assert NotAfter(s.chans[p][p], s.props[p].emittedTimestamp);
    assert m in s.chans[p][p];
    var t := Consume(s, p, p);
    assert Broadcast(t.chans, p, []) == t.chans by {
      assert forall j | 0 <= j < |t.chans[p]| :: t.chans[p][j] + [] == t.chans[p][j];
      assert Broadcast(t.chans, p, [])[p] == t.chans[p];
    }
  }
}
