/** Last writer wins: once all channels have drained, every client resolves to the value of the
    provider whose non-null intention is newest. */
module Convergence {
  import opened Variants
  import opened Property
  import opened Resolution
  import opened Overhearing

  /** Overhearing the signal makes the provider emit. */
  predicate Provokes(s: State, m: Signal) {
    m.time > s.emittedTimestamp && Unpack(m.values) != s.value && Owes(s)
  }

  /** Nobody needs to be told that p now stands for v since time t: it is no value, or everybody else
      has none, has emitted later, has the same one, or will speak up again anyway. */
  predicate OthersKnow(s: Network, p: nat, v: Variant, t: nat) {
    v == Null ||
    forall q | 0 <= q < |s.props| && q != p ::
      var x := s.props[q];
      x.value == Null || x.emittedTimestamp > t || x.value == v || x.overheard
  }

  /** When provider r hears the last signal that p has sent it, and both have different values, it does
      not answer with an intention that is no newer than the signal. */
  predicate ReemitsFresh(s: Network, p: nat, r: nat)
    requires WellFormed(s) && Enabled(s, Deliver(p, r)) && r < |s.props|
  {
    var x, y, m := s.props[p], s.props[r], s.chans[p][r][0];
    |s.chans[p][r]| == 1 && x.value != Null && y.value != Null && x.value != y.value && Unpack(m.values) != y.value ==>
      !Stale(y, m.time)
  }

  /** Nobody is misled: whoever emits without a subscriber tells nobody anything they need to know, and
      no last signal is answered with a stale value. */
  predicate Harmless(s: Network, a: Action)
    requires WellFormed(s) && Enabled(s, a)
  {
    match a
    case SetValue(p, v, now) =>
      (v != s.props[p].value || s.props[p].overheard) && !s.props[p].subscribed ==> OthersKnow(s, p, v, now)
    case Deliver(p, r) =>
      r < |s.props| ==>
        && ReemitsFresh(s, p, r)
        && (Provokes(s.props[r], s.chans[p][r][0]) && !s.props[r].subscribed ==>
              OthersKnow(s, r, s.props[r].value, s.props[r].timestamp))
    case _ => true
  }

  /** What provider q last told the world. */
  function Emitted(s: State): Signal {
    Signal(Pack(s.emittedValue), s.emittedTimestamp)
  }

  /** Provider p cannot be mistaken about q: one of them has no value, p has spoken later, has the same
      value, will speak up when it repeats its own, or still has q's last emission coming. */
  predicate Heard(ms: seq<Signal>, q: State, p: State) {
    || q.value == Null || p.value == Null
    || p.emittedTimestamp > q.emittedTimestamp || p.value == q.value || p.overheard
    || (ms != [] && ms[|ms| - 1] == Emitted(q))
  }

  /** What a client will believe about a provider once the channel has drained. */
  function Eventually(ms: seq<Signal>, cached: TimedValue): TimedValue {
    if ms == [] then cached
    else TimedValue(Unpack(ms[|ms| - 1].values), ms[|ms| - 1].time)
  }

  predicate Known(ms: seq<Signal>, cached: TimedValue, q: State) {
    var e := Eventually(ms, cached);
    e.value == q.value && q.emittedTimestamp <= e.time <= q.timestamp
  }

  ghost predicate AllHeard(s: Network)
    requires WellFormed(s)
  {
    forall q, p | 0 <= q < |s.props| && 0 <= p < |s.props| && q != p ::
      Heard(s.chans[q][p], s.props[q], s.props[p])
  }

  ghost predicate AllKnown(s: Network)
    requires WellFormed(s)
  {
    forall q, c | 0 <= q < |s.props| && 0 <= c < |s.caches| && (q, |s.props| + c) in s.joined ::
      Known(s.chans[q][|s.props| + c], s.caches[c][q], s.props[q])
  }

  ghost predicate Converging(s: Network) {
    Sound(s) && AllHeard(s) && AllKnown(s)
  }

  // ---------------------------------------------------------------- preservation

  /** The one who sets is not misled, and neither is any other unless it should have been told. */
  lemma SetKeepsHeard(ms: seq<Signal>, q: State, p: State, v: Variant, now: nat)
    requires Consistent(p) && Consistent(q) && now > p.timestamp && now > q.timestamp
    requires NotAfter(ms, p.emittedTimestamp) && Heard(ms, p, q)
    ensures var (p', out) := Set(p, v, now);
      Heard(ms + out, p', q) <==>
        ((v != p.value || p.overheard) && !p.subscribed ==>
          v == Null || q.value == Null || q.emittedTimestamp > now || q.value == v || q.overheard)
  {
    SetStep(p, v, now);
    var (p', out) := Set(p, v, now);
    assert ms + [] == ms;
    assert ms != [] ==> ms[|ms| - 1] in ms;
  }

  lemma SetterHears(ms: seq<Signal>, q: State, p: State, v: Variant, now: nat)
    requires Consistent(p) && Consistent(q) && now > p.timestamp && now > q.timestamp && Heard(ms, q, p)
    ensures Heard(ms, q, Set(p, v, now).0)
  {
    SetStep(p, v, now);
  }

  lemma SetKeepsKnown(ms: seq<Signal>, cached: TimedValue, p: State, v: Variant, now: nat)
    requires Consistent(p) && p.subscribed && now > p.timestamp && Known(ms, cached, p)
    ensures var (p', out) := Set(p, v, now); Known(ms + out, cached, p')
  {
    SetStep(p, v, now);
  }

  lemma SettingAndHeard(s: Network, t: Network, p: nat, v: Variant, now: nat, q: nat, r: nat)
    requires Sound(s) && AllHeard(s) && Enabled(s, SetValue(p, v, now))
    requires var (x, out) := Set(s.props[p], v, now); Speaks(s, t, p, x, out)
    requires q < |s.props| && r < |s.props| && q != r
    ensures q != p ==> Heard(t.chans[q][r], t.props[q], t.props[r])
    ensures q == p ==> (Heard(t.chans[q][r], t.props[q], t.props[r]) <==>
      ((v != s.props[p].value || s.props[p].overheard) && !s.props[p].subscribed ==>
        var y := s.props[r]; v == Null || y.value == Null || y.emittedTimestamp > now || y.value == v || y.overheard))
  {
    hide Heard, Set;
    assert Heard(s.chans[q][r], s.props[q], s.props[r]);
    assert NotAfter(s.chans[q][r], s.props[q].emittedTimestamp);
    if q == p {
      SetKeepsHeard(s.chans[q][r], s.props[r], s.props[p], v, now);
    } else if r == p {
      SetterHears(s.chans[q][r], s.props[q], s.props[p], v, now);
    }
  }

  lemma SettingKeepsAllHeard(s: Network, t: Network, p: nat, v: Variant, now: nat)
    requires Sound(s) && AllHeard(s) && Enabled(s, SetValue(p, v, now))
    requires var (x, out) := Set(s.props[p], v, now); Speaks(s, t, p, x, out)
    ensures AllHeard(t) <==> Harmless(s, SetValue(p, v, now))
  {
    hide Heard, Set, Sound;
    forall q, r | 0 <= q < |s.props| && 0 <= r < |s.props| && q != r
      ensures q != p ==> Heard(t.chans[q][r], t.props[q], t.props[r])
      ensures q == p ==> (Heard(t.chans[q][r], t.props[q], t.props[r]) <==>
        ((v != s.props[p].value || s.props[p].overheard) && !s.props[p].subscribed ==>
          var y := s.props[r]; v == Null || y.value == Null || y.emittedTimestamp > now || y.value == v || y.overheard))
    {
      SettingAndHeard(s, t, p, v, now, q, r);
    }
  }

  lemma SettingKeepsAllKnown(s: Network, t: Network, p: nat, v: Variant, now: nat)
    requires Sound(s) && AllKnown(s) && Enabled(s, SetValue(p, v, now))
    requires var (x, out) := Set(s.props[p], v, now); Speaks(s, t, p, x, out)
    ensures AllKnown(t)
  {
    hide Known, Set;
    forall q, c | 0 <= q < |s.props| && 0 <= c < |s.caches| && (q, |s.props| + c) in s.joined
      ensures Known(t.chans[q][|s.props| + c], t.caches[c][q], t.props[q])
    {
      if q == p {
        SetKeepsKnown(s.chans[q][|s.props| + c], s.caches[c][q], s.props[p], v, now);
      }
    }
  }

  lemma SetIsExact(s: Network, p: nat, v: Variant, now: nat)
    requires Converging(s) && Enabled(s, SetValue(p, v, now))
    ensures Converging(Step(s, SetValue(p, v, now))) <==> Harmless(s, SetValue(p, v, now))
  {
    StepIsSound(s, SetValue(p, v, now));
    SettingSpeaks(s, p, v, now);
    SettingKeepsAllHeard(s, Step(s, SetValue(p, v, now)), p, v, now);
    SettingKeepsAllKnown(s, Step(s, SetValue(p, v, now)), p, v, now);
  }

  /** The one who hears a signal is not misled about third parties, and about the sender exactly if this
      was the last signal and it gave a stale answer. */
  lemma ListenerHears(ms: seq<Signal>, q: State, p: State, m: Signal)
    requires Consistent(p) && Consistent(q) && Apart(p, q)
    ensures Heard(ms, q, p) ==> Heard(ms, q, Overhear(p, m).0)
    ensures Heard([m] + ms, q, p) && m.time <= q.emittedTimestamp ==>
      (Heard(ms, q, Overhear(p, m).0) <==>
        (ms == [] && q.value != Null && p.value != Null && q.value != p.value && Unpack(m.values) != p.value ==>
          !Stale(p, m.time)))
  {
    OverhearStep(p, m);
    if Heard([m] + ms, q, p) {
      assert ([m] + ms)[|ms|] == if ms == [] then m else ms[|ms| - 1];
    }
  }

  /** An answer misleads exactly those who should have heard it and could not. */
  lemma OverhearKeepsHeard(ms: seq<Signal>, q: State, p: State, m: Signal)
    requires Consistent(p) && Consistent(q)
    requires NotAfter(ms, p.emittedTimestamp) && Heard(ms, p, q)
    ensures var (p', out) := Overhear(p, m);
      Heard(ms + out, p', q) <==>
        (Provokes(p, m) && !p.subscribed ==>
          p.value == Null || q.value == Null || q.emittedTimestamp > p.timestamp || q.value == p.value || q.overheard)
  {
    OverhearStep(p, m);
    assert ms + [] == ms;
    assert ms != [] ==> ms[|ms| - 1] in ms;
  }

  lemma OverhearKeepsKnown(ms: seq<Signal>, cached: TimedValue, p: State, m: Signal)
    requires Consistent(p) && p.subscribed && Known(ms, cached, p)
    ensures var (p', out) := Overhear(p, m); Known(ms + out, cached, p')
  {
    OverhearStep(p, m);
  }

  /** Whether anybody is still misled about r after r has heard. */
  lemma AnswerAndHeard(s: Network, t: Network, p: nat, r: nat, i: nat)
    requires Sound(s) && AllHeard(s) && Enabled(s, Deliver(p, r)) && r < |s.props|
    requires var (x, out) := Overhear(s.props[r], s.chans[p][r][0]);
      Speaks(Consume(s, p, r), t, r, x, out)
    requires i < |s.props| && i != r
    ensures Heard(t.chans[r][i], t.props[r], t.props[i]) <==>
      (Provokes(s.props[r], s.chans[p][r][0]) && !s.props[r].subscribed ==>
        var x, y := s.props[r], s.props[i];
        x.value == Null || y.value == Null || y.emittedTimestamp > x.timestamp || y.value == x.value || y.overheard)
  {
    hide Heard, Overhear, Provokes;
    assert Heard(s.chans[r][i], s.props[r], s.props[i]);
    assert NotAfter(s.chans[r][i], s.props[r].emittedTimestamp);
    assert Consume(s, p, r).chans[r][i] == s.chans[r][i];
    OverhearKeepsHeard(s.chans[r][i], s.props[i], s.props[r], s.chans[p][r][0]);
  }

  /** Whether r is misled about the sender after it has heard. */
  lemma DeliveredIsHeard(s: Network, t: Network, p: nat, r: nat)
    requires Sound(s) && AllHeard(s) && Enabled(s, Deliver(p, r)) && r < |s.props| && p != r
    requires var (x, out) := Overhear(s.props[r], s.chans[p][r][0]);
      Speaks(Consume(s, p, r), t, r, x, out)
    ensures Heard(t.chans[p][r], t.props[p], t.props[r]) <==> ReemitsFresh(s, p, r)
  {
    hide Heard, Overhear;
    var k, m := Consume(s, p, r), s.chans[p][r][0];
    assert s.chans[p][r] == [m] + k.chans[p][r];
    assert Heard(s.chans[p][r], s.props[p], s.props[r]);
    assert NotAfter(s.chans[p][r], s.props[p].emittedTimestamp);
    assert m in s.chans[p][r];
    ListenerHears(k.chans[p][r], s.props[p], s.props[r], m);
    assert t.chans[p][r] == k.chans[p][r];
  }

  lemma OthersStayHeard(s: Network, t: Network, p: nat, r: nat, q: nat, i: nat)
    requires Sound(s) && AllHeard(s) && Enabled(s, Deliver(p, r)) && r < |s.props|
    requires var (x, out) := Overhear(s.props[r], s.chans[p][r][0]);
      Speaks(Consume(s, p, r), t, r, x, out)
    requires q < |s.props| && i < |s.props| && q != i && q != r && (q, i) != (p, r)
    ensures Heard(t.chans[q][i], t.props[q], t.props[i])
  {
    hide Heard, Overhear;
    assert Heard(s.chans[q][i], s.props[q], s.props[i]);
    assert Consume(s, p, r).chans[q][i] == s.chans[q][i];
    if i == r {
      ListenerHears(s.chans[q][i], s.props[q], s.props[r], s.chans[p][r][0]);
    }
  }

  lemma HearingKeepsAllHeard(s: Network, t: Network, p: nat, r: nat)
    requires Sound(s) && AllHeard(s) && Enabled(s, Deliver(p, r)) && r < |s.props|
    requires var (x, out) := Overhear(s.props[r], s.chans[p][r][0]);
      Speaks(Consume(s, p, r), t, r, x, out)
    ensures AllHeard(t) <==> Harmless(s, Deliver(p, r))
  {
    assert WellFormed(s);
    hide Heard, Overhear, Sound, ReemitsFresh, Provokes;
    if p == r {
      OwnSignalIsOld(s, r);
    } else {
      DeliveredIsHeard(s, t, p, r);
    }
    forall q, i | 0 <= q < |s.props| && 0 <= i < |s.props| && q != i && q != r && (q, i) != (p, r)
      ensures Heard(t.chans[q][i], t.props[q], t.props[i])
    {
      OthersStayHeard(s, t, p, r, q, i);
    }
    forall i | 0 <= i < |s.props| && i != r
      ensures Heard(t.chans[r][i], t.props[r], t.props[i]) <==>
        (Provokes(s.props[r], s.chans[p][r][0]) && !s.props[r].subscribed ==>
          var x, y := s.props[r], s.props[i];
          x.value == Null || y.value == Null || y.emittedTimestamp > x.timestamp || y.value == x.value || y.overheard)
    {
      AnswerAndHeard(s, t, p, r, i);
    }
  }

  lemma HearingKeepsAllKnown(s: Network, t: Network, p: nat, r: nat)
    requires Sound(s) && AllKnown(s) && Enabled(s, Deliver(p, r)) && r < |s.props|
    requires var (x, out) := Overhear(s.props[r], s.chans[p][r][0]);
      Speaks(Consume(s, p, r), t, r, x, out)
    ensures AllKnown(t)
  {
    hide Known, Overhear;
    forall q, c | 0 <= q < |s.props| && 0 <= c < |s.caches| && (q, |s.props| + c) in s.joined
      ensures Known(t.chans[q][|s.props| + c], t.caches[c][q], t.props[q])
    {
      assert Known(s.chans[q][|s.props| + c], s.caches[c][q], s.props[q]);
      if q == r {
        OverhearKeepsKnown(s.chans[q][|s.props| + c], s.caches[c][q], s.props[r], s.chans[p][r][0]);
      }
    }
  }

  lemma HearingIsExact(s: Network, p: nat, r: nat)
    requires Converging(s) && Enabled(s, Deliver(p, r)) && r < |s.props|
    ensures Converging(Step(s, Deliver(p, r))) <==> Harmless(s, Deliver(p, r))
  {
    StepIsSound(s, Deliver(p, r));
    HearingSpeaks(s, p, r);
    HearingKeepsAllHeard(s, Step(s, Deliver(p, r)), p, r);
    HearingKeepsAllKnown(s, Step(s, Deliver(p, r)), p, r);
  }

  lemma OwnSignalIsOld(s: Network, p: nat)
    requires Sound(s) && Enabled(s, Deliver(p, p))
    ensures s.chans[p][p][0].time <= s.props[p].emittedTimestamp && ReemitsFresh(s, p, p)
    ensures !Provokes(s.props[p], s.chans[p][p][0])
  {
    assert NotAfter(s.chans[p][p], s.props[p].emittedTimestamp);
    assert s.chans[p][p][0] in s.chans[p][p];
  }

  /** Steps that only concern clients and subscription flags leave the providers informed. */
  lemma ProvidersStayInformed(s: Network, t: Network)
    requires WellFormed(s) && WellFormed(t) && AllHeard(s) && |t.props| == |s.props|
    requires forall p | 0 <= p < |s.props| ::
      t.props[p] == s.props[p].(subscribed := t.props[p].subscribed)
    requires forall p, r | 0 <= p < |s.props| && 0 <= r < |s.props| :: t.chans[p][r] == s.chans[p][r]
    ensures AllHeard(t)
  {
    forall q, i | 0 <= q < |s.props| && 0 <= i < |s.props| && q != i
      ensures Heard(t.chans[q][i], t.props[q], t.props[i])
    {
      assert Heard(s.chans[q][i], s.props[q], s.props[i]);
    }
  }

  lemma ReadingConverges(s: Network, p: nat, r: nat)
    requires Converging(s) && Enabled(s, Deliver(p, r)) && r >= |s.props|
    ensures Converging(Step(s, Deliver(p, r)))
  {
    StepIsSound(s, Deliver(p, r));
    var t := Step(s, Deliver(p, r));
    ProvidersStayInformed(s, t);
    hide Known, Sound, AllHeard;
    forall q, c | 0 <= q < |s.props| && 0 <= c < |s.caches| && (q, |s.props| + c) in s.joined
      ensures Known(t.chans[q][|s.props| + c], t.caches[c][q], t.props[q])
    {
      var ms := s.chans[q][|s.props| + c];
      assert Known(ms, s.caches[c][q], s.props[q]);
      if q == p && |s.props| + c == r {
        ReadingKeepsKnown(ms, s.caches[c][q], s.props[q]);
      }
    }
  }

  lemma ReadingKeepsKnown(ms: seq<Signal>, cached: TimedValue, q: State)
    requires ms != [] && Known(ms, cached, q)
    ensures Known(ms[1..], TimedValue(Unpack(ms[0].values), ms[0].time), q)
  {
  }

  lemma SubscribeConverges(s: Network, p: nat, r: nat)
    requires Converging(s) && Enabled(s, Subscribe(p, r))
    ensures Converging(Step(s, Subscribe(p, r)))
  {
    StepIsSound(s, Subscribe(p, r));
    var t := Step(s, Subscribe(p, r));
    ProvidersStayInformed(s, t);
    forall q, c | 0 <= q < |s.props| && 0 <= c < |s.caches| && (q, |s.props| + c) in t.joined
      ensures Known(t.chans[q][|s.props| + c], t.caches[c][q], t.props[q])
    {
      assert Consistent(s.props[q]);
      if q != p || |s.props| + c != r {
        assert Known(s.chans[q][|s.props| + c], s.caches[c][q], s.props[q]);
      }
    }
  }

  lemma LeavingConverges(s: Network, a: Action)
    requires Converging(s) && Enabled(s, a) && (a.Leave? || a.LoseLastSubscriber?)
    ensures Converging(Step(s, a))
  {
    StepIsSound(s, a);
    var t := Step(s, a);
    ProvidersStayInformed(s, t);
    hide Sound, AllHeard;
    forall q, c | 0 <= q < |s.props| && 0 <= c < |s.caches| && (q, |s.props| + c) in t.joined
      ensures Known(t.chans[q][|s.props| + c], t.caches[c][q], t.props[q])
    {
      assert Known(s.chans[q][|s.props| + c], s.caches[c][q], s.props[q]);
    }
  }

  /** Every step keeps the network converging exactly if it is harmless. */
  lemma HarmlessIsExact(s: Network, a: Action)
    requires Converging(s) && Enabled(s, a)
    ensures Converging(Step(s, a)) <==> Harmless(s, a)
  {
    hide Step, Converging, Enabled;
    match a
    case SetValue(p, v, now) => SetIsExact(s, p, v, now);
    case Deliver(p, r) =>
      if r < |s.props| { HearingIsExact(s, p, r); } else { ReadingConverges(s, p, r); }
    case Subscribe(p, r) => SubscribeConverges(s, p, r);
    case _ => LeavingConverges(s, a);
  }

  /** A run of harmless steps. */
  ghost predicate GoodRun(ss: seq<Network>, acts: seq<Action>) {
    && Run(ss, acts)
    && forall i | 0 <= i < |acts| :: Harmless(ss[i], acts[i])
  }

  lemma {:induction false} GoodRunConverges(ss: seq<Network>, acts: seq<Action>, i: nat)
    requires GoodRun(ss, acts) && i <= |acts|
    ensures Converging(ss[i])
  {
    if i == 0 {
      EveryRunIsSound(ss, acts, 0);
    } else {
      GoodRunConverges(ss, acts, i - 1);
      HarmlessIsExact(ss[i - 1], acts[i - 1]);
    }
  }

  /** A run converges all along exactly if all its steps are harmless. */
  lemma GoodRunsAreExact(ss: seq<Network>, acts: seq<Action>)
    requires Run(ss, acts)
    ensures GoodRun(ss, acts) <==> forall i | 0 <= i <= |acts| :: Converging(ss[i])
  {
    hide Step, Converging, Harmless, Init;
    if GoodRun(ss, acts) {
      forall i | 0 <= i <= |acts| ensures Converging(ss[i]) {
        GoodRunConverges(ss, acts, i);
      }
    } else if forall i | 0 <= i <= |acts| :: Converging(ss[i]) {
      forall i | 0 <= i < |acts| ensures Harmless(ss[i], acts[i]) {
        assert Converging(ss[i]) && Converging(ss[i + 1]);
        HarmlessIsExact(ss[i], acts[i]);
      }
    }
  }

  /** A single provider can do no harm, whenever it sets its values and whoever is subscribed. */
  lemma {:induction false} OneProviderIsGood(ss: seq<Network>, acts: seq<Action>)
    requires Run(ss, acts) && |ss[0].props| == 1
    ensures GoodRun(ss, acts)
  {
    forall i | 0 <= i < |acts|
      ensures Harmless(ss[i], acts[i])
    {
      SizesStay(ss, acts, 0, i);
      EveryRunIsSound(ss, acts, i);
      if acts[i].Deliver? && acts[i].r < |ss[i].props| {
        OwnSignalIsOld(ss[i], 0);
      }
    }
  }

  lemma {:induction false} SizesStay(ss: seq<Network>, acts: seq<Action>, i: nat, j: nat)
    requires Steps(ss, acts) && i <= j <= |acts|
    ensures |ss[j].props| == |ss[i].props| && |ss[j].caches| == |ss[i].caches|
  {
    if i < j { SizesStay(ss, acts, i, j - 1); }
  }

  // ---------------------------------------------------------------- the theorem

  predicate SubscribedTo(s: Network, c: nat, p: nat) {
    (p, |s.props| + c) in s.joined
  }

  predicate SubscribedToAll(s: Network, c: nat) {
    forall p | 0 <= p < |s.props| :: SubscribedTo(s, c, p)
  }

  /** What client c chooses from: the values cached for the providers it is subscribed to. */
  function Choice(s: Network, c: nat): (vs: seq<TimedValue>)
    requires WellFormed(s) && c < |s.caches|
    ensures |vs| == |s.props|
  {
    seq(|s.props|, p requires 0 <= p < |s.props| =>
      if SubscribedTo(s, c, p) then s.caches[c][p] else TimedValue(Null, 0))
  }

  lemma ChoiceOfAll(s: Network, c: nat)
    requires WellFormed(s) && c < |s.caches| && SubscribedToAll(s, c)
    ensures Choice(s, c) == s.caches[c]
  {
    assert forall p | 0 <= p < |s.props| :: SubscribedTo(s, c, p);
  }

  /** p holds the newest intention among the providers that have a value and that client c is
      subscribed to. */
  predicate LastWriterFor(s: Network, c: nat, p: nat) {
    && p < |s.props| && SubscribedTo(s, c, p) && s.props[p].value != Null
    && forall q | 0 <= q < |s.props| && SubscribedTo(s, c, q) && s.props[q].value != Null ::
         s.props[q].timestamp <= s.props[p].timestamp
  }

  /** p holds the newest intention among the providers that have a value. */
  predicate LastWriter(s: Network, p: nat) {
    && p < |s.props| && s.props[p].value != Null
    && forall q | 0 <= q < |s.props| && s.props[q].value != Null ::
         s.props[q].timestamp <= s.props[p].timestamp
  }

  /** In a drained network, a provider with another value and an older intention is cached with an
      older stamp. */
  lemma OthersAreOlder(s: Network, p: nat, q: nat, c: nat)
    requires Converging(s) && Drained(s) && p < |s.props| && s.props[p].value != Null
    requires q < |s.props| && s.props[q].value != Null && s.props[q].value != s.props[p].value
    requires s.props[q].timestamp <= s.props[p].timestamp
    requires c < |s.caches| && SubscribedTo(s, c, p) && SubscribedTo(s, c, q)
    ensures s.caches[c][q].time < s.caches[c][p].time
  {
    assert Apart(s.props[p], s.props[q]);
    assert Heard(s.chans[q][p], s.props[q], s.props[p]);
    assert Heard(s.chans[p][q], s.props[p], s.props[q]);
    assert Known(s.chans[p][|s.props| + c], s.caches[c][p], s.props[p]);
    assert Known(s.chans[q][|s.props| + c], s.caches[c][q], s.props[q]);
  }

  /** The invariant cannot be weaker: if p can be mistaken about q when everything is delivered, it can
      repeat its value unheard.  It is then the last writer, still everything is delivered, and every
      client that knows p by what it emitted ranks it behind q, which has another value. */
  lemma MistakenIsHarmful(s: Network, p: nat, q: nat)
    requires Sound(s) && AllKnown(s) && Drained(s) && p < |s.props| && q < |s.props| && p != q
    requires !Heard(s.chans[q][p], s.props[q], s.props[p])
    ensures Enabled(s, SetValue(p, s.props[p].value, s.clock + 1))
    ensures var t := Step(s, SetValue(p, s.props[p].value, s.clock + 1));
      && Drained(t) && LastWriter(t, p) && t.props[q] == s.props[q] && t.props[q].value != t.props[p].value
      && forall c | 0 <= c < |s.caches| && SubscribedTo(s, c, p) && SubscribedTo(s, c, q) &&
                    s.caches[c][p].time == s.props[p].emittedTimestamp ::
        t.caches[c][p].time < t.caches[c][q].time && t.caches[c][q].value == t.props[q].value
  {
    var v, now := s.props[p].value, s.clock + 1;
    SettingSpeaks(s, p, v, now);
    SetStep(s.props[p], v, now);
    assert Apart(s.props[p], s.props[q]);
    var t := Step(s, SetValue(p, v, now));
    forall c | 0 <= c < |s.caches| && SubscribedTo(s, c, q)
      ensures t.caches[c][q].value == s.props[q].value && s.props[q].emittedTimestamp <= t.caches[c][q].time
    {
      assert Known(s.chans[q][|s.props| + c], s.caches[c][q], s.props[q]);
    }
  }

  lemma CachedIsCurrent(s: Network, c: nat, q: nat)
    requires Converging(s) && Drained(s) && c < |s.caches| && q < |s.props| && SubscribedTo(s, c, q)
    ensures s.caches[c][q].value == s.props[q].value
  {
    assert Known(s.chans[q][|s.props| + c], s.caches[c][q], s.props[q]);
  }

  lemma DrainedResolves(s: Network, c: nat, p: nat)
    requires Converging(s) && Drained(s) && c < |s.caches| && LastWriterFor(s, c, p)
    ensures Resolve(Choice(s, c)) == s.props[p].value
  {
    hide Resolve;
    var vs := Choice(s, c);
    CachedIsCurrent(s, c, p);
    forall q: nat | q < |vs| && vs[q].value != Null && vs[q].value != vs[p].value
      ensures vs[q].time < vs[p].time
    {
      CachedIsCurrent(s, c, q);
      OthersAreOlder(s, p, q, c);
    }
    NewestWins(vs, p);
  }

  /** Last-writer-wins convergence, for any number of providers and for every client, whichever
      providers it is subscribed to and whenever it subscribed: once everything is delivered it
      resolves to the value of the newest of them that has one, and to none if none has. */
  lemma LastWriterWins(ss: seq<Network>, acts: seq<Action>, c: nat)
    requires GoodRun(ss, acts) && WellFormed(ss[|acts|]) && Drained(ss[|acts|])
    requires c < |ss[|acts|].caches|
    ensures var s := ss[|acts|];
      && (forall p: nat | LastWriterFor(s, c, p) :: Resolve(Choice(s, c)) == s.props[p].value)
      && ((forall p: nat | p < |s.props| && SubscribedTo(s, c, p) :: s.props[p].value == Null) ==>
            Resolve(Choice(s, c)) == Null)
  {
    var s := ss[|acts|];
    GoodRunConverges(ss, acts, |acts|);
    forall p: nat | LastWriterFor(s, c, p)
      ensures Resolve(Choice(s, c)) == s.props[p].value
    {
      DrainedResolves(s, c, p);
    }
    forall p: nat | p < |s.props| && SubscribedTo(s, c, p)
      ensures s.caches[c][p].value == s.props[p].value
    {
      CachedIsCurrent(s, c, p);
    }
  }
}
