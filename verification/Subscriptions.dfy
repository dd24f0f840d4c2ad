/** All handles and all providers of a subscribing process, under every interleaving of user
    threads and the main loop. */
module Subscriptions {
  import opened Provider

  /** A PropertyHandle's subscription state; providers are named by their position. */
  datatype Handle = Handle(count: nat, providers: seq<nat>, pending: set<nat>)

  datatype System = System(providers: seq<State>, handles: map<Key, Handle>)
  {
    function H(k: Key): Handle {
      if k in handles then handles[k] else Handle(0, [], {})
    }
  }

  datatype Action =
    | HandleSubscribes(k: Key)
    | HandleUnsubscribes(k: Key)
    | ProvidersChange(k: Key, providers: seq<nat>)   // registry change, commander comes or goes
    | CallTaken(p: nat)                              // the queued handleSubscribes leaves the queue
    | Flush(p: nat)                                  // handleSubscribes runs
    | BecomesReady(p: nat)
    | Fails(p: nat)
    | SubscribeCallMade(p: nat, k: Key)              // a queued newSubscribe runs
    | ReplyArrives(p: nat, k: Key)

  ghost predicate NoDuplicates(ps: seq<nat>) {
    forall i, j | 0 <= i < j < |ps| :: ps[i] != ps[j]
  }

  predicate InRange(ps: seq<nat>, n: nat) {
    forall i | 0 <= i < |ps| :: ps[i] < n
  }

  ghost predicate Enabled(s: System, a: Action) {
    match a
    case HandleSubscribes(k) => true
    case HandleUnsubscribes(k) => s.H(k).count > 0
    case ProvidersChange(k, ps) => NoDuplicates(ps) && InRange(ps, |s.providers|)
    case CallTaken(p) => p < |s.providers| && s.providers[p].queued
    case Flush(p) => p < |s.providers| && s.providers[p].flushing
    case BecomesReady(p) => p < |s.providers|
    case Fails(p) => p < |s.providers|
    case SubscribeCallMade(p, k) => p < |s.providers| && k in s.providers[p].plugin.calls
    case ReplyArrives(p, k) => p < |s.providers| && k in s.providers[p].plugin.watchers
  }

  /** Subscribing to the listed providers in turn; the second result are those to wait for. */
  function SubscribeAll(ps: seq<State>, list: seq<nat>, k: Key): (r: (seq<State>, set<nat>))
    requires InRange(list, |ps|)
    ensures |r.0| == |ps|
  {
    if |list| == 0 then (ps, {})
    else
      var n := |list| - 1;
      var (qs, pending) := SubscribeAll(ps, list[..n], k);
      var (t, wait) := Subscribe(qs[list[n]], k);
      (qs[list[n] := t], if wait then pending + {list[n]} else pending)
  }

  function UnsubscribeAll(ps: seq<State>, list: seq<nat>, k: Key): (qs: seq<State>)
    requires InRange(list, |ps|)
    ensures |qs| == |ps|
  {
    if |list| == 0 then ps
    else
      var n := |list| - 1;
      var qs := UnsubscribeAll(ps, list[..n], k);
      qs[list[n] := Unsubscribe(qs[list[n]], k)]
  }

  /** subscribeFinished(p, k) reaches the handle of k. */
  function Finished(h: Handle, p: nat): Handle {
    h.(pending := h.pending - {p})
  }

  function FinishedAll(hs: map<Key, Handle>, p: nat, keys: set<Key>): map<Key, Handle> {
    map k | k in hs :: if k in keys then Finished(hs[k], p) else hs[k]
  }

  ghost function Step(s: System, a: Action): (t: System)
    requires Listed(s) && Enabled(s, a)
    ensures |t.providers| == |s.providers|
  {
    match a
    case HandleSubscribes(k) =>
      var h := s.H(k);
      if h.count == 0 then
        var (ps, pending) := SubscribeAll(s.providers, h.providers, k);
        System(ps, s.handles[k := Handle(1, h.providers, pending)])
      else
        s.(handles := s.handles[k := h.(count := h.count + 1)])
    case HandleUnsubscribes(k) =>
      var h := s.H(k);
      if h.count == 1 then
        System(UnsubscribeAll(s.providers, h.providers, k), s.handles[k := Handle(0, h.providers, {})])
      else
        s.(handles := s.handles[k := h.(count := h.count - 1)])
    case ProvidersChange(k, list) =>
      var h := s.H(k);
      if h.count > 0 then
        var (ps, pending) := SubscribeAll(UnsubscribeAll(s.providers, h.providers, k), list, k);
        System(ps, s.handles[k := Handle(h.count, list, pending)])
      else
        s.(handles := s.handles[k := h.(providers := list)])
    case CallTaken(p) => s.(providers := s.providers[p := TakeCall(s.providers[p])])
    case Flush(p) =>
      var (t, finished) := Provider.HandleSubscribes(s.providers[p]);
      System(s.providers[p := t], FinishedAll(s.handles, p, finished))
    case BecomesReady(p) => s.(providers := s.providers[p := PluginReady(s.providers[p])])
    case Fails(p) => s.(providers := s.providers[p := PluginFailed(s.providers[p])])
    case SubscribeCallMade(p, k) =>
      s.(providers := s.providers[p := s.providers[p].(plugin := NewSubscribe(s.providers[p].plugin, k))])
    case ReplyArrives(p, k) =>
      var t := s.(providers := s.providers[p := s.providers[p].(plugin := Reply(s.providers[p].plugin, k))]);
      if k in s.providers[p].subscribedKeys
      then t.(handles := s.handles[k := Finished(s.H(k), p)])
      else t
  }

  // ---------------------------------------------------------------- the invariant

  ghost predicate Listed(s: System) {
    forall k :: NoDuplicates(s.H(k).providers) && InRange(s.H(k).providers, |s.providers|)
  }

  /** A provider is asked for k exactly if a subscribed handle of k lists it. */
  ghost predicate Agreement(s: System) {
    forall p, k | 0 <= p < |s.providers| ::
      k in s.providers[p].subscribedKeys <==> Wants(s.H(k), p)
  }

  predicate Wants(h: Handle, p: nat) {
    h.count > 0 && p in h.providers
  }

  /** Waiting for p is justified: p is wanted, and the subscription is scheduled or under way. */
  ghost predicate Justified(s: System, k: Key, p: nat) {
    && Wants(s.H(k), p) && p < |s.providers|
    && (k in s.providers[p].toSubscribe || InFlight(s.providers[p].plugin, k))
  }

  ghost predicate NoneForgotten(s: System) {
    forall k, p: nat | p in s.H(k).pending :: Justified(s, k, p)
  }

  ghost predicate Invariant(s: System) {
    && Listed(s) && Agreement(s) && NoneForgotten(s)
    && forall p | 0 <= p < |s.providers| :: Sound(s.providers[p])
  }

  // ---------------------------------------------------------------- effect of the two loops

  lemma {:induction false} SubscribeAllEffect(ps: seq<State>, list: seq<nat>, k: Key)
    requires InRange(list, |ps|) && NoDuplicates(list)
    ensures var (qs, pending) := SubscribeAll(ps, list, k);
      && (forall p | 0 <= p < |ps| :: qs[p] == if p in list then Subscribe(ps[p], k).0 else ps[p])
      && (forall p: nat :: p in pending <==> p in list && Subscribe(ps[p], k).1)
  {
    if |list| > 0 {
      var n := |list| - 1;
      assert list == list[..n] + [list[n]];
      SubscribeAllEffect(ps, list[..n], k);
    }
  }

  lemma {:induction false} UnsubscribeAllEffect(ps: seq<State>, list: seq<nat>, k: Key)
    requires InRange(list, |ps|) && NoDuplicates(list)
    ensures var qs := UnsubscribeAll(ps, list, k);
      forall p | 0 <= p < |ps| :: qs[p] == if p in list then Unsubscribe(ps[p], k) else ps[p]
  {
    if |list| > 0 {
      var n := |list| - 1;
      assert list == list[..n] + [list[n]];
      UnsubscribeAllEffect(ps, list[..n], k);
    }
  }

  // ---------------------------------------------------------------- preservation

  /** What a handle of k may do to a provider: end with k wanted or not, and touch nothing else. */
  ghost predicate Adjusted(x: State, y: State, k: Key, wanted: bool, wait: bool) {
    && Sound(y) && y.plugin == x.plugin
    && y.subscribedKeys == (if wanted then x.subscribedKeys + {k} else x.subscribedKeys - {k})
    && (forall j | j in x.toSubscribe && j != k :: j in y.toSubscribe)
    && (wait ==> k in y.toSubscribe)
  }

  lemma HandleKeepsInvariant(s: System, t: System, k: Key)
    requires Invariant(s) && |t.providers| == |s.providers| && t.handles == s.handles[k := t.H(k)]
    requires NoDuplicates(t.H(k).providers) && InRange(t.H(k).providers, |s.providers|)
    requires forall p | 0 <= p < |s.providers| ::
      Adjusted(s.providers[p], t.providers[p], k, Wants(t.H(k), p), p in t.H(k).pending)
    requires forall p | p in t.H(k).pending :: Wants(t.H(k), p)
    ensures Invariant(t)
  {
    assert forall j | j != k :: t.H(j) == s.H(j);
    forall j, p: nat | p in t.H(j).pending
      ensures Justified(t, j, p)
    {
      if j == k {
        assert Wants(t.H(k), p);
        assert Adjusted(s.providers[p], t.providers[p], k, true, true);
      } else {
        assert Justified(s, j, p);
        assert Adjusted(s.providers[p], t.providers[p], k, Wants(t.H(k), p), p in t.H(k).pending);
      }
    }
    forall p, j | 0 <= p < |s.providers|
      ensures j in t.providers[p].subscribedKeys <==> Wants(t.H(j), p)
    {
      assert Adjusted(s.providers[p], t.providers[p], k, Wants(t.H(k), p), p in t.H(k).pending);
      assert j in s.providers[p].subscribedKeys <==> Wants(s.H(j), p);
    }
    forall p | 0 <= p < |t.providers|
      ensures Sound(t.providers[p])
    {
      assert Adjusted(s.providers[p], t.providers[p], k, Wants(t.H(k), p), p in t.H(k).pending);
    }
  }

  lemma SubscribingKeepsInvariant(s: System, k: Key)
    requires Invariant(s)
    ensures Invariant(Step(s, HandleSubscribes(k)))
  {
    var h, t := s.H(k), Step(s, HandleSubscribes(k));
    if h.count == 0 {
      SubscribeAllEffect(s.providers, h.providers, k);
    }
    forall p | 0 <= p < |s.providers|
      ensures Adjusted(s.providers[p], t.providers[p], k, Wants(t.H(k), p), h.count == 0 && p in t.H(k).pending)
      ensures h.count > 0 && p in t.H(k).pending ==>
        k in s.providers[p].toSubscribe || InFlight(s.providers[p].plugin, k)
    {
      assert k in s.providers[p].subscribedKeys <==> Wants(h, p);
      if h.count == 0 && p in h.providers {
        SubscribeIsSound(s.providers[p], k);
      }
      if p in h.pending {
        assert Justified(s, k, p);
      }
    }
    if h.count == 0 {
      HandleKeepsInvariant(s, t, k);
    } else {
      CountingKeepsInvariant(s, t, k);
    }
  }

  /** Only the count changed, and it stayed positive. */
  lemma CountingKeepsInvariant(s: System, t: System, k: Key)
    requires Invariant(s) && s.H(k).count > 0 && t.H(k).count > 0
    requires t == s.(handles := s.handles[k := s.H(k).(count := t.H(k).count)])
    ensures Invariant(t)
  {
    assert forall j | j != k :: t.H(j) == s.H(j);
    forall j, p: nat | p in t.H(j).pending
      ensures Justified(t, j, p)
    {
      assert Justified(s, j, p);
    }
  }

  lemma UnsubscribingKeepsInvariant(s: System, k: Key)
    requires Invariant(s) && s.H(k).count > 0
    ensures Invariant(Step(s, HandleUnsubscribes(k)))
  {
    var h, t := s.H(k), Step(s, HandleUnsubscribes(k));
    if h.count > 1 {
      CountingKeepsInvariant(s, t, k);
    } else {
      UnsubscribeAllEffect(s.providers, h.providers, k);
      forall p | 0 <= p < |s.providers|
        ensures Adjusted(s.providers[p], t.providers[p], k, Wants(t.H(k), p), p in t.H(k).pending)
      {
        assert k in s.providers[p].subscribedKeys <==> Wants(h, p);
        if p in h.providers {
          UnsubscribeIsSound(s.providers[p], k);
        }
      }
      HandleKeepsInvariant(s, t, k);
    }
  }

  lemma ChangingProvidersKeepsInvariant(s: System, k: Key, list: seq<nat>)
    requires Invariant(s) && Enabled(s, ProvidersChange(k, list))
    ensures Invariant(Step(s, ProvidersChange(k, list)))
  {
    var h, t := s.H(k), Step(s, ProvidersChange(k, list));
    var mid := if h.count > 0 then UnsubscribeAll(s.providers, h.providers, k) else s.providers;
    if h.count > 0 {
      UnsubscribeAllEffect(s.providers, h.providers, k);
      SubscribeAllEffect(mid, list, k);
    }
    assert h.count == 0 ==> h.pending == {} by {
      forall p | p in h.pending ensures h.count > 0 {
        assert Justified(s, k, p);
      }
    }
    forall p | 0 <= p < |s.providers|
      ensures Adjusted(s.providers[p], t.providers[p], k, Wants(t.H(k), p), p in t.H(k).pending)
    {
      assert k in s.providers[p].subscribedKeys <==> Wants(h, p);
      if h.count > 0 && p in h.providers {
        UnsubscribeIsSound(s.providers[p], k);
      }
      if h.count > 0 && p in list {
        SubscribeIsSound(mid[p], k);
      }
    }
    HandleKeepsInvariant(s, t, k);
  }

  /** One provider moved on its own; what it finished, its handles have been told. */
  lemma ProviderKeepsInvariant(s: System, t: System, p: nat)
    requires Invariant(s) && p < |s.providers| && |t.providers| == |s.providers|
    requires Sound(t.providers[p]) && t.providers == s.providers[p := t.providers[p]]
    requires t.providers[p].subscribedKeys == s.providers[p].subscribedKeys
    requires forall k :: t.H(k) == s.H(k) || t.H(k) == Finished(s.H(k), p)
    requires forall k | p in t.H(k).pending ::
      k in t.providers[p].toSubscribe || InFlight(t.providers[p].plugin, k)
    ensures Invariant(t)
  {
    forall j, q: nat | q in t.H(j).pending
      ensures Justified(t, j, q)
    {
      assert Justified(s, j, q);
    }
    forall q, j | 0 <= q < |t.providers|
      ensures j in t.providers[q].subscribedKeys <==> Wants(t.H(j), q)
    {
      assert j in s.providers[q].subscribedKeys <==> Wants(s.H(j), q);
    }
  }

  lemma FlushReportsFinished(s: System, p: nat, k: Key)
    requires Invariant(s) && Enabled(s, Flush(p))
    ensures var t := Step(s, Flush(p));
      && t.H(k) == (if k in s.handles && k in Provider.HandleSubscribes(s.providers[p]).1
                    then Finished(s.H(k), p) else s.H(k))
      && (p in t.H(k).pending ==>
            k in t.providers[p].toSubscribe || InFlight(t.providers[p].plugin, k))
  {
    if p in s.H(k).pending {
      assert Justified(s, k, p);
      FlushForgetsNothing(s.providers[p], k);
    }
  }

  lemma FlushKeepsInvariant(s: System, p: nat)
    requires Invariant(s) && Enabled(s, Flush(p))
    ensures Invariant(Step(s, Flush(p)))
  {
    var t := Step(s, Flush(p));
    FlushIsSound(s.providers[p]);
    forall k
      ensures t.H(k) == s.H(k) || t.H(k) == Finished(s.H(k), p)
      ensures p in t.H(k).pending ==> k in t.providers[p].toSubscribe || InFlight(t.providers[p].plugin, k)
    {
      FlushReportsFinished(s, p, k);
    }
    ProviderKeepsInvariant(s, t, p);
  }

  lemma ReadyKeepsInvariant(s: System, p: nat)
    requires Invariant(s) && Enabled(s, BecomesReady(p))
    ensures Invariant(Step(s, BecomesReady(p)))
  {
    var t := Step(s, BecomesReady(p));
    ReadyIsSound(s.providers[p]);
    forall k | p in t.H(k).pending
      ensures k in t.providers[p].toSubscribe || InFlight(t.providers[p].plugin, k)
    {
      assert Justified(s, k, p);
      assert k in s.providers[p].subscribedKeys;
    }
    ProviderKeepsInvariant(s, t, p);
  }

  lemma EventKeepsInvariant(s: System, a: Action)
    requires Invariant(s) && Enabled(s, a)
    requires a.CallTaken? || a.Fails? || a.SubscribeCallMade?
    ensures Invariant(Step(s, a))
  {
    var t := Step(s, a);
    var x := s.providers[a.p];
    match a {
      case CallTaken(p) => EventLoopIsSound(x, "");
      case Fails(p) => FailureIsSound(x);
      case SubscribeCallMade(p, k) => EventLoopIsSound(x, k);
    }
    forall k | a.p in t.H(k).pending
      ensures k in t.providers[a.p].toSubscribe || InFlight(t.providers[a.p].plugin, k)
    {
      assert Justified(s, k, a.p);
      if a.SubscribeCallMade? && InFlight(x.plugin, k) {
        NewSubscribeForgetsNothing(x.plugin, a.k, k);
      }
    }
    ProviderKeepsInvariant(s, t, a.p);
  }

  lemma ReplyKeepsInvariant(s: System, p: nat, k: Key)
    requires Invariant(s) && Enabled(s, ReplyArrives(p, k))
    ensures Invariant(Step(s, ReplyArrives(p, k)))
  {
    var t := Step(s, ReplyArrives(p, k));
    EventLoopIsSound(s.providers[p], k);
    assert k in s.providers[p].subscribedKeys <==> Wants(s.H(k), p);
    forall j | p in t.H(j).pending
      ensures j in t.providers[p].toSubscribe || InFlight(t.providers[p].plugin, j)
    {
      assert Justified(s, j, p);
      if j != k && InFlight(s.providers[p].plugin, j) {
        ReplyForgetsNothingElse(s.providers[p].plugin, k, j);
      }
    }
    ProviderKeepsInvariant(s, t, p);
  }

  lemma StepKeepsInvariant(s: System, a: Action)
    requires Invariant(s) && Enabled(s, a)
    ensures Invariant(Step(s, a))
  {
    match a
    case HandleSubscribes(k) => SubscribingKeepsInvariant(s, k);
    case HandleUnsubscribes(k) => UnsubscribingKeepsInvariant(s, k);
    case ProvidersChange(k, list) => ChangingProvidersKeepsInvariant(s, k, list);
    case Flush(p) => FlushKeepsInvariant(s, p);
    case BecomesReady(p) => ReadyKeepsInvariant(s, p);
    case ReplyArrives(p, k) => ReplyKeepsInvariant(s, p, k);
    case _ => EventKeepsInvariant(s, a);
  }

  // ---------------------------------------------------------------- theorems over runs

  ghost predicate Run(ss: seq<System>, acts: seq<Action>) {
    && |ss| == |acts| + 1
    && ss[0].handles == map[] && (forall p | 0 <= p < |ss[0].providers| :: ss[0].providers[p] == Fresh())
    && forall i | 0 <= i < |acts| ::
         Listed(ss[i]) && Enabled(ss[i], acts[i]) && ss[i + 1] == Step(ss[i], acts[i])
  }

  lemma {:induction false} EveryRunKeepsInvariant(ss: seq<System>, acts: seq<Action>, i: nat)
    requires Run(ss, acts) && i <= |acts|
    ensures Invariant(ss[i])
  {
    if i > 0 {
      EveryRunKeepsInvariant(ss, acts, i - 1);
      StepKeepsInvariant(ss[i - 1], acts[i - 1]);
    }
  }

  /** How often the handle of k was subscribed minus how often it was unsubscribed. */
  function Balance(acts: seq<Action>, k: Key): int {
    if |acts| == 0 then 0
    else
      var n := |acts| - 1;
      Balance(acts[..n], k) +
      match acts[n]
      case HandleSubscribes(j) => if j == k then 1 else 0
      case HandleUnsubscribes(j) => if j == k then -1 else 0
      case _ => 0
  }

  /** The providers that the handle of k was given last. */
  function LastGiven(acts: seq<Action>, k: Key): seq<nat> {
    if |acts| == 0 then []
    else
      var n := |acts| - 1;
      match acts[n]
      case ProvidersChange(j, list) => if j == k then list else LastGiven(acts[..n], k)
      case _ => LastGiven(acts[..n], k)
  }

  /** Each step counts a subscription of its own key and no other. */
  lemma StepCounts(s: System, a: Action, k: Key)
    requires Listed(s) && Enabled(s, a)
    ensures Step(s, a).H(k).count ==
      s.H(k).count + if a == HandleSubscribes(k) then 1 else if a == HandleUnsubscribes(k) then -1 else 0
    ensures Step(s, a).H(k).providers ==
      if a.ProvidersChange? && a.k == k then a.providers else s.H(k).providers
  {
    hide SubscribeAll, UnsubscribeAll, Provider.HandleSubscribes, Listed;
  }

  /** In every run a handle's count is the number of its subscriptions that were not taken back, and it
      lists the providers it was given last. */
  lemma {:induction false} HandlesCount(ss: seq<System>, acts: seq<Action>, i: nat, k: Key)
    requires Run(ss, acts) && i <= |acts|
    ensures ss[i].H(k).count == Balance(acts[..i], k)
    ensures ss[i].H(k).providers == LastGiven(acts[..i], k)
  {
    if i > 0 {
      HandlesCount(ss, acts, i - 1, k);
      StepCounts(ss[i - 1], acts[i - 1], k);
      assert acts[..i][..i - 1] == acts[..i - 1];
    }
  }

  /** Hence a provider is asked for a key exactly if the key was subscribed more often than unsubscribed
      and the provider is on the list given last. */
  lemma AskedByBalance(ss: seq<System>, acts: seq<Action>, i: nat, p: nat, k: Key)
    requires Run(ss, acts) && i <= |acts| && p < |ss[i].providers|
    ensures Balance(acts[..i], k) >= 0
    ensures k in ss[i].providers[p].subscribedKeys <==> Balance(acts[..i], k) > 0 && p in LastGiven(acts[..i], k)
  {
    EveryRunKeepsInvariant(ss, acts, i);
    HandlesCount(ss, acts, i, k);
    assert k in ss[i].providers[p].subscribedKeys <==> Wants(ss[i].H(k), p);
  }

  /** The step makes the handle of k wait for provider p: it subscribes to it, and not just by taking back
      an unsubscription that was scheduled. */
  ghost predicate StartsWaiting(s: System, a: Action, k: Key, p: nat)
    requires p < |s.providers|
  {
    var h, x := s.H(k), s.providers[p];
    match a
    case HandleSubscribes(j) => j == k && h.count == 0 && p in h.providers && k !in x.toUnsubscribe
    case ProvidersChange(j, list) =>
      && j == k && h.count > 0 && p in list
      && if p in h.providers then k in x.toSubscribe else k !in x.toUnsubscribe
    case _ => false
  }

  /** The step ends all waiting of the handle of k for provider p: a failed plugin gives up, the reply
      has come, or the handle has no more use for it. */
  ghost predicate StopsWaiting(s: System, a: Action, k: Key, p: nat)
    requires p < |s.providers|
  {
    var h, x := s.H(k), s.providers[p];
    match a
    case HandleUnsubscribes(j) => j == k && h.count == 1
    case ProvidersChange(j, list) => j == k && h.count > 0
    case Flush(q) => q == p && x.pluginState == Failed && k in x.toSubscribe
    case ReplyArrives(q, j) => q == p && j == k && k in x.subscribedKeys
    case _ => false
  }

  lemma ChangeWaits(s: System, k: Key, list: seq<nat>, p: nat)
    requires Invariant(s) && Enabled(s, ProvidersChange(k, list)) && p < |s.providers| && s.H(k).count > 0
    ensures p in Step(s, ProvidersChange(k, list)).H(k).pending <==> StartsWaiting(s, ProvidersChange(k, list), k, p)
  {
    var h := s.H(k);
    var mid := UnsubscribeAll(s.providers, h.providers, k);
    UnsubscribeAllEffect(s.providers, h.providers, k);
    SubscribeAllEffect(mid, list, k);
    assert Sound(s.providers[p]) && (k in s.providers[p].subscribedKeys <==> Wants(h, p));
  }

  lemma SubscribingWaits(s: System, k: Key, p: nat)
    requires Invariant(s) && p < |s.providers| && s.H(k).count == 0
    ensures p in Step(s, HandleSubscribes(k)).H(k).pending <==> StartsWaiting(s, HandleSubscribes(k), k, p)
    ensures p !in s.H(k).pending
  {
    SubscribeAllEffect(s.providers, s.H(k).providers, k);
    assert p in s.H(k).pending ==> Justified(s, k, p);
  }

  /** Each step changes what is waited for in these cases and no others. */
  lemma StepWaits(s: System, a: Action, k: Key, p: nat)
    requires Invariant(s) && Enabled(s, a) && p < |s.providers|
    ensures p in Step(s, a).H(k).pending <==>
      StartsWaiting(s, a, k, p) || (p in s.H(k).pending && !StopsWaiting(s, a, k, p))
  {
    if a.ProvidersChange? && a.k == k && s.H(k).count > 0 {
      ChangeWaits(s, k, a.providers, p);
    } else if a == HandleSubscribes(k) && s.H(k).count == 0 {
      SubscribingWaits(s, k, p);
    } else {
      hide SubscribeAll, UnsubscribeAll, Invariant;
    }
  }

  /** The waiting began before step i and has not ended since. */
  ghost predicate WaitsSince(ss: seq<System>, acts: seq<Action>, i: nat, k: Key, p: nat)
    requires |ss| > |acts| >= i && forall j | 0 <= j < |ss| :: p < |ss[j].providers|
  {
    exists j | 0 <= j < i :: StartsWaiting(ss[j], acts[j], k, p) &&
      forall l | j < l < i :: !StopsWaiting(ss[l], acts[l], k, p)
  }

  lemma {:induction false} SameProviders(ss: seq<System>, acts: seq<Action>, i: nat)
    requires Run(ss, acts) && i <= |acts|
    ensures |ss[i].providers| == |ss[0].providers|
  {
    hide Step;
    if i > 0 { SameProviders(ss, acts, i - 1); }
  }

  /** In every run a handle waits for a provider exactly if a step has made it wait and none has ended
      that. */
  lemma {:induction false} WaitingIsExact(ss: seq<System>, acts: seq<Action>, i: nat, k: Key, p: nat)
    requires Run(ss, acts) && i <= |acts| && p < |ss[0].providers|
    ensures forall j | 0 <= j < |ss| :: p < |ss[j].providers|
    ensures p in ss[i].H(k).pending <==> WaitsSince(ss, acts, i, k, p)
    decreases i
  {
    hide Step, StartsWaiting, StopsWaiting, Invariant;
    forall j | 0 <= j < |ss| ensures p < |ss[j].providers| {
      SameProviders(ss, acts, j);
    }
    if i > 0 {
      WaitingIsExact(ss, acts, i - 1, k, p);
      EveryRunKeepsInvariant(ss, acts, i - 1);
      StepWaits(ss[i - 1], acts[i - 1], k, p);
    }
  }

  /** No lost wake-up: a handle only waits for providers it lists while it is subscribed, whose
      subscription is scheduled or under way; and scheduled work outside the initial state always
      has a handleSubscribes call coming. */
  lemma NoLostWakeup(ss: seq<System>, acts: seq<Action>, i: nat)
    requires Run(ss, acts) && i <= |acts|
    ensures forall k, p: nat | p in ss[i].H(k).pending ::
      && ss[i].H(k).count > 0 && p in ss[i].H(k).providers && p < |ss[i].providers|
      && (k in ss[i].providers[p].toSubscribe || InFlight(ss[i].providers[p].plugin, k))
    ensures forall p | 0 <= p < |ss[i].providers| ::
      var x := ss[i].providers[p];
      x.pluginState != Initializing && x.toSubscribe + x.toUnsubscribe != {} ==> x.queued || x.flushing
  {
    EveryRunKeepsInvariant(ss, acts, i);
    forall k, p: nat | p in ss[i].H(k).pending
      ensures Justified(ss[i], k, p)
    {
    }
  }

  /** The main loop has nothing left to do and every call has been answered. */
  ghost predicate Idle(s: System) {
    forall p | 0 <= p < |s.providers| ::
      var x := s.providers[p];
      && x.pluginState != Initializing && !x.queued && !x.flushing
      && x.plugin.calls == multiset{} && x.plugin.watchers == multiset{}
  }

  lemma NobodyPending(s: System, k: Key)
    requires Invariant(s) && Idle(s)
    ensures s.H(k).pending == {}
  {
    forall p: nat | p < |s.providers|
      ensures !Justified(s, k, p)
    {
      assert Sound(s.providers[p]);
    }
    assert forall p: nat | p in s.H(k).pending :: Justified(s, k, p);
  }
}
