/** The subscriber's side of one provider: intentions, batching and the plugin behind it. */
module Provider {
  import opened ObjectPaths
  import opened Options

  type Key = string

  datatype PluginState = Initializing | Ready | Failed

  /** The plugin: `wire` is what it has been told to keep subscribed since it last became ready,
      `bus` the keys for which its own last D-Bus call since it last failed was Subscribe, `paths` the
      object paths of which that is true, `routes` the keys to which signals from a path are passed on
      (objectPathToKey), `pendingKeys` and `calls` the Subscribe calls still to be made (calls: queued newSubscribe
      invocations), `watchers` the Subscribe calls waiting for their reply, `registered` those
      recorded in pendingWatchers. */
  datatype Plugin = Plugin(
    wire: set<Key>, bus: set<Key>, paths: set<string>, routes: map<string, Key>,
    pendingKeys: set<Key>, calls: multiset<Key>, watchers: multiset<Key>, registered: set<Key>)

  function PluginSubscribe(g: Plugin, keys: set<Key>): Plugin {
    g.(wire := g.wire + keys, pendingKeys := g.pendingKeys + keys, calls := g.calls + multiset(keys))
  }

  function Paths(keys: set<Key>): set<string> {
    set k | k in keys :: KeyToPath(k)
  }

  /** The calls are made at once, also for keys whose Subscribe call is still queued. */
  function PluginUnsubscribe(g: Plugin, keys: set<Key>): Plugin {
    g.(wire := g.wire - keys, bus := g.bus - keys, paths := g.paths - Paths(keys), routes := g.routes - Paths(keys))
  }

  /** The service is gone, and all subscriptions with it; queued calls stay queued. */
  function PluginReset(g: Plugin): Plugin {
    g.(wire := {}, bus := {}, paths := {})
  }

  /** The event loop runs one queued newSubscribe call. */
  function NewSubscribe(g: Plugin, k: Key): Plugin
    requires k in g.calls
  {
    var h := g.(calls := g.calls - multiset{k});
    if k !in g.pendingKeys then h
    else h.(bus := g.bus + {k}, paths := g.paths + {KeyToPath(k)}, routes := g.routes[KeyToPath(k) := k],
            pendingKeys := g.pendingKeys - {k}, watchers := g.watchers + multiset{k},
            registered := g.registered + {k})
  }

  /** One outstanding Subscribe call is answered, with a value or an error. */
  function Reply(g: Plugin, k: Key): Plugin
    requires k in g.watchers
  {
    g.(watchers := g.watchers - multiset{k}, registered := g.registered - {k})
  }

  /** The key to which a signal from the path is passed on. */
  function Route(g: Plugin, path: string): Option<Key> {
    if path in g.routes then Some(g.routes[path]) else None
  }

  predicate InFlight(g: Plugin, k: Key) {
    k in g.pendingKeys || k in g.watchers
  }

  /** Every pending key has a call queued for it, every registered watcher is outstanding, and every
      key on the wire is on the bus or will be. */
  ghost predicate PluginSound(g: Plugin) {
    && (forall k | k in g.pendingKeys :: k in g.calls)
    && (forall k | k in g.registered :: k in g.watchers)
    && g.wire - g.pendingKeys <= g.bus
  }

  /** `queued`: a handleSubscribes call is queued; `flushing`: one is about to run. */
  datatype State = State(
    pluginState: PluginState, toSubscribe: set<Key>, toUnsubscribe: set<Key>,
    subscribedKeys: set<Key>, queued: bool, flushing: bool, plugin: Plugin)

  function Fresh(): State {
    State(Initializing, {}, {}, {}, false, false, Plugin({}, {}, {}, map[], {}, multiset{}, multiset{}, {}))
  }

  /** The result tells whether the main loop has to run to finish the subscription. */
  function Subscribe(s: State, k: Key): (State, bool) {
    var t := s.(subscribedKeys := s.subscribedKeys + {k});
    if k in s.toUnsubscribe
    then (t.(toUnsubscribe := s.toUnsubscribe - {k}), false)
    else (t.(toSubscribe := s.toSubscribe + {k}, queued := true), true)
  }

  function Unsubscribe(s: State, k: Key): State {
    var t := s.(subscribedKeys := s.subscribedKeys - {k});
    if k in s.toSubscribe
    then t.(toSubscribe := s.toSubscribe - {k})
    else t.(toUnsubscribe := s.toUnsubscribe + {k}, queued := true)
  }

  /** The queued call leaves the queue; from here on it is about to run. */
  function TakeCall(s: State): State {
    s.(queued := false, flushing := true)
  }

  function PluginReady(s: State): State {
    if s.pluginState == Ready then s
    else s.(toUnsubscribe := {}, toSubscribe := s.subscribedKeys, pluginState := Ready, flushing := true)
  }

  /** A failed plugin has nothing on the wire any more; answers under way may still arrive. */
  function PluginFailed(s: State): State {
    s.(pluginState := Failed, flushing := true, plugin := PluginReset(s.plugin))
  }

  /** The state after the call, and the keys for which subscribeFinished is signalled at once. */
  function HandleSubscribes(s: State): (State, set<Key>) {
    var t := s.(flushing := false);
    match s.pluginState
    case Ready =>
      (t.(toSubscribe := {}, toUnsubscribe := {},
          plugin := PluginUnsubscribe(PluginSubscribe(s.plugin, s.toSubscribe), s.toUnsubscribe)), {})
    case Failed =>
      (t.(toSubscribe := {}, toUnsubscribe := {}), s.toSubscribe)
    case Initializing =>
      (t, {})
  }

  // ---------------------------------------------------------------- what every step keeps

  /** The two batches are exactly the difference between the intention and the wire, and whenever
      there is something to do, a handleSubscribes call is coming. */
  ghost predicate Sound(s: State) {
    && (s.pluginState != Failed ==>
          && s.toSubscribe == s.subscribedKeys - s.plugin.wire
          && s.toUnsubscribe == s.plugin.wire - s.subscribedKeys)
    && (s.pluginState == Failed ==> s.toSubscribe <= s.subscribedKeys && s.toUnsubscribe !! s.subscribedKeys)
    && (s.pluginState != Ready ==> s.plugin.wire == {})
    && (s.pluginState != Initializing && s.toSubscribe + s.toUnsubscribe != {} ==> s.queued || s.flushing)
    && PluginSound(s.plugin)
  }

  lemma SubscribeIsSound(s: State, k: Key)
    requires Sound(s) && k !in s.subscribedKeys
    ensures var (t, wait) := Subscribe(s, k);
      && Sound(t) && t.subscribedKeys == s.subscribedKeys + {k} && t.plugin == s.plugin
      && (wait <==> k in t.toSubscribe) && (wait <==> k !in s.toUnsubscribe)
      && (forall j | j in s.toSubscribe :: j in t.toSubscribe)
  {
  }

  lemma UnsubscribeIsSound(s: State, k: Key)
    requires Sound(s) && k in s.subscribedKeys
    ensures var t := Unsubscribe(s, k);
      && Sound(t) && t.subscribedKeys == s.subscribedKeys - {k} && t.plugin == s.plugin
      && (forall j | j in s.toSubscribe && j != k :: j in t.toSubscribe)
  {
  }

  lemma ReadyIsSound(s: State)
    requires Sound(s)
    ensures Sound(PluginReady(s))
  {
  }

  lemma FailureIsSound(s: State)
    requires Sound(s)
    ensures Sound(PluginFailed(s))
  {
  }

  lemma FlushIsSound(s: State)
    requires Sound(s)
    ensures Sound(HandleSubscribes(s).0)
  {
    var t := HandleSubscribes(s).0;
    assert PluginSound(t.plugin);
    if s.pluginState == Ready {
      assert t.plugin.wire == s.subscribedKeys;
    }
  }

  lemma EventLoopIsSound(s: State, k: Key)
    requires Sound(s)
    ensures s.queued ==> Sound(TakeCall(s))
    ensures k in s.plugin.calls ==> Sound(s.(plugin := NewSubscribe(s.plugin, k)))
    ensures k in s.plugin.watchers ==> Sound(s.(plugin := Reply(s.plugin, k)))
  {
    if k in s.plugin.calls {
      assert PluginSound(NewSubscribe(s.plugin, k));
    }
    if k in s.plugin.watchers {
      assert PluginSound(Reply(s.plugin, k));
    }
  }

  /** Nothing that was scheduled or under way is forgotten: it is finished, or still so. */
  lemma FlushForgetsNothing(s: State, k: Key)
    requires k in s.toSubscribe || InFlight(s.plugin, k)
    ensures var (t, finished) := HandleSubscribes(s);
      k in finished || k in t.toSubscribe || InFlight(t.plugin, k)
  {
  }

  lemma NewSubscribeForgetsNothing(g: Plugin, j: Key, k: Key)
    requires j in g.calls && InFlight(g, k)
    ensures InFlight(NewSubscribe(g, j), k)
  {
  }

  lemma ReplyForgetsNothingElse(g: Plugin, j: Key, k: Key)
    requires j in g.watchers && InFlight(g, k) && j != k
    ensures InFlight(Reply(g, j), k)
  {
  }

  // ---------------------------------------------------------------- batching is exact

  datatype Request = Sub(key: Key) | Unsub(key: Key)

  /** The requests in order, before any flush. */
  function Batch(s: State, rs: seq<Request>): State {
    if |rs| == 0 then s
    else
      var t := Batch(s, rs[..|rs| - 1]);
      match rs[|rs| - 1]
      case Sub(k) => Subscribe(t, k).0
      case Unsub(k) => Unsubscribe(t, k)
  }

  /** The set of subscriptions if every request took effect at once. */
  function AtOnce(w: set<Key>, rs: seq<Request>): set<Key> {
    if |rs| == 0 then w
    else
      var u := AtOnce(w, rs[..|rs| - 1]);
      match rs[|rs| - 1]
      case Sub(k) => u + {k}
      case Unsub(k) => u - {k}
  }

  /** No key is subscribed twice or unsubscribed twice in a row. */
  ghost predicate Alternating(w: set<Key>, rs: seq<Request>) {
    forall i | 0 <= i < |rs| :: rs[i].Sub? <==> rs[i].key !in AtOnce(w, rs[..i])
  }

  lemma {:induction false} BatchIsSound(s: State, rs: seq<Request>)
    requires Sound(s) && Alternating(s.subscribedKeys, rs)
    ensures Sound(Batch(s, rs)) && Batch(s, rs).plugin == s.plugin
    ensures Batch(s, rs).pluginState == s.pluginState
    ensures Batch(s, rs).subscribedKeys == AtOnce(s.subscribedKeys, rs)
    decreases |rs|
  {
    if |rs| > 0 {
      var n := |rs| - 1;
      forall i | 0 <= i < n
        ensures rs[..n][i].Sub? <==> rs[..n][i].key !in AtOnce(s.subscribedKeys, rs[..n][..i])
      {
        assert rs[..n][..i] == rs[..i];
      }
      BatchIsSound(s, rs[..n]);
      var t := Batch(s, rs[..n]);
      match rs[n]
      case Sub(k) => SubscribeIsSound(t, k);
      case Unsub(k) => UnsubscribeIsSound(t, k);
    }
  }

  /** One flush in the ready state leaves on the wire what the requests would have left there one
      by one, asks the plugin for exactly the net changes, and leaves nothing to do. */
  lemma BatchingIsExact(s: State, rs: seq<Request>)
    requires Sound(s) && s.pluginState == Ready && Alternating(s.subscribedKeys, rs)
    ensures var b := Batch(s, rs);
      var t := HandleSubscribes(b).0;
      && t.plugin.wire == AtOnce(s.subscribedKeys, rs) == t.subscribedKeys
      && b.toSubscribe == AtOnce(s.subscribedKeys, rs) - s.plugin.wire
      && b.toUnsubscribe == s.plugin.wire - AtOnce(s.subscribedKeys, rs)
      && t.toSubscribe == t.toUnsubscribe == {}
  {
    BatchIsSound(s, rs);
  }

  /** Whatever is requested before a failure, during it, and up to the next ready, the flush that
      follows ready restores the wire to the intention. */
  lemma FailureIsRepaired(s: State, rs: seq<Request>, qs: seq<Request>, flushed: bool)
    requires Sound(s) && Alternating(s.subscribedKeys, rs)
    requires Alternating(AtOnce(s.subscribedKeys, rs), qs)
    ensures var f := PluginFailed(Batch(s, rs));
      var g := Batch(if flushed then HandleSubscribes(f).0 else f, qs);
      var t := HandleSubscribes(PluginReady(g)).0;
      t.plugin.wire == t.subscribedKeys == AtOnce(AtOnce(s.subscribedKeys, rs), qs)
  {
    BatchIsSound(s, rs);
    var b := Batch(s, rs);
    FailureIsSound(b);
    var f := PluginFailed(b);
    FlushIsSound(f);
    var f' := if flushed then HandleSubscribes(f).0 else f;
    BatchIsSound(f', qs);
    var g := PluginReady(Batch(f', qs));
    ReadyIsSound(Batch(f', qs));
    FlushIsSound(g);
  }

  function RepeatUnsubscribe(s: State, k: Key, n: nat): State {
    if n == 0 then s else Unsubscribe(RepeatUnsubscribe(s, k, n - 1), k)
  }

  lemma {:induction false} RepeatedUnsubscribe(s: State, k: Key, n: nat)
    requires k in s.toSubscribe
    ensures var t := Unsubscribe(s, k);
      RepeatUnsubscribe(s, k, n) == if n == 0 then s else if n == 1 then t
                         else t.(toUnsubscribe := s.toUnsubscribe + {k}, queued := true)
  {
    if n > 0 {
      RepeatedUnsubscribe(s, k, n - 1);
      assert s.toUnsubscribe + {k} + {k} == s.toUnsubscribe + {k};
    }
  }

  /** A handle that lists the provider n times unsubscribes n times.  That breaks the batches exactly
      if n is more than one and the key is scheduled but not on the wire, unless the plugin has
      failed; once ready, the next subscribe then only cancels a bogus unsubscription and the key is
      lost. */
  lemma DuplicateUnsubscribing(s: State, k: Key, n: nat)
    requires Sound(s) && k in s.subscribedKeys
    ensures Sound(RepeatUnsubscribe(s, k, n)) <==> n <= 1 || k !in s.toSubscribe || s.pluginState == Failed
    ensures n >= 2 && k in s.toSubscribe && s.pluginState == Ready ==>
      var (t, wait) := Subscribe(RepeatUnsubscribe(s, k, n), k);
      !wait && k in t.subscribedKeys && k !in HandleSubscribes(t).0.plugin.wire
  {
    UnsubscribeIsSound(s, k);
    if k in s.toSubscribe {
      RepeatedUnsubscribe(s, k, n);
      if n >= 2 && s.pluginState != Failed {
        var t := RepeatUnsubscribe(s, k, n);
        assert k in t.toUnsubscribe && k !in t.plugin.wire;
      }
    } else {
      RepeatedOnWire(s, k, n);
    }
  }

  lemma {:induction false} RepeatedOnWire(s: State, k: Key, n: nat)
    requires k !in s.toSubscribe
    ensures RepeatUnsubscribe(s, k, n) == if n == 0 then s else Unsubscribe(s, k)
  {
    if n > 0 {
      RepeatedOnWire(s, k, n - 1);
    }
  }

  function RepeatSubscribe(s: State, k: Key, n: nat): State {
    if n == 0 then s else Subscribe(RepeatSubscribe(s, k, n - 1), k).0
  }

  lemma {:induction false} RepeatedSubscribe(s: State, k: Key, n: nat)
    ensures RepeatSubscribe(s, k, n) ==
      if n == 0 then s
      else if n == 1 || k !in s.toUnsubscribe then Subscribe(s, k).0
      else Subscribe(s, k).0.(toSubscribe := s.toSubscribe + {k}, queued := true)
  {
    if n > 0 {
      RepeatedSubscribe(s, k, n - 1);
      assert s.toSubscribe + {k} + {k} == s.toSubscribe + {k};
      assert s.subscribedKeys + {k} + {k} == s.subscribedKeys + {k};
    }
  }

  /** A handle that lists the provider n times also subscribes n times.  That breaks the batches exactly
      if n is more than one and the key was about to be unsubscribed, unless the plugin has failed; once
      ready, the handle is then told to wait, and the next flush makes a Subscribe call for a key that
      has been on the wire all along. */
  lemma DuplicateSubscribing(s: State, k: Key, n: nat)
    requires Sound(s) && k !in s.subscribedKeys
    ensures Sound(RepeatSubscribe(s, k, n)) <==> n <= 1 || k !in s.toUnsubscribe || s.pluginState == Failed
    ensures n >= 2 && k in s.toUnsubscribe && s.pluginState == Ready ==>
      var t := HandleSubscribes(RepeatSubscribe(s, k, n)).0;
      && Subscribe(RepeatSubscribe(s, k, n - 1), k).1
      && k in s.plugin.wire && k in t.plugin.wire
      && k in t.plugin.pendingKeys && t.plugin.calls[k] == s.plugin.calls[k] + 1
  {
    SubscribeIsSound(s, k);
    RepeatedSubscribe(s, k, n);
    if n >= 2 {
      RepeatedSubscribe(s, k, n - 1);
      if k in s.toUnsubscribe && s.pluginState != Failed {
        assert k in s.plugin.wire && k in RepeatSubscribe(s, k, n).toSubscribe;
      }
    }
  }
}
