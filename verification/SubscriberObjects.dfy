/** The objects of the subscriber library, method by method, against the functions of `Provider`,
    `Subscriptions` and `Resolution`. */
module SubscriberObjects {
  import opened Variants
  import P = Provider
  import S = Subscriptions
  import opened ObjectPaths
  import opened Options
  import opened Resolution

  type Key = P.Key

  lemma OneLess(keys: set<Key>, k: Key)
    requires k in keys
    ensures multiset(keys) == multiset{k} + multiset(keys - {k})
  {
  }

  /** Subscribing key by key is subscribing all. */
  lemma SubscribeOne(g: P.Plugin, keys: set<Key>, k: Key)
    requires k in keys
    ensures P.PluginSubscribe(
      g.(wire := g.wire + {k}, pendingKeys := g.pendingKeys + {k}, calls := g.calls + multiset{k}), keys - {k}) ==
      P.PluginSubscribe(g, keys)
  {
    OneLess(keys, k);
    assert g.wire + {k} + (keys - {k}) == g.wire + keys;
    assert g.pendingKeys + {k} + (keys - {k}) == g.pendingKeys + keys;
    assert g.calls + multiset{k} + multiset(keys - {k}) == g.calls + multiset(keys);
  }

  /** Unsubscribing key by key is unsubscribing all. */
  lemma UnsubscribeOne(g: P.Plugin, keys: set<Key>, k: Key)
    requires k in keys
    ensures P.PluginUnsubscribe(
      g.(wire := g.wire - {k}, bus := g.bus - {k},
         paths := g.paths - {KeyToPath(k)}, routes := g.routes - {KeyToPath(k)}),
      keys - {k}) == P.PluginUnsubscribe(g, keys)
  {
    assert P.Paths(keys) == {KeyToPath(k)} + P.Paths(keys - {k});
    assert g.wire - {k} - (keys - {k}) == g.wire - keys;
    assert g.bus - {k} - (keys - {k}) == g.bus - keys;
    assert g.paths - {KeyToPath(k)} - P.Paths(keys - {k}) == g.paths - P.Paths(keys);
    assert g.routes - {KeyToPath(k)} - P.Paths(keys - {k}) == g.routes - P.Paths(keys);
  }

  lemma NewSubscribeFields(g: P.Plugin, k: Key)
    requires k in g.calls
    ensures P.NewSubscribe(g, k) ==
      if k !in g.pendingKeys
      then P.Plugin(g.wire, g.bus, g.paths, g.routes, g.pendingKeys, g.calls - multiset{k}, g.watchers, g.registered)
      else P.Plugin(g.wire, g.bus + {k}, g.paths + {KeyToPath(k)}, g.routes[KeyToPath(k) := k], g.pendingKeys - {k},
                    g.calls - multiset{k}, g.watchers + multiset{k}, g.registered + {k})
  {
  }

  lemma NoKeysNoChange(g: P.Plugin)
    ensures P.PluginSubscribe(g, {}) == g && P.PluginUnsubscribe(g, {}) == g
  {
  }

  class ContextKitPlugin {
    var pendingKeys: set<Key>
    var pendingWatchers: set<Key>
    var calls: multiset<Key>      // queued newSubscribe invocations
    var watchers: multiset<Key>   // Subscribe calls without a reply
    var objectPathToKey: map<string, Key>
    ghost var wire: set<Key>      // told to keep since ready
    ghost var bus: set<Key>       // last called Subscribe on D-Bus
    ghost var paths: set<string>  // object paths last called Subscribe, and listened to

    ghost function View(): P.Plugin
      reads this
    {
      P.Plugin(wire, bus, paths, objectPathToKey, pendingKeys, calls, watchers, pendingWatchers)
    }

    constructor ()
      ensures View() == P.Fresh().plugin
    {
      pendingKeys, pendingWatchers, calls, watchers := {}, {}, multiset{}, multiset{};
      wire, bus, paths, objectPathToKey := {}, {}, {}, map[];
    }

    method Subscribe(keys: set<Key>)
      modifies this
      ensures View() == P.PluginSubscribe(old(View()), keys)
    {
      hide P.PluginSubscribe;
      var rest := keys;
      while rest != {}
        invariant P.PluginSubscribe(View(), rest) == P.PluginSubscribe(old(View()), keys)
        decreases rest
      {
        var k :| k in rest;
        SubscribeOne(View(), rest, k);
        pendingKeys := pendingKeys + {k};
        calls := calls + multiset{k};
        wire := wire + {k};
        rest := rest - {k};
      }
      NoKeysNoChange(View());
    }

    method NewSubscribe(k: Key)
      requires k in calls
      modifies this
      ensures View() == P.NewSubscribe(old(View()), k)
    {
      NewSubscribeFields(View(), k);
      hide KeyToPath, P.NewSubscribe;
      calls := calls - multiset{k};
      if k !in pendingKeys {
        return;
      }
      pendingKeys := pendingKeys - {k};
      var objectPath := KeyToPath(k);
      objectPathToKey := objectPathToKey[objectPath := k];
      bus, paths := bus + {k}, paths + {objectPath};
      watchers := watchers + multiset{k};
      pendingWatchers := pendingWatchers + {k};
    }

    method Unsubscribe(keys: set<Key>)
      modifies this
      ensures View() == P.PluginUnsubscribe(old(View()), keys)
    {
      hide P.PluginUnsubscribe;
      var rest := keys;
      while rest != {}
        invariant P.PluginUnsubscribe(View(), rest) == P.PluginUnsubscribe(old(View()), keys)
        decreases rest
      {
        var k :| k in rest;
        UnsubscribeOne(View(), rest, k);
        var objectPath := KeyToPath(k);
        objectPathToKey := objectPathToKey - {objectPath};
        wire, bus, paths := wire - {k}, bus - {k}, paths - {objectPath};
        rest := rest - {k};
      }
      NoKeysNoChange(View());
    }

    /** A reply to Subscribe: the watcher finishes and is removed. */
    method OnFinished(k: Key)
      requires k in watchers
      modifies this
      ensures View() == P.Reply(old(View()), k)
    {
      watchers := watchers - multiset{k};
      pendingWatchers := pendingWatchers - {k};
    }

    /** The service disappears and its subscriptions with it. */
    method Reset()
      modifies this
      ensures View() == P.PluginReset(old(View()))
    {
      wire, bus, paths := {}, {}, {};
    }

    /** A ValueChanged signal from an object path: the key it is passed on to, if any. */
    method OnNewValueChanged(path: string) returns (key: Option<Key>)
      ensures key == P.Route(View(), path)
    {
      if path in objectPathToKey {
        key := Some(objectPathToKey[path]);
      } else {
        key := None;
      }
    }
  }

  class Provider {
    const plugin: ContextKitPlugin
    var pluginState: P.PluginState
    var toSubscribe: set<Key>
    var toUnsubscribe: set<Key>
    var subscribedKeys: set<Key>
    var values: map<Key, TimedValue>
    var queued: bool
    var flushing: bool

    ghost function View(): P.State
      reads this, plugin
    {
      P.State(pluginState, toSubscribe, toUnsubscribe, subscribedKeys, queued, flushing, plugin.View())
    }

    constructor ()
      ensures View() == P.Fresh() && values == map[] && fresh(plugin)
    {
      plugin := new ContextKitPlugin();
      pluginState := P.Initializing;
      toSubscribe, toUnsubscribe, subscribedKeys, values := {}, {}, {}, map[];
      queued, flushing := false, false;
    }

    method Subscribe(key: Key) returns (wait: bool)
      modifies this
      ensures (View(), wait) == P.Subscribe(old(View()), key) && values == old(values)
      ensures wait <==> key !in old(toUnsubscribe)
    {
      subscribedKeys := subscribedKeys + {key};
      if key in toUnsubscribe {
        toUnsubscribe := toUnsubscribe - {key};
        return false;
      }
      toSubscribe := toSubscribe + {key};
      queued := true;
      return true;
    }

    method Unsubscribe(key: Key)
      modifies this
      ensures View() == P.Unsubscribe(old(View()), key) && values == old(values)
    {
      subscribedKeys := subscribedKeys - {key};
      if key in toSubscribe {
        toSubscribe := toSubscribe - {key};
      } else {
        toUnsubscribe := toUnsubscribe + {key};
        queued := true;
      }
    }

    /** The ready case: tell the plugin, if there is anything to tell. */
    method TellPlugin()
      modifies plugin
      ensures plugin.View() ==
        P.PluginUnsubscribe(P.PluginSubscribe(old(plugin.View()), toSubscribe), toUnsubscribe)
    {
      NoKeysNoChange(plugin.View());
      if |toSubscribe| > 0 {
        plugin.Subscribe(toSubscribe);
      }
      NoKeysNoChange(plugin.View());
      if |toUnsubscribe| > 0 {
        plugin.Unsubscribe(toUnsubscribe);
      }
    }

    /** Returns the keys for which subscribeFinished is emitted. */
    method HandleSubscribes() returns (finished: set<Key>)
      modifies this, plugin
      ensures (View(), finished) == P.HandleSubscribes(old(View())) && values == old(values)
    {
      finished := {};
      flushing := false;
      match pluginState {
        case Ready =>
          TellPlugin();
          toSubscribe, toUnsubscribe := {}, {};
        case Failed =>
          finished := toSubscribe;
          toSubscribe, toUnsubscribe := {}, {};
        case Initializing =>
      }
    }

    method OnPluginReady() returns (finished: set<Key>)
      modifies this, plugin
      ensures values == old(values)
      ensures old(pluginState) == P.Ready ==> View() == old(View()) && finished == {}
      ensures old(pluginState) != P.Ready ==>
        (View(), finished) == P.HandleSubscribes(P.PluginReady(old(View())))
    {
      hide P.HandleSubscribes;
      if pluginState == P.Ready {
        return {};
      }
      toUnsubscribe := {};
      toSubscribe := subscribedKeys;
      pluginState := P.Ready;
      flushing := true;
      finished := HandleSubscribes();
    }

    method OnPluginFailed() returns (finished: set<Key>)
      modifies this, plugin
      ensures (View(), finished) == P.HandleSubscribes(P.PluginFailed(old(View()))) && values == old(values)
    {
      plugin.Reset();
      pluginState := P.Failed;
      flushing := true;
      finished := HandleSubscribes();
    }

    /** True if subscribeFinished is emitted for the key. */
    method SignalSubscribeFinished(key: Key) returns (emitted: bool)
      ensures emitted <==> key in subscribedKeys
    {
      emitted := key in subscribedKeys;
    }

    /** True if valueChanged is emitted; values for other keys are dropped. */
    method OnPluginValueChanged(key: Key, value: TimedValue) returns (emitted: bool)
      modifies this`values
      ensures emitted <==> key in subscribedKeys
      ensures values == if emitted then old(values)[key := value] else old(values)
    {
      emitted := key in subscribedKeys;
      if emitted {
        values := values[key := value];
      }
    }

    method ClearValues()
      modifies this`values
      ensures values == map[]
    {
      values := map[];
    }
  }

  /** The cached value for a key, null if there is none. */
  function Cached(values: map<Key, TimedValue>, k: Key): TimedValue {
    if k in values then values[k] else TimedValue(Null, 0)
  }

  /** All providers of the process; handles name them by their position. */
  class Hub {
    const providers: seq<Provider>

    constructor (providers: seq<Provider>)
      ensures this.providers == providers
    {
      this.providers := providers;
    }

    /** No provider and no plugin is shared. */
    ghost predicate Valid() {
      forall i, j | 0 <= i < j < |providers| ::
        providers[i] != providers[j] && providers[i].plugin != providers[j].plugin
    }

    ghost function Plugins(): set<object> {
      set i | 0 <= i < |providers| :: providers[i].plugin
    }

    ghost function States(): (r: seq<P.State>)
      reads providers, Plugins()
      ensures |r| == |providers|
    {
      seq(|providers|, i requires 0 <= i < |providers| reads providers, Plugins() => providers[i].View())
    }

    /** The cached values of the listed providers for a key. */
    function Cache(list: seq<nat>, k: Key): (r: seq<TimedValue>)
      requires S.InRange(list, |providers|)
      reads providers
      ensures |r| == |list|
    {
      seq(|list|, i requires 0 <= i < |list| reads providers => Cached(providers[list[i]].values, k))
    }
  }

  class PropertyHandle {
    const myKey: Key
    var subscribeCount: nat
    var myProviders: seq<nat>
    var pendingSubscriptions: set<nat>
    var myValue: Variant
    var changes: nat   // valueChanged signals emitted

    function View(): S.Handle
      reads this
    {
      S.Handle(subscribeCount, myProviders, pendingSubscriptions)
    }

    /** The process as far as this handle is concerned. */
    ghost function World(hub: Hub): S.System
      reads this, hub.providers, hub.Plugins()
    {
      S.System(hub.States(), map[myKey := View()])
    }

    ghost predicate Valid(hub: Hub)
      reads this`myProviders
    {
      hub.Valid() && S.NoDuplicates(myProviders) && S.InRange(myProviders, |hub.providers|)
    }

    constructor (key: Key)
      ensures myKey == key && View() == S.Handle(0, [], {}) && myValue == Null && changes == 0
    {
      myKey, subscribeCount, myProviders, pendingSubscriptions := key, 0, [], {};
      myValue, changes := Null, 0;
    }

    /** The loop over the providers that subscribes to each and collects those to wait for. */
    method SubscribeTo(hub: Hub, list: seq<nat>)
      requires hub.Valid() && S.InRange(list, |hub.providers|)
      modifies this`pendingSubscriptions, hub.providers
      ensures (hub.States(), pendingSubscriptions) == S.SubscribeAll(old(hub.States()), list, myKey)
      ensures forall i | 0 <= i < |hub.providers| :: hub.providers[i].values == old(hub.providers[i].values)
    {
      hide P.Subscribe;
      pendingSubscriptions := {};
      assert hub.States() == old(hub.States());
      var i := 0;
      while i < |list|
        invariant 0 <= i <= |list|
        invariant (hub.States(), pendingSubscriptions) == S.SubscribeAll(old(hub.States()), list[..i], myKey)
        invariant forall j | 0 <= j < |hub.providers| :: hub.providers[j].values == old(hub.providers[j].values)
      {
        assert list[..i + 1][..i] == list[..i];
        ghost var before := hub.States();
        var provider := hub.providers[list[i]];
        var wait := provider.Subscribe(myKey);
        assert hub.States() == before[list[i] := P.Subscribe(before[list[i]], myKey).0];
        ghost var after := hub.States();
        if wait {
          pendingSubscriptions := pendingSubscriptions + {list[i]};
        }
        assert hub.States() == after;
        i := i + 1;
      }
      assert list[..i] == list;
    }

    method UnsubscribeFrom(hub: Hub, list: seq<nat>)
      requires hub.Valid() && S.InRange(list, |hub.providers|)
      modifies hub.providers
      ensures hub.States() == S.UnsubscribeAll(old(hub.States()), list, myKey)
      ensures forall i | 0 <= i < |hub.providers| :: hub.providers[i].values == old(hub.providers[i].values)
    {
      hide P.Unsubscribe;
      var i := 0;
      while i < |list|
        invariant 0 <= i <= |list|
        invariant hub.States() == S.UnsubscribeAll(old(hub.States()), list[..i], myKey)
        invariant forall j | 0 <= j < |hub.providers| :: hub.providers[j].values == old(hub.providers[j].values)
      {
        assert list[..i + 1][..i] == list[..i];
        ghost var before := hub.States();
        hub.providers[list[i]].Unsubscribe(myKey);
        assert hub.States() == before[list[i] := P.Unsubscribe(before[list[i]], myKey)];
        i := i + 1;
      }
      assert list[..i] == list;
    }

    method Subscribe(hub: Hub)
      requires Valid(hub)
      modifies this, hub.providers
      ensures Valid(hub) && myValue == old(myValue) && myProviders == old(myProviders)
      ensures subscribeCount == old(subscribeCount) + 1
      ensures World(hub) == S.Step(old(World(hub)), S.HandleSubscribes(myKey))
    {
      subscribeCount := subscribeCount + 1;
      assert hub.States() == old(hub.States());
      if subscribeCount == 1 {
        SubscribeTo(hub, myProviders);
      }
    }

    method Unsubscribe(hub: Hub)
      requires Valid(hub) && subscribeCount > 0
      modifies this, hub.providers
      ensures Valid(hub) && myValue == old(myValue) && myProviders == old(myProviders)
      ensures subscribeCount == old(subscribeCount) - 1
      ensures World(hub) == S.Step(old(World(hub)), S.HandleUnsubscribes(myKey))
    {
      subscribeCount := subscribeCount - 1;
      assert hub.States() == old(hub.States());
      if subscribeCount == 0 {
        pendingSubscriptions := {};
        assert hub.States() == old(hub.States());
        UnsubscribeFrom(hub, myProviders);
      }
    }

    /** Unsubscribe from the old providers and subscribe to the new ones, if need be. */
    method Switch(hub: Hub, list: seq<nat>)
      requires Valid(hub) && S.NoDuplicates(list) && S.InRange(list, |hub.providers|)
      modifies this`myProviders, this`pendingSubscriptions, hub.providers
      ensures Valid(hub) && myProviders == list
      ensures forall i | 0 <= i < |hub.providers| :: hub.providers[i].values == old(hub.providers[i].values)
      ensures World(hub) == S.Step(old(World(hub)), S.ProvidersChange(myKey, list))
    {
      if subscribeCount > 0 {
        UnsubscribeFrom(hub, myProviders);
        SubscribeTo(hub, list);
      }
      myProviders := list;
    }

    /** `commander` is given if the commander is present; it then replaces the registry's list. */
    method UpdateProvider(hub: Hub, commander: seq<nat>, registry: seq<nat>, typeOk: Variant -> bool)
      requires Valid(hub) && |commander| <= 1
      requires S.NoDuplicates(registry) && S.InRange(registry, |hub.providers|)
      requires S.InRange(commander, |hub.providers|)
      modifies this, hub.providers
      ensures Valid(hub) && myProviders == if commander != [] then commander else registry
      ensures World(hub) == S.Step(old(World(hub)), S.ProvidersChange(myKey, myProviders))
      ensures forall i | 0 <= i < |hub.providers| ::
        hub.providers[i].values == if commander == [i] then map[] else old(hub.providers[i].values)
      ensures subscribeCount > 0 && pendingSubscriptions == {} ==>
        ((forall i | 0 <= i < |myProviders| :: !Holds(hub, i)) ==> myValue == Null)
      ensures subscribeCount > 0 && pendingSubscriptions == {} ==>
        forall i | 0 <= i < |myProviders| && IsNewest(hub, i) ::
          var v := hub.providers[myProviders[i]].values[myKey].value;
          myValue == if typeOk(v) then v else old(myValue)
      ensures var v := Resolve(hub.Cache(myProviders, myKey));
        myValue == if subscribeCount > 0 && pendingSubscriptions == {} && (v == Null || typeOk(v))
                   then v else old(myValue)
    {
      hide S.SubscribeAll, S.UnsubscribeAll, Holds, IsNewest, Resolve;
      var newProviders := registry;
      if commander != [] {
        newProviders := commander;
        ghost var before := hub.States();
        hub.providers[commander[0]].ClearValues();
        assert hub.States() == before;
      }
      Switch(hub, newProviders);
      if subscribeCount > 0 && pendingSubscriptions == {} {
        OnValueChanged(hub, typeOk);
      }
    }

    method SetSubscribeFinished(provider: nat)
      modifies this`pendingSubscriptions
      ensures View() == S.Finished(old(View()), provider)
    {
      pendingSubscriptions := pendingSubscriptions - {provider};
    }

    /** Listed provider number `i` has cached a value for the key that is not null. */
    ghost predicate Holds(hub: Hub, i: nat)
      requires Valid(hub) && i < |myProviders|
      reads this`myProviders, hub.providers
    {
      var values := hub.providers[myProviders[i]].values;
      myKey in values && values[myKey].value != Null
    }

    /** That value is newer than every different one; of equally new ones it is listed first. */
    ghost predicate IsNewest(hub: Hub, i: nat)
      requires Valid(hub) && i < |myProviders|
      reads this`myProviders, hub.providers
    {
      && Holds(hub, i)
      && forall j | 0 <= j < |myProviders| && Holds(hub, j) ::
        var other, mine :=
          hub.providers[myProviders[j]].values[myKey], hub.providers[myProviders[i]].values[myKey];
        other.value == mine.value || other.time < mine.time || (other.time == mine.time && i < j)
    }

    /** The values the providers have cached decide about the value that is read off `Cache`. */
    lemma CachedValuesDecide(hub: Hub)
      requires Valid(hub)
      ensures (forall i | 0 <= i < |myProviders| :: !Holds(hub, i)) ==> Resolve(hub.Cache(myProviders, myKey)) == Null
      ensures forall i | 0 <= i < |myProviders| && IsNewest(hub, i) ::
        var v := hub.providers[myProviders[i]].values[myKey].value;
        v != Null && Resolve(hub.Cache(myProviders, myKey)) == v
    {
      var vs := hub.Cache(myProviders, myKey);
      forall i | 0 <= i < |myProviders|
        ensures Holds(hub, i) <==> vs[i].value != Null
        ensures Holds(hub, i) ==> vs[i] == hub.providers[myProviders[i]].values[myKey]
      {
      }
      forall i | 0 <= i < |myProviders| && IsNewest(hub, i) ensures Resolve(vs) == vs[i].value {
        var k := Latest(vs);
        assert Holds(hub, k);
      }
    }

    /** A value that fails the type check changes nothing. */
    method OnValueChanged(hub: Hub, typeOk: Variant -> bool)
      requires Valid(hub)
      modifies this`myValue, this`changes
      ensures var v := Resolve(hub.Cache(myProviders, myKey));
        myValue == if v == Null || typeOk(v) then v else old(myValue)
      ensures (forall i | 0 <= i < |myProviders| :: !Holds(hub, i)) ==> myValue == Null
      ensures forall i | 0 <= i < |myProviders| && IsNewest(hub, i) ::
        var v := hub.providers[myProviders[i]].values[myKey].value;
        myValue == if typeOk(v) then v else old(myValue)
      ensures changes == old(changes) + if myValue != old(myValue) then 1 else 0
    {
      hide Holds, IsNewest, Resolve;
      var newValue := PickLatest(hub.Cache(myProviders, myKey));
      if newValue != Null && !typeOk(newValue) {
        CachedValuesDecide(hub);
        return;
      }
      if myValue != newValue {
        myValue := newValue;
        changes := changes + 1;
      }
      CachedValuesDecide(hub);
    }

    /** Waiting ends with the first value or when no provider is pending. */
    method IsSubscribePending(commanderUnknown: bool) returns (b: bool)
      ensures b <==> commanderUnknown || (myValue == Null && pendingSubscriptions != {})
    {
      if commanderUnknown {
        return true;
      }
      if myValue != Null {
        return false;
      }
      return |pendingSubscriptions| != 0;
    }
  }
}
