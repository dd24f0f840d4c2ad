/** What is subscribed on D-Bus when a process comes to rest: Subscribe calls are queued while
    Unsubscribe calls are made at once, so an unsubscription can overtake. */
module Settling {
  import opened ObjectPaths
  import opened Provider
  import opened SingleProvider
  import opened Subscriptions

  /** Keys on the bus, or with a call on the way there, that the plugin has not been told to keep. */
  function Extra(g: Plugin): set<Key> {
    (g.bus + g.pendingKeys) - g.wire
  }

  /** The key is dropped, by a flush or by a failure, while its Subscribe call is still queued. */
  predicate Overtakes(s: System, a: Action, p: nat, k: Key)
    requires p < |s.providers|
  {
    var x := s.providers[p];
    k in x.plugin.pendingKeys &&
    (a == Fails(p) || (a == Flush(p) && x.pluginState == Ready && k in x.toUnsubscribe))
  }

  /** A failure loses the subscription on the bus, and a flush that wants the key makes it rightful. */
  predicate Settles(s: System, a: Action, p: nat, k: Key)
    requires p < |s.providers|
  {
    var x := s.providers[p];
    a == Fails(p) || (a == Flush(p) && x.pluginState == Ready && k in x.subscribedKeys)
  }

  lemma HandlesLeavePluginsAlone(s: System, a: Action, p: nat)
    requires Invariant(s) && Enabled(s, a) && p < |s.providers|
    requires a.HandleSubscribes? || a.HandleUnsubscribes? || a.ProvidersChange?
    ensures Step(s, a).providers[p].plugin == s.providers[p].plugin
  {
    var h := s.H(a.k);
    match a
    case HandleSubscribes(k) =>
      if h.count == 0 { SubscribeAllEffect(s.providers, h.providers, k); }
    case HandleUnsubscribes(k) =>
      if h.count == 1 { UnsubscribeAllEffect(s.providers, h.providers, k); }
    case ProvidersChange(k, list) =>
      if h.count > 0 {
        UnsubscribeAllEffect(s.providers, h.providers, k);
        SubscribeAllEffect(UnsubscribeAll(s.providers, h.providers, k), list, k);
      }
  }

  /** How one flush changes the extra keys. */
  lemma FlushExtra(x: State, k: Key)
    requires Sound(x)
    ensures k in Extra(Provider.HandleSubscribes(x).0.plugin) <==>
      if x.pluginState != Ready then k in Extra(x.plugin)
      else (k in x.plugin.pendingKeys && k in x.toUnsubscribe) || (k in Extra(x.plugin) && k !in x.subscribedKeys)
  {
  }

  /** What each step does to a plugin. */
  lemma PluginStep(s: System, a: Action, p: nat)
    requires Invariant(s) && Enabled(s, a) && p < |s.providers|
    ensures var x := s.providers[p];
      Step(s, a).providers[p].plugin ==
      if a == Flush(p) then Provider.HandleSubscribes(x).0.plugin
      else if a == Fails(p) then PluginReset(x.plugin)
      else if a.SubscribeCallMade? && a.p == p then NewSubscribe(x.plugin, a.k)
      else if a.ReplyArrives? && a.p == p then Reply(x.plugin, a.k)
      else x.plugin
  {
    if a.HandleSubscribes? || a.HandleUnsubscribes? || a.ProvidersChange? {
      HandlesLeavePluginsAlone(s, a, p);
    } else {
      hide Invariant, Provider.HandleSubscribes, NewSubscribe, Reply, PluginReset, SubscribeAll, UnsubscribeAll;
    }
  }

  lemma ExtraStep(s: System, a: Action, p: nat, k: Key)
    requires Invariant(s) && Enabled(s, a) && p < |s.providers|
    ensures k in Extra(Step(s, a).providers[p].plugin) <==>
      Overtakes(s, a, p, k) || (k in Extra(s.providers[p].plugin) && !Settles(s, a, p, k))
  {
    assert Sound(s.providers[p]);
    PluginStep(s, a, p);
    hide Step, Sound, Invariant, Provider.HandleSubscribes, NewSubscribe;
    match a
    case Flush(q) => FlushExtra(s.providers[p], k);
    case SubscribeCallMade(q, j) => CallExtra(s.providers[q].plugin, j);
    case _ =>
  }

  /** Making a call leaves the extra keys alone. */
  lemma CallExtra(g: Plugin, j: Key)
    requires j in g.calls
    ensures Extra(NewSubscribe(g, j)) == Extra(g)
  {
    hide KeyToPath;
  }

  /** The key was overtaken, and nothing has settled it since. */
  ghost predicate LeftBehind(ss: seq<System>, acts: seq<Action>, i: nat, p: nat, k: Key)
    requires Run(ss, acts) && i <= |acts| && p < |ss[0].providers|
  {
    exists j: nat :: j < i && OvertakenAt(ss, acts, i, p, k, j)
  }

  ghost predicate OvertakenAt(ss: seq<System>, acts: seq<Action>, i: nat, p: nat, k: Key, j: nat)
    requires Run(ss, acts) && j < i <= |acts| && p < |ss[0].providers|
  {
    SameProviders(ss, acts, j);
    && Overtakes(ss[j], acts[j], p, k)
    && forall l | j < l < i :: (SameProviders(ss, acts, l); !Settles(ss[l], acts[l], p, k))
  }

  /** In every run, the extra keys are exactly those that were left behind. */
  lemma {:induction false} ExtraIsLeftBehind(ss: seq<System>, acts: seq<Action>, i: nat, p: nat, k: Key)
    requires Run(ss, acts) && i <= |acts| && p < |ss[0].providers|
    ensures |ss[i].providers| == |ss[0].providers|
    ensures k in Extra(ss[i].providers[p].plugin) <==> LeftBehind(ss, acts, i, p, k)
  {
    SameProviders(ss, acts, i);
    if i > 0 {
      var n := i - 1;
      ExtraIsLeftBehind(ss, acts, n, p, k);
      EveryRunKeepsInvariant(ss, acts, n);
      ExtraStep(ss[n], acts[n], p, k);
      LeftBehindStep(ss, acts, n, p, k);
    }
  }

  lemma LeftBehindStep(ss: seq<System>, acts: seq<Action>, n: nat, p: nat, k: Key)
    requires Run(ss, acts) && n < |acts| && p < |ss[0].providers| && p < |ss[n].providers|
    ensures LeftBehind(ss, acts, n + 1, p, k) <==>
      Overtakes(ss[n], acts[n], p, k) || (LeftBehind(ss, acts, n, p, k) && !Settles(ss[n], acts[n], p, k))
  {
    hide Overtakes, Settles;
    SameProviders(ss, acts, n);
    if Overtakes(ss[n], acts[n], p, k) {
      assert OvertakenAt(ss, acts, n + 1, p, k, n);
    }
    if LeftBehind(ss, acts, n, p, k) && !Settles(ss[n], acts[n], p, k) {
      var j: nat :| j < n && OvertakenAt(ss, acts, n, p, k, j);
      assert OvertakenAt(ss, acts, n + 1, p, k, j);
    }
    if LeftBehind(ss, acts, n + 1, p, k) {
      var j: nat :| j < n + 1 && OvertakenAt(ss, acts, n + 1, p, k, j);
      if j < n {
        assert OvertakenAt(ss, acts, n, p, k, j);
      }
    }
  }

  /** In every state of every run a key that the plugin was told to keep is on the bus or its call is
      queued. */
  lemma ToldIsOnItsWay(ss: seq<System>, acts: seq<Action>, i: nat, p: nat)
    requires Run(ss, acts) && i <= |acts| && p < |ss[i].providers|
    ensures ss[i].providers[p].plugin.wire - ss[i].providers[p].plugin.pendingKeys <= ss[i].providers[p].plugin.bus
  {
    EveryRunKeepsInvariant(ss, acts, i);
    assert Sound(ss[i].providers[p]);
  }

  lemma IdleProvider(s: System, p: nat, k: Key)
    requires Invariant(s) && Idle(s) && p < |s.providers| && s.providers[p].pluginState == Ready
    ensures k in s.providers[p].plugin.wire <==> Wants(s.H(k), p)
    ensures k in s.providers[p].plugin.bus <==> Wants(s.H(k), p) || k in Extra(s.providers[p].plugin)
    ensures !(Wants(s.H(k), p) && k in Extra(s.providers[p].plugin))
  {
    var x := s.providers[p];
    assert Sound(x);
    assert k in x.subscribedKeys <==> Wants(s.H(k), p);
    assert x.toSubscribe + x.toUnsubscribe == {};
    assert k !in x.toSubscribe && k !in x.toUnsubscribe;
    assert k !in x.plugin.pendingKeys;
  }

  /** Once idle, no handle waits for anybody, every ready plugin has been told to keep exactly the keys
      of the subscribed handles that list it, and the last call for a key was Subscribe exactly for
      these and for the keys left behind, none of which anybody wants. */
  lemma IdleMeansCalled(ss: seq<System>, acts: seq<Action>, i: nat)
    requires Run(ss, acts) && i <= |acts| && Idle(ss[i])
    ensures |ss[i].providers| == |ss[0].providers|
    ensures forall k :: ss[i].H(k).pending == {}
    ensures forall p, k | 0 <= p < |ss[i].providers| && ss[i].providers[p].pluginState == Ready ::
      && (k in ss[i].providers[p].plugin.wire <==> Wants(ss[i].H(k), p))
      && (k in ss[i].providers[p].plugin.bus <==> Wants(ss[i].H(k), p) || LeftBehind(ss, acts, i, p, k))
      && !(Wants(ss[i].H(k), p) && LeftBehind(ss, acts, i, p, k))
  {
    SameProviders(ss, acts, i);
    EveryRunKeepsInvariant(ss, acts, i);
    hide Run, Idle, Invariant, Extra, LeftBehind;
    forall k
      ensures ss[i].H(k).pending == {}
    {
      NobodyPending(ss[i], k);
    }
    forall p, k | 0 <= p < |ss[i].providers| && ss[i].providers[p].pluginState == Ready
      ensures k in ss[i].providers[p].plugin.wire <==> Wants(ss[i].H(k), p)
      ensures k in ss[i].providers[p].plugin.bus <==> Wants(ss[i].H(k), p) || LeftBehind(ss, acts, i, p, k)
      ensures !(Wants(ss[i].H(k), p) && LeftBehind(ss, acts, i, p, k))
    {
      IdleProvider(ss[i], p, k);
      ExtraIsLeftBehind(ss, acts, i, p, k);
    }
  }

  // ---------------------------------------------------------------- an unwanted subscription stays

  function Overtaken(k: Key): seq<Action> {
    [ProvidersChange(k, [0]), Action.HandleSubscribes(k), BecomesReady(0), Flush(0), HandleUnsubscribes(k),
     CallTaken(0), Flush(0), SubscribeCallMade(0, k), ReplyArrives(0, k)]
  }

  /** The provider along the way: asked for k, ready, told, asked to drop k, told, and called late. */
  function Along(k: Key, i: nat): State {
    var idle := Plugin({}, {}, {}, map[], {}, multiset{}, multiset{}, {});
    var told := Plugin({k}, {}, {}, map[], {k}, multiset{k}, multiset{}, {});
    var called := Plugin({}, {k}, {KeyToPath(k)}, map[KeyToPath(k) := k], {}, multiset{}, multiset{}, {});
    var asked := State(Initializing, {k}, {}, {k}, true, false, idle);
    var dropped := State(Ready, {}, {k}, {}, true, false, told);
    var quiet := State(Ready, {}, {}, {}, false, false, told.(wire := {}));
    if i < 2 then Fresh()
    else if i == 2 then asked
    else if i == 3 then asked.(pluginState := Ready, flushing := true)
    else if i == 4 then State(Ready, {}, {}, {k}, true, false, told)
    else if i == 5 then dropped
    else if i == 6 then dropped.(queued := false, flushing := true)
    else if i == 7 then quiet
    else if i == 8 then quiet.(plugin := called.(watchers := multiset{k}, registered := {k}))
    else quiet.(plugin := called)
  }

  function HandlesAlong(k: Key, i: nat): map<Key, Handle> {
    if i == 0 then map[] else map[k := if i == 1 || i > 4 then Handle(0, [0], {}) else Handle(1, [0], {0})]
  }

  function AlongSystem(k: Key, i: nat): System
    requires i < 10
  {
    Single(Along(k, i), HandlesAlong(k, i))
  }

  lemma HandlesMove(k: Key, i: nat)
    requires i < 9
    ensures var hs, js := HandlesAlong(k, i), HandlesAlong(k, i + 1);
      && ListsIt(hs)
      && (i == 0 ==> k !in hs && js == hs[k := Handle(0, [0], {})])
      && (i == 1 ==> k in hs && hs[k] == Handle(0, [0], {}) && js == hs[k := Handle(1, [0], {0})])
      && (i == 4 ==> k in hs && hs[k] == Handle(1, [0], {0}) && js == hs[k := Handle(0, [0], {})])
      && (i !in {0, 1, 4} ==> js == hs)
  {
  }

  lemma AlongHandles(k: Key)
    ensures Subscribe(Along(k, 1), k) == (Along(k, 2), true)
    ensures Unsubscribe(Along(k, 4), k) == Along(k, 5)
    ensures TakeCall(Along(k, 5)) == Along(k, 6)
  {
    var first, told := Along(k, 1), Along(k, 4);
    assert first.subscribedKeys + {k} == {k} && first.toSubscribe + {k} == {k};
    assert told.subscribedKeys - {k} == {} && told.toUnsubscribe + {k} == {k};
  }

  /** What telling the plugin one key, or nothing, does. */
  lemma TellOne(g: Plugin, k: Key)
    requires g.wire == g.pendingKeys == {} && g.calls == multiset{} && g.paths == {} && g.routes == map[]
    ensures var told := g.(wire := {k}, pendingKeys := {k}, calls := multiset{k});
      && PluginUnsubscribe(PluginSubscribe(g, {k}), {}) == told
      && PluginUnsubscribe(PluginSubscribe(told, {}), {k}) == told.(wire := {}, bus := g.bus - {k})
  {
    hide KeyToPath;
    var told := g.(wire := {k}, pendingKeys := {k}, calls := multiset{k});
    var nothing: set<Key> := {};
    assert multiset({k}) == multiset{k} && multiset(nothing) == multiset{};
    assert PluginSubscribe(g, {k}) == told && PluginSubscribe(told, {}) == told;
    assert Paths({}) == {};
    assert g.routes - Paths({k}) == map[] && g.routes - {} == map[];
    assert g.bus - {} == g.bus && {k} - {} == {k} && {k} - {k} == {};
    assert PluginUnsubscribe(told, {}) == told;
  }

  lemma AlongReady(k: Key)
    ensures PluginReady(Along(k, 2)) == Along(k, 3)
  {
    hide KeyToPath;
  }

  lemma AlongPlugin(k: Key)
    ensures Provider.HandleSubscribes(Along(k, 3)) == (Along(k, 4), {})
    ensures Provider.HandleSubscribes(Along(k, 6)) == (Along(k, 7), {})
  {
    hide KeyToPath, PluginSubscribe, PluginUnsubscribe;
    TellOne(Along(k, 3).plugin, k);
    assert Along(k, 3).plugin.bus - {k} == {};
  }

  lemma AlongCalls(k: Key)
    ensures k in Along(k, 7).plugin.calls && k in Along(k, 8).plugin.watchers
    ensures Along(k, 7).(plugin := NewSubscribe(Along(k, 7).plugin, k)) == Along(k, 8)
    ensures Along(k, 8).(plugin := Reply(Along(k, 8).plugin, k)) == Along(k, 9)
  {
    assert multiset{k} - multiset{k} == multiset{};
    assert map[][KeyToPath(k) := k] == map[KeyToPath(k) := k];
  }

  lemma AlongHandleStep(k: Key, i: nat)
    requires i in {0, 1, 4}
    ensures var s, a := AlongSystem(k, i), Overtaken(k)[i];
      Listed(s) && Enabled(s, a) && Step(s, a) == AlongSystem(k, i + 1)
  {
    var x, hs := Along(k, i), HandlesAlong(k, i);
    HandlesMove(k, i);
    AlongFields(k);
    AlongHandles(k);
    hide Along, TakeCall, PluginReady, Provider.HandleSubscribes, NewSubscribe, Reply, Subscribe, Unsubscribe;
    hide Step, Listed;
    hide HandlesAlong, ListsIt, KeyToPath;
    ListsItIsListed(x, hs);
    if i == 0 { Registers(x, hs, k); }
    else if i == 1 { Subscribes(x, hs, k); }
    else { Unsubscribes(x, hs, k); }
  }

  lemma AlongEventStep(k: Key, i: nat)
    requires i in {2, 5}
    ensures var s, a := AlongSystem(k, i), Overtaken(k)[i];
      Listed(s) && Enabled(s, a) && Step(s, a) == AlongSystem(k, i + 1)
  {
    var x, hs := Along(k, i), HandlesAlong(k, i);
    HandlesMove(k, i);
    AlongFields(k);
    AlongHandles(k);
    AlongReady(k);
    hide Along, TakeCall, PluginReady, Provider.HandleSubscribes, Step, Listed, HandlesAlong, ListsIt;
    ListsItIsListed(x, hs);
    if i == 2 { GetsReady(x, hs); } else { Takes(x, hs); }
  }

  lemma AlongFlushStep(k: Key, i: nat)
    requires i in {3, 6}
    ensures var s, a := AlongSystem(k, i), Overtaken(k)[i];
      Listed(s) && Enabled(s, a) && Step(s, a) == AlongSystem(k, i + 1)
  {
    var x, hs := Along(k, i), HandlesAlong(k, i);
    HandlesMove(k, i);
    AlongFields(k);
    AlongPlugin(k);
    hide Along, TakeCall, PluginReady, Provider.HandleSubscribes, Step, Listed, HandlesAlong, ListsIt;
    ListsItIsListed(x, hs);
    Flushes(x, hs);
  }

  lemma AlongCallStep(k: Key, i: nat)
    requires i in {7, 8}
    ensures var s, a := AlongSystem(k, i), Overtaken(k)[i];
      Listed(s) && Enabled(s, a) && Step(s, a) == AlongSystem(k, i + 1)
  {
    var x, hs := Along(k, i), HandlesAlong(k, i);
    HandlesMove(k, i);
    AlongFields(k);
    AlongCalls(k);
    hide Along, TakeCall, PluginReady, Provider.HandleSubscribes, NewSubscribe, Reply, Subscribe, Unsubscribe;
    hide Step, Listed;
    hide HandlesAlong, ListsIt, KeyToPath;
    ListsItIsListed(x, hs);
    if i == 7 { Calls(x, hs, k); } else { Replies(x, hs, k); }
  }

  lemma AlongStep(k: Key, i: nat)
    requires i < 9
    ensures |Overtaken(k)| == 9
    ensures var s, a := AlongSystem(k, i), Overtaken(k)[i];
      Listed(s) && Enabled(s, a) && Step(s, a) == AlongSystem(k, i + 1)
  {
    assert |Overtaken(k)| == 9;
    hide Listed, Enabled, Step, AlongSystem, Overtaken;
    if i in {0, 1, 4} {
      AlongHandleStep(k, i);
    } else if i in {7, 8} {
      AlongCallStep(k, i);
    } else if i in {2, 5} {
      AlongEventStep(k, i);
    } else {
      AlongFlushStep(k, i);
    }
  }

  lemma AlongFields(k: Key)
    ensures Along(k, 1) == Along(k, 0)
    ensures Along(k, 5).queued && Along(k, 3).flushing && Along(k, 6).flushing
    ensures k !in Along(k, 8).subscribedKeys
  {
  }

  /** A handle of one provider subscribes, the provider becomes ready and flushes, and the handle
      unsubscribes before the queued Subscribe call is made: all is idle, and the key stays subscribed
      on D-Bus although nobody wants it. */
  lemma LateSubscribeStays(k: Key) returns (ss: seq<System>)
    ensures Run(ss, Overtaken(k)) && Idle(ss[9])
    ensures |ss[9].providers| == 1 && ss[9].providers[0].pluginState == Ready && ss[9].H(k).count == 0
    ensures k in ss[9].providers[0].plugin.bus && k !in ss[9].providers[0].plugin.wire
  {
    hide Step, Enabled, Listed;
    ss := seq(10, i requires 0 <= i < 10 => AlongSystem(k, i));
    forall i | 0 <= i < 9
      ensures Listed(ss[i]) && Enabled(ss[i], Overtaken(k)[i]) && ss[i + 1] == Step(ss[i], Overtaken(k)[i])
    {
      AlongStep(k, i);
    }
  }
}
