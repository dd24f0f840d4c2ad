/** Two keys with one path undo each other's subscription. */
module SharedPath {
  import opened ObjectPaths
  import opened Options
  import opened Provider
  import opened Subscriptions
  import opened Routing
  import opened SingleProvider

  /** Two handles of one provider subscribe, the provider becomes ready and all calls are made and
      answered; then one handle unsubscribes. */
  function Story(a: Key, b: Key): seq<Action> {
    [ProvidersChange(a, [0]), ProvidersChange(b, [0]), Action.HandleSubscribes(a), Action.HandleSubscribes(b),
     BecomesReady(0), Flush(0), SubscribeCallMade(0, a), SubscribeCallMade(0, b),
     ReplyArrives(0, a), ReplyArrives(0, b), HandleUnsubscribes(b), CallTaken(0), Flush(0)]
  }

  function Asked(a: Key, b: Key): State {
    Fresh().(toSubscribe := {a, b}, subscribedKeys := {a, b}, queued := true)
  }

  function Told(a: Key, b: Key): State {
    State(Ready, {}, {}, {a, b}, true, false,
          Plugin({a, b}, {}, {}, map[], {a, b}, multiset{a, b}, multiset{}, {}))
  }

  function CalledOne(a: Key, b: Key): State {
    Told(a, b).(plugin := Plugin({a, b}, {a}, {KeyToPath(a)}, map[KeyToPath(a) := a], {b}, multiset{b},
                                 multiset{a}, {a}))
  }

  /** Both calls are made and `unanswered` replies are missing. */
  function CalledBoth(a: Key, b: Key, unanswered: set<Key>): State {
    Told(a, b).(plugin := Plugin({a, b}, {a, b}, {KeyToPath(a)}, map[KeyToPath(a) := b], {}, multiset{},
                                 multiset(unanswered), unanswered))
  }

  function Dropped(a: Key, b: Key): State {
    CalledBoth(a, b, {}).(toUnsubscribe := {b}, subscribedKeys := {a})
  }

  function Rest(a: Key): State {
    State(Ready, {}, {}, {a}, false, false, Plugin({a}, {a}, {}, map[], {}, multiset{}, multiset{}, {}))
  }

  function ProviderAt(a: Key, b: Key, i: nat): State {
    if i < 3 then Fresh()
    else if i == 3 then Fresh().(toSubscribe := {a}, subscribedKeys := {a}, queued := true)
    else if i == 4 then Asked(a, b)
    else if i == 5 then Asked(a, b).(pluginState := Ready, flushing := true)
    else if i == 6 then Told(a, b)
    else if i == 7 then CalledOne(a, b)
    else if i == 8 then CalledBoth(a, b, {a, b})
    else if i == 9 then CalledBoth(a, b, {b})
    else if i == 10 then CalledBoth(a, b, {})
    else if i == 11 then Dropped(a, b)
    else if i == 12 then Dropped(a, b).(queued := false, flushing := true)
    else Rest(a)
  }

  function HandlesAt(a: Key, b: Key, i: nat): map<Key, Handle> {
    var off, waiting, on := Handle(0, [0], {}), Handle(1, [0], {0}), Handle(1, [0], {});
    if i == 0 then map[]
    else if i == 1 then map[a := off]
    else
      map[a := if i == 2 then off else if i < 9 then waiting else on,
          b := if i < 4 then off else if i < 10 then waiting else if i == 10 then on else off]
  }

  function SystemAt(a: Key, b: Key, i: nat): System {
    Single(ProviderAt(a, b, i), HandlesAt(a, b, i))
  }

  lemma HandleSteps(a: Key, b: Key)
    requires Rivals(a, b)
    ensures Subscribe(ProviderAt(a, b, 2), a) == (ProviderAt(a, b, 3), true)
    ensures Subscribe(ProviderAt(a, b, 3), b) == (ProviderAt(a, b, 4), true)
    ensures Unsubscribe(ProviderAt(a, b, 10), b) == ProviderAt(a, b, 11)
    ensures TakeCall(ProviderAt(a, b, 11)) == ProviderAt(a, b, 12)
    ensures PluginReady(ProviderAt(a, b, 4)) == ProviderAt(a, b, 5)
  {
    hide KeyToPath;
    assert Fresh().subscribedKeys + {a} == {a} && {a} + {b} == {a, b} && {a, b} - {b} == {a};
    assert Told(a, b).toUnsubscribe + {b} == {b};
  }

  lemma FirstFlush(a: Key, b: Key)
    requires Rivals(a, b)
    ensures Provider.HandleSubscribes(ProviderAt(a, b, 5)) == (ProviderAt(a, b, 6), {})
  {
    hide KeyToPath;
    var g, told := Fresh().plugin, Told(a, b).plugin;
    assert PluginSubscribe(g, {a, b}) == told by {
      assert g.wire + {a, b} == {a, b} && g.calls + multiset({a, b}) == multiset{a, b};
    }
    assert PluginUnsubscribe(told, {}) == told by {
      assert {a, b} - {} == {a, b} && Paths({}) == {} && told.routes - {} == told.routes;
    }
  }

  lemma LastFlush(a: Key, b: Key)
    requires Rivals(a, b)
    ensures Provider.HandleSubscribes(ProviderAt(a, b, 12)) == (ProviderAt(a, b, 13), {})
  {
    hide KeyToPath;
    var g := CalledBoth(a, b, {}).plugin;
    assert PluginSubscribe(g, {}) == g by {
      assert g.wire + {} == g.wire && g.pendingKeys + {} == g.pendingKeys;
    }
    assert PluginUnsubscribe(g, {b}) == Rest(a).plugin by {
      assert Paths({b}) == {KeyToPath(a)};
      assert {a, b} - {b} == {a} && g.paths - Paths({b}) == {} && g.routes - Paths({b}) == map[];
    }
  }

  lemma CallsMade(a: Key, b: Key)
    requires Rivals(a, b)
    ensures a in ProviderAt(a, b, 6).plugin.calls && b in ProviderAt(a, b, 7).plugin.calls
    ensures NewSubscribe(ProviderAt(a, b, 6).plugin, a) == ProviderAt(a, b, 7).plugin
    ensures NewSubscribe(ProviderAt(a, b, 7).plugin, b) == ProviderAt(a, b, 8).plugin
  {
    hide KeyToPath;
    var g, h, k := Told(a, b).plugin, CalledOne(a, b).plugin, CalledBoth(a, b, {a, b}).plugin;
    assert g.calls - multiset{a} == h.calls && h.calls - multiset{b} == k.calls;
    assert g.watchers + multiset{a} == h.watchers && h.watchers + multiset{b} == k.watchers;
    assert g.pendingKeys - {a} == h.pendingKeys && h.pendingKeys - {b} == k.pendingKeys;
    assert g.bus + {a} == h.bus && h.bus + {b} == k.bus;
    assert h.paths + {KeyToPath(b)} == k.paths && h.routes[KeyToPath(b) := b] == k.routes;
    assert g.registered + {a} == h.registered && h.registered + {b} == k.registered;
  }

  lemma RepliesCome(a: Key, b: Key)
    requires Rivals(a, b)
    ensures a in ProviderAt(a, b, 8).plugin.watchers && b in ProviderAt(a, b, 9).plugin.watchers
    ensures Reply(ProviderAt(a, b, 8).plugin, a) == ProviderAt(a, b, 9).plugin
    ensures Reply(ProviderAt(a, b, 9).plugin, b) == ProviderAt(a, b, 10).plugin
  {
    hide KeyToPath;
    assert {a, b} - {a} == {b} && {b} - {b} == {};
    assert multiset({a, b}) - multiset{a} == multiset({b}) && multiset({b}) - multiset{b} == multiset{};
  }

  lemma Flags(a: Key, b: Key)
    ensures ProviderAt(a, b, 1) == ProviderAt(a, b, 0) && ProviderAt(a, b, 2) == ProviderAt(a, b, 0)
    ensures ProviderAt(a, b, 5).flushing && ProviderAt(a, b, 12).flushing && ProviderAt(a, b, 11).queued
    ensures ProviderAt(a, b, 8).subscribedKeys == ProviderAt(a, b, 9).subscribedKeys == {a, b}
  {
  }

  lemma OnlyPluginMoves(a: Key, b: Key, i: nat)
    requires 6 <= i < 10
    ensures ProviderAt(a, b, i).(plugin := ProviderAt(a, b, i + 1).plugin) == ProviderAt(a, b, i + 1)
  {
  }

  lemma HandlesMove(a: Key, b: Key, i: nat)
    requires a != b && i < 13
    ensures var hs, js := HandlesAt(a, b, i), HandlesAt(a, b, i + 1);
      && ListsIt(hs)
      && (i == 0 ==> a !in hs && js == hs[a := Handle(0, [0], {})])
      && (i == 1 ==> b !in hs && js == hs[b := Handle(0, [0], {})])
      && (i == 2 ==> a in hs && hs[a] == Handle(0, [0], {}) && js == hs[a := Handle(1, [0], {0})])
      && (i == 3 ==> b in hs && hs[b] == Handle(0, [0], {}) && js == hs[b := Handle(1, [0], {0})])
      && (i == 8 ==> a in hs && js == hs[a := Finished(hs[a], 0)])
      && (i == 9 ==> b in hs && js == hs[b := Finished(hs[b], 0)])
      && (i == 10 ==> b in hs && hs[b] == Handle(1, [0], {}) && js == hs[b := Handle(0, [0], {})])
      && (i !in {0, 1, 2, 3, 8, 9, 10} ==> js == hs)
  {
    assert {0} - {0} == {};
  }

  lemma StoryStep(a: Key, b: Key, i: nat)
    requires Rivals(a, b) && i < 13
    ensures |Story(a, b)| == 13
    ensures var s, act := SystemAt(a, b, i), Story(a, b)[i];
      Enabled(s, act) && Listed(s) && Step(s, act) == SystemAt(a, b, i + 1)
  {
    var x, hs := ProviderAt(a, b, i), HandlesAt(a, b, i);
    hide KeyToPath, ProviderAt, HandlesAt, TakeCall, PluginReady, Provider.HandleSubscribes, NewSubscribe, Reply;
    hide Subscribe, Unsubscribe, Step, Listed, ListsIt;
    HandlesMove(a, b, i);
    ListsItIsListed(x, hs);
    HandleSteps(a, b);
    Flags(a, b);
    if i < 4 {
      if i == 0 { Registers(x, hs, a); }
      else if i == 1 { Registers(x, hs, b); }
      else if i == 2 { Subscribes(x, hs, a); }
      else { Subscribes(x, hs, b); }
    } else if 6 <= i < 10 {
      OnlyPluginMoves(a, b, i);
      CallsMade(a, b);
      RepliesCome(a, b);
      if i == 6 { Calls(x, hs, a); }
      else if i == 7 { Calls(x, hs, b); }
      else if i == 8 { Replies(x, hs, a); }
      else { Replies(x, hs, b); }
    } else {
      FirstFlush(a, b);
      LastFlush(a, b);
      if i == 4 { GetsReady(x, hs); }
      else if i == 10 { Unsubscribes(x, hs, b); }
      else if i == 11 { Takes(x, hs); }
      else { Flushes(x, hs); }
    }
  }

  lemma StoryEnds(a: Key, b: Key)
    requires Rivals(a, b)
    ensures Idle(SystemAt(a, b, 13)) && SystemAt(a, b, 0) == System([Fresh()], map[])
    ensures Wants(SystemAt(a, b, 13).H(a), 0) && SystemAt(a, b, 13).H(b).count == 0
  {
    hide KeyToPath;
  }

  /** For every two keys that share a path: with both subscribed, signals for the first are passed on as
      the second; and once the second is unsubscribed, all is idle, the first is wanted, and its path is
      not subscribed. */
  lemma RivalsLoseSubscriptions(a: Key, b: Key) returns (ss: seq<System>)
    requires Rivals(a, b)
    ensures Run(ss, Story(a, b)) && |ss| == 14 && Idle(ss[13])
    ensures |ss[10].providers| == |ss[13].providers| == 1
    ensures Route(ss[10].providers[0].plugin, KeyToPath(a)) == Some(b)
    ensures var x := ss[13].providers[0];
      && x.pluginState == Ready && Wants(ss[13].H(a), 0) && a in x.plugin.wire && a in x.plugin.bus
      && KeyToPath(a) !in x.plugin.paths && Route(x.plugin, KeyToPath(a)) == None
  {
    hide Enabled, Listed, Step, KeyToPath, Idle, Wants;
    Flags(a, b);
    StoryEnds(a, b);
    ss := seq(14, i requires 0 <= i < 14 => SystemAt(a, b, i));
    assert |Story(a, b)| == 13;
    forall i | 0 <= i < 13
      ensures Listed(ss[i]) && Enabled(ss[i], Story(a, b)[i]) && ss[i + 1] == Step(ss[i], Story(a, b)[i])
    {
      StoryStep(a, b, i);
    }
    assert ss[10] == SystemAt(a, b, 10) && ss[13] == SystemAt(a, b, 13);
  }

  /** Two such keys. */
  lemma RivalsExist()
    ensures Rivals("A.b-c", "A.b_c") && Rivals("A.B", "/org/maemo/contextkit/A/B")
  {
    SharedPaths("A.b-c", "A.b_c");
    assert KeyToPath("A.B") == "/org/maemo/contextkit/A/B";
  }
}
