/** How the steps of a process with a single provider read. */
module SingleProvider {
  import opened Provider
  import opened Subscriptions

  function Single(x: State, hs: map<Key, Handle>): System {
    System([x], hs)
  }

  /** Every handle lists the provider or nobody. */
  predicate ListsIt(hs: map<Key, Handle>) {
    forall k | k in hs :: hs[k].providers in [[], [0]]
  }

  lemma ListsItIsListed(x: State, hs: map<Key, Handle>)
    requires ListsIt(hs)
    ensures Listed(Single(x, hs))
  {
  }

  lemma OneByOne(x: State, k: Key)
    ensures SubscribeAll([x], [0], k) == ([Subscribe(x, k).0], if Subscribe(x, k).1 then {0} else {})
    ensures UnsubscribeAll([x], [0], k) == [Unsubscribe(x, k)]
  {
    assert [0][..0] == [];
    assert SubscribeAll([x], [], k) == ([x], {}) && UnsubscribeAll([x], [], k) == [x];
    assert [x][0 := Unsubscribe(x, k)] == [Unsubscribe(x, k)];
    assert [x][0 := Subscribe(x, k).0] == [Subscribe(x, k).0];
    assert {} + {0 as nat} == {0 as nat};
  }

  lemma Registers(x: State, hs: map<Key, Handle>, k: Key)
    requires Listed(Single(x, hs)) && k !in hs
    ensures Enabled(Single(x, hs), ProvidersChange(k, [0]))
    ensures Step(Single(x, hs), ProvidersChange(k, [0])) == Single(x, hs[k := Handle(0, [0], {})])
  {
  }

  lemma Subscribes(x: State, hs: map<Key, Handle>, k: Key)
    requires Listed(Single(x, hs)) && k in hs && hs[k] == Handle(0, [0], {}) && Subscribe(x, k).1
    ensures Step(Single(x, hs), Action.HandleSubscribes(k)) == Single(Subscribe(x, k).0, hs[k := Handle(1, [0], {0})])
  {
    OneByOne(x, k);
    hide Subscribe, SubscribeAll;
  }

  lemma Unsubscribes(x: State, hs: map<Key, Handle>, k: Key)
    requires Listed(Single(x, hs)) && k in hs && hs[k].count == 1 && hs[k].providers == [0]
    ensures Step(Single(x, hs), HandleUnsubscribes(k)) == Single(Unsubscribe(x, k), hs[k := Handle(0, [0], {})])
  {
    OneByOne(x, k);
    hide Unsubscribe, UnsubscribeAll;
  }

  lemma Takes(x: State, hs: map<Key, Handle>)
    requires Listed(Single(x, hs)) && x.queued
    ensures Step(Single(x, hs), CallTaken(0)) == Single(TakeCall(x), hs)
  {
    hide TakeCall;
    assert [x][0 := TakeCall(x)] == [TakeCall(x)];
  }

  lemma GetsReady(x: State, hs: map<Key, Handle>)
    requires Listed(Single(x, hs))
    ensures Step(Single(x, hs), BecomesReady(0)) == Single(PluginReady(x), hs)
  {
    hide PluginReady;
    assert [x][0 := PluginReady(x)] == [PluginReady(x)];
  }

  lemma Flushes(x: State, hs: map<Key, Handle>)
    requires Listed(Single(x, hs)) && x.flushing && Provider.HandleSubscribes(x).1 == {}
    ensures Step(Single(x, hs), Flush(0)) == Single(Provider.HandleSubscribes(x).0, hs)
  {
    hide Provider.HandleSubscribes;
    assert [x][0 := Provider.HandleSubscribes(x).0] == [Provider.HandleSubscribes(x).0];
    assert FinishedAll(hs, 0, {}) == hs;
  }

  lemma Calls(x: State, hs: map<Key, Handle>, k: Key)
    requires Listed(Single(x, hs)) && k in x.plugin.calls
    ensures Step(Single(x, hs), SubscribeCallMade(0, k)) == Single(x.(plugin := NewSubscribe(x.plugin, k)), hs)
  {
    hide NewSubscribe;
    var y := x.(plugin := NewSubscribe(x.plugin, k));
    assert [x][0 := y] == [y];
  }

  lemma Replies(x: State, hs: map<Key, Handle>, k: Key)
    requires Listed(Single(x, hs)) && k in x.plugin.watchers
    ensures Step(Single(x, hs), ReplyArrives(0, k)) ==
      Single(x.(plugin := Reply(x.plugin, k)),
             if k in x.subscribedKeys then hs[k := Finished(Single(x, hs).H(k), 0)] else hs)
  {
    hide Reply;
    var y := x.(plugin := Reply(x.plugin, k));
    assert [x][0 := y] == [y];
  }
}
