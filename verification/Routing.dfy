/** What is subscribed on D-Bus, where calls are addressed to object paths, and where signals go. */
module Routing {
  import opened ObjectPaths
  import opened Options
  import opened Provider
  import opened Subscriptions
  import opened Settling

  // ---------------------------------------------------------------- paths over every run

  /** A Subscribe call is made to the path. */
  predicate CallsPath(s: System, a: Action, p: nat, path: string)
    requires p < |s.providers|
  {
    a.SubscribeCallMade? && a.p == p && KeyToPath(a.k) == path && a.k in s.providers[p].plugin.pendingKeys
  }

  /** The path loses its subscription: by a failure, or by an Unsubscribe call for any key with it. */
  predicate DropsPath(s: System, a: Action, p: nat, path: string)
    requires p < |s.providers|
  {
    var x := s.providers[p];
    a == Fails(p) || (a == Flush(p) && x.pluginState == Ready && path in Paths(x.toUnsubscribe))
  }

  lemma PathStep(s: System, a: Action, p: nat, path: string)
    requires Invariant(s) && Enabled(s, a) && p < |s.providers|
    ensures path in Step(s, a).providers[p].plugin.paths <==>
      CallsPath(s, a, p, path) || (path in s.providers[p].plugin.paths && !DropsPath(s, a, p, path))
  {
    hide Invariant, KeyToPath, Paths, Provider.HandleSubscribes, NewSubscribe;
    match a
    case HandleSubscribes(_) => HandlesLeavePluginsAlone(s, a, p);
    case HandleUnsubscribes(_) => HandlesLeavePluginsAlone(s, a, p);
    case ProvidersChange(_, _) => HandlesLeavePluginsAlone(s, a, p);
    case Flush(q) => FlushPath(s.providers[q], path);
    case SubscribeCallMade(q, k) => CallPath(s.providers[q].plugin, k, path);
    case _ =>
  }

  lemma FlushPath(x: State, path: string)
    ensures path in Provider.HandleSubscribes(x).0.plugin.paths <==>
      path in x.plugin.paths && !(x.pluginState == Ready && path in Paths(x.toUnsubscribe))
  {
    hide KeyToPath, Paths;
  }

  lemma CallPath(g: Plugin, k: Key, path: string)
    requires k in g.calls
    ensures path in NewSubscribe(g, k).paths <==> path in g.paths || (k in g.pendingKeys && KeyToPath(k) == path)
  {
    hide KeyToPath;
  }

  /** A Subscribe call was made to the path, and it has not been dropped since. */
  ghost predicate PathCalled(ss: seq<System>, acts: seq<Action>, i: nat, p: nat, path: string)
    requires Run(ss, acts) && i <= |acts| && p < |ss[0].providers|
  {
    exists j: nat :: j < i && PathCalledAt(ss, acts, i, p, path, j)
  }

  ghost predicate PathCalledAt(ss: seq<System>, acts: seq<Action>, i: nat, p: nat, path: string, j: nat)
    requires Run(ss, acts) && j < i <= |acts| && p < |ss[0].providers|
  {
    SameProviders(ss, acts, j);
    && CallsPath(ss[j], acts[j], p, path)
    && forall l | j < l < i :: (SameProviders(ss, acts, l); !DropsPath(ss[l], acts[l], p, path))
  }

  lemma PathCalledStep(ss: seq<System>, acts: seq<Action>, n: nat, p: nat, path: string)
    requires Run(ss, acts) && n < |acts| && p < |ss[0].providers| && p < |ss[n].providers|
    ensures PathCalled(ss, acts, n + 1, p, path) <==>
      CallsPath(ss[n], acts[n], p, path) || (PathCalled(ss, acts, n, p, path) && !DropsPath(ss[n], acts[n], p, path))
  {
    hide CallsPath, DropsPath;
    SameProviders(ss, acts, n);
    if CallsPath(ss[n], acts[n], p, path) {
      assert PathCalledAt(ss, acts, n + 1, p, path, n);
    }
    if PathCalled(ss, acts, n, p, path) && !DropsPath(ss[n], acts[n], p, path) {
      var j: nat :| j < n && PathCalledAt(ss, acts, n, p, path, j);
      assert PathCalledAt(ss, acts, n + 1, p, path, j);
    }
    if PathCalled(ss, acts, n + 1, p, path) {
      var j: nat :| j < n + 1 && PathCalledAt(ss, acts, n + 1, p, path, j);
      if j < n {
        assert PathCalledAt(ss, acts, n, p, path, j);
      }
    }
  }

  /** In every run, whatever keys share paths: a path is subscribed exactly if some key with it was, and
      no key with it has been unsubscribed since. */
  lemma {:induction false} PathsAreExact(ss: seq<System>, acts: seq<Action>, i: nat, p: nat, path: string)
    requires Run(ss, acts) && i <= |acts| && p < |ss[0].providers|
    ensures |ss[i].providers| == |ss[0].providers|
    ensures path in ss[i].providers[p].plugin.paths <==> PathCalled(ss, acts, i, p, path)
  {
    SameProviders(ss, acts, i);
    if i > 0 {
      var n := i - 1;
      PathsAreExact(ss, acts, n, p, path);
      EveryRunKeepsInvariant(ss, acts, n);
      PathStep(ss[n], acts[n], p, path);
      PathCalledStep(ss, acts, n, p, path);
    }
  }

  // ---------------------------------------------------------------- keys with a path of their own

  predicate Rivals(j: Key, k: Key) {
    j != k && KeyToPath(j) == KeyToPath(k)
  }

  /** No handle of another key with the same path subscribes before step i. */
  ghost predicate HasOwnPath(acts: seq<Action>, i: nat, k: Key)
    requires i <= |acts|
  {
    forall n | 0 <= n < i && acts[n].HandleSubscribes? :: !Rivals(acts[n].k, k)
  }

  /** The provider has never heard of the key. */
  predicate Unknown(x: State, j: Key) {
    && j !in x.subscribedKeys && j !in x.toSubscribe && j !in x.toUnsubscribe
    && j !in x.plugin.wire && j !in x.plugin.pendingKeys
  }

  ghost predicate NobodyAsked(s: System, j: Key) {
    s.H(j).count == 0 && forall p | 0 <= p < |s.providers| :: Unknown(s.providers[p], j)
  }

  lemma OtherKeys(x: State, k: Key, j: Key)
    requires j != k && Unknown(x, j)
    ensures Unknown(Subscribe(x, k).0, j) && Unknown(Unsubscribe(x, k), j)
  {
  }

  lemma HandlesAskForOthers(s: System, a: Action, j: Key)
    requires Invariant(s) && Enabled(s, a) && NobodyAsked(s, j)
    requires a.HandleSubscribes? || a.HandleUnsubscribes? || a.ProvidersChange?
    requires a.HandleSubscribes? ==> a.k != j
    ensures NobodyAsked(Step(s, a), j)
  {
    hide Sound, Unknown, Subscribe, Unsubscribe;
    var h, t := s.H(a.k), Step(s, a);
    forall x: State, k | k != j && Unknown(x, j)
      ensures Unknown(Subscribe(x, k).0, j) && Unknown(Unsubscribe(x, k), j)
    {
      OtherKeys(x, k, j);
    }
    match a
    case HandleSubscribes(k) =>
      if h.count == 0 { SubscribeAllEffect(s.providers, h.providers, k); }
    case HandleUnsubscribes(k) =>
      if h.count == 1 { UnsubscribeAllEffect(s.providers, h.providers, k); }
    case ProvidersChange(k, list) =>
      if h.count > 0 {
        UnsubscribeAllEffect(s.providers, h.providers, k);
        SubscribeAllEffect(UnsubscribeAll(s.providers, h.providers, k), list, k);
      }
  }

  lemma ProvidersStayUnaware(s: System, a: Action, j: Key)
    requires Invariant(s) && Enabled(s, a) && NobodyAsked(s, j)
    requires !a.HandleSubscribes? && !a.HandleUnsubscribes? && !a.ProvidersChange?
    ensures NobodyAsked(Step(s, a), j)
  {
    hide Sound, KeyToPath;
    var t := Step(s, a);
    forall p | 0 <= p < |t.providers| ensures Unknown(t.providers[p], j) {
      assert Unknown(s.providers[p], j);
    }
  }

  lemma {:induction false} StaysUnasked(ss: seq<System>, acts: seq<Action>, i: nat, j: Key)
    requires Run(ss, acts) && i <= |acts|
    requires forall n | 0 <= n < i && acts[n].HandleSubscribes? :: acts[n].k != j
    ensures NobodyAsked(ss[i], j)
  {
    if i > 0 {
      var s, a := ss[i - 1], acts[i - 1];
      StaysUnasked(ss, acts, i - 1, j);
      EveryRunKeepsInvariant(ss, acts, i - 1);
      hide Step, Invariant, Enabled, NobodyAsked;
      if a.HandleSubscribes? || a.HandleUnsubscribes? || a.ProvidersChange? {
        HandlesAskForOthers(s, a, j);
      } else {
        ProvidersStayUnaware(s, a, j);
      }
    }
  }

  /** The path of the key is subscribed exactly if the key is, and then signals from it are routed to
      the key. */
  predicate OwnsPath(g: Plugin, k: Key) {
    && (KeyToPath(k) in g.paths <==> k in g.bus)
    && (k in g.bus ==> Route(g, KeyToPath(k)) == Some(k))
  }

  /** No rival is about to be subscribed or unsubscribed. */
  ghost predicate Unrivalled(x: State, k: Key) {
    forall j | Rivals(j, k) :: Unknown(x, j)
  }

  lemma FlushOwnsPath(x: State, k: Key)
    requires OwnsPath(x.plugin, k) && Unrivalled(x, k)
    ensures OwnsPath(Provider.HandleSubscribes(x).0.plugin, k)
  {
    hide KeyToPath;
    assert KeyToPath(k) in Paths(x.toUnsubscribe) <==> k in x.toUnsubscribe by {
      forall j | j in x.toUnsubscribe && KeyToPath(j) == KeyToPath(k) ensures j == k {
        assert Rivals(j, k) ==> Unknown(x, j);
      }
    }
  }

  lemma CallOwnsPath(x: State, k: Key, j: Key)
    requires OwnsPath(x.plugin, k) && Unrivalled(x, k) && j in x.plugin.calls
    ensures OwnsPath(NewSubscribe(x.plugin, j), k)
  {
    hide KeyToPath;
    assert j in x.plugin.pendingKeys && KeyToPath(j) == KeyToPath(k) ==> j == k by {
      assert Rivals(j, k) ==> Unknown(x, j);
    }
  }

  lemma StepOwnsPath(s: System, a: Action, p: nat, k: Key)
    requires Invariant(s) && Enabled(s, a) && p < |s.providers|
    requires OwnsPath(s.providers[p].plugin, k) && Unrivalled(s.providers[p], k)
    ensures OwnsPath(Step(s, a).providers[p].plugin, k)
  {
    match a
    case HandleSubscribes(_) => HandlesLeavePluginsAlone(s, a, p);
    case HandleUnsubscribes(_) => HandlesLeavePluginsAlone(s, a, p);
    case ProvidersChange(_, _) => HandlesLeavePluginsAlone(s, a, p);
    case Flush(q) => if q == p { FlushOwnsPath(s.providers[p], k); }
    case SubscribeCallMade(q, j) => if q == p { CallOwnsPath(s.providers[p], k, j); }
    case _ => hide KeyToPath;
  }

  lemma UnaskedIsUnrivalled(ss: seq<System>, acts: seq<Action>, i: nat, p: nat, k: Key)
    requires Run(ss, acts) && i <= |acts| && p < |ss[i].providers| && HasOwnPath(acts, i, k)
    ensures Unrivalled(ss[i].providers[p], k)
  {
    hide Unknown, KeyToPath, Step, Enabled, Listed;
    forall j | Rivals(j, k) ensures Unknown(ss[i].providers[p], j) {
      StaysUnasked(ss, acts, i, j);
    }
  }

  /** In every run, a key with a path of its own is subscribed exactly if its path is, and then every
      signal from that path is routed to it. */
  lemma {:induction false} KeysOwnTheirPaths(ss: seq<System>, acts: seq<Action>, i: nat, p: nat, k: Key)
    requires Run(ss, acts) && i <= |acts| && p < |ss[0].providers| && HasOwnPath(acts, i, k)
    ensures |ss[i].providers| == |ss[0].providers|
    ensures OwnsPath(ss[i].providers[p].plugin, k)
  {
    SameProviders(ss, acts, i);
    if i > 0 {
      KeysOwnTheirPaths(ss, acts, i - 1, p, k);
      EveryRunKeepsInvariant(ss, acts, i - 1);
      UnaskedIsUnrivalled(ss, acts, i - 1, p, k);
      StepOwnsPath(ss[i - 1], acts[i - 1], p, k);
    }
  }

  /** Once idle, no handle waits for anybody, and for every ready provider and every key with a path of
      its own: the path is subscribed on D-Bus exactly if a subscribed handle of the key lists the
      provider, or the key was left behind by an overtaking unsubscription; and if it is, signals from
      the path reach the key. */
  lemma IdleMeansSettled(ss: seq<System>, acts: seq<Action>, i: nat)
    requires Run(ss, acts) && i <= |acts| && Idle(ss[i])
    ensures |ss[i].providers| == |ss[0].providers|
    ensures forall k :: ss[i].H(k).pending == {}
    ensures forall p, k |
      0 <= p < |ss[i].providers| && ss[i].providers[p].pluginState == Ready && HasOwnPath(acts, i, k) ::
      var g := ss[i].providers[p].plugin;
      && (KeyToPath(k) in g.paths <==> Wants(ss[i].H(k), p) || LeftBehind(ss, acts, i, p, k))
      && (KeyToPath(k) in g.paths ==> Route(g, KeyToPath(k)) == Some(k))
  {
    IdleMeansCalled(ss, acts, i);
    hide Run, Idle, LeftBehind, HasOwnPath, KeyToPath, Route;
    forall p, k | 0 <= p < |ss[i].providers| && ss[i].providers[p].pluginState == Ready && HasOwnPath(acts, i, k)
      ensures OwnsPath(ss[i].providers[p].plugin, k)
      ensures k in ss[i].providers[p].plugin.bus <==> Wants(ss[i].H(k), p) || LeftBehind(ss, acts, i, p, k)
    {
      KeysOwnTheirPaths(ss, acts, i, p, k);
    }
  }
}
