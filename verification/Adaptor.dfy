/** Who is subscribed to a property (PropertyAdaptor), and to a group of properties (Group). */
module Adaptor {
  import opened Variants
  import opened Property

  datatype Op =
    | Subscribe(client: string)
    | Unsubscribe(client: string)
    | ClientExits(client: string)
    | ServiceStops

  /** `watched` are the services whose exit is reported, `notices` the signals given so far. */
  datatype Clients = Clients(
    names: set<string>, watched: set<string>, subscribed: bool, notices: seq<Notice>)

  function Nobody(): Clients {
    Clients({}, {}, false, [])
  }

  function SetSubscribed(c: Clients): Clients {
    if c.subscribed then c
    else c.(subscribed := true, notices := c.notices + [FirstSubscriberAppeared])
  }

  function SetUnsubscribed(c: Clients): Clients {
    if c.subscribed
    then c.(subscribed := false, notices := c.notices + [LastSubscriberDisappeared])
    else c
  }

  function Step(c: Clients, op: Op): Clients {
    match op
    case Subscribe(n) =>
      if n in c.names then c
      else
        var d := c.(names := c.names + {n});
        (if |d.names| == 1 then SetSubscribed(d) else d).(watched := c.watched + {n})
    case Unsubscribe(n) =>
      if n !in c.names then c
      else
        var d := c.(names := c.names - {n});
        (if |d.names| == 0 then SetUnsubscribed(d) else d).(watched := c.watched - {n})
    case ClientExits(n) =>
      var d := c.(names := c.names - {n});
      (if n in c.names && |d.names| == 0 then SetUnsubscribed(d) else d).(watched := c.watched - {n})
    case ServiceStops =>
      SetUnsubscribed(c.(names := {}, watched := c.watched - c.names))
  }

  /** First, last, first, last, ... */
  ghost predicate Alternating(ns: seq<Notice>) {
    forall i | 0 <= i < |ns| ::
      ns[i] == if i % 2 == 0 then FirstSubscriberAppeared else LastSubscriberDisappeared
  }

  /** Subscribed exactly while there are clients, every client is watched and nobody else, and the
      notices alternate up to the present state. */
  ghost predicate Coherent(c: Clients) {
    && (c.subscribed <==> c.names != {})
    && c.watched == c.names
    && Alternating(c.notices)
    && (c.subscribed <==> |c.notices| % 2 == 1)
  }

  /** From c to d, with these clients: coherent, and a notice exactly when the subscription changes. */
  ghost predicate GoodStep(c: Clients, d: Clients, names: set<string>) {
    && Coherent(d)
    && d.names == names
    && d.notices == c.notices + (if c.subscribed == d.subscribed then []
                                 else if d.subscribed then [FirstSubscriberAppeared]
                                 else [LastSubscriberDisappeared])
  }

  /** Setting the subscription according to the new clients is a good step. */
  lemma ClientsChange(c: Clients, d: Clients, names: set<string>)
    requires Coherent(c) && d.names == names && d.watched == names
    requires d.subscribed == (names != {})
    requires d.notices == c.notices + (if c.subscribed == d.subscribed then []
                                       else if d.subscribed then [FirstSubscriberAppeared]
                                       else [LastSubscriberDisappeared])
    ensures GoodStep(c, d, names)
  {
    hide Alternating;
    if c.subscribed != d.subscribed {
      NoticeAlternates(c.notices, if d.subscribed then FirstSubscriberAppeared else LastSubscriberDisappeared);
    } else {
      assert d.notices == c.notices;
    }
  }

  function NamesAfter(c: Clients, op: Op): set<string> {
    match op
    case Subscribe(n) => c.names + {n}
    case Unsubscribe(n) => c.names - {n}
    case ClientExits(n) => c.names - {n}
    case ServiceStops => {}
  }

  lemma StepIsCoherent(c: Clients, op: Op)
    requires Coherent(c)
    ensures GoodStep(c, Step(c, op), NamesAfter(c, op))
  {
    hide Alternating, GoodStep;
    match op {
      case Subscribe(n) => if n !in c.names { SizeOne(c.names, n); }
      case _ =>
    }
    ClientsChange(c, Step(c, op), NamesAfter(c, op));
  }

  lemma NoticeAlternates(ns: seq<Notice>, n: Notice)
    requires Alternating(ns)
    requires n == if |ns| % 2 == 0 then FirstSubscriberAppeared else LastSubscriberDisappeared
    ensures Alternating(ns + [n])
  {
  }

  lemma SizeOne(s: set<string>, n: string)
    requires n !in s
    ensures |s + {n}| == 1 <==> s == {}
  {
    assert |s + {n}| == |s| + 1;
  }

  // ---------------------------------------------------------------- groups

  /** A group filled with distinct members; `counter` is propertiesSubscribedTo. */
  datatype GroupState = GroupState(members: seq<Clients>, counter: int, notices: seq<Notice>)

  function GroupHears(g: GroupState, n: Notice): GroupState {
    match n
    case FirstSubscriberAppeared =>
      var h := g.(counter := g.counter + 1);
      if h.counter == 1 then h.(notices := g.notices + [n]) else h
    case LastSubscriberDisappeared =>
      var h := g.(counter := g.counter - 1);
      if h.counter == 0 then h.(notices := g.notices + [n]) else h
  }

  /** Member i handles op; if it gives a notice, the group hears it. */
  function GroupStep(g: GroupState, i: nat, op: Op): GroupState
    requires i < |g.members|
  {
    var c, d := g.members[i], Step(g.members[i], op);
    var h := g.(members := g.members[i := d]);
    if |d.notices| > |c.notices| then GroupHears(h, d.notices[|d.notices| - 1]) else h
  }

  function NewGroup(n: nat): GroupState {
    GroupState(seq(n, _ => Nobody()), 0, [])
  }

  function RunGroup(g: GroupState, ops: seq<(nat, Op)>): (h: GroupState)
    requires forall k | 0 <= k < |ops| :: ops[k].0 < |g.members|
    ensures |h.members| == |g.members|
  {
    if |ops| == 0 then g
    else
      var n := |ops| - 1;
      GroupStep(RunGroup(g, ops[..n]), ops[n].0, ops[n].1)
  }

  function Subscribed(ms: seq<Clients>): nat {
    if |ms| == 0 then 0
    else Subscribed(ms[..|ms| - 1]) + if ms[|ms| - 1].subscribed then 1 else 0
  }

  lemma {:induction false} SubscribedUpdate(ms: seq<Clients>, i: nat, c: Clients)
    requires i < |ms|
    ensures Subscribed(ms[i := c]) + (if ms[i].subscribed then 1 else 0) ==
            Subscribed(ms) + (if c.subscribed then 1 else 0)
  {
    var n := |ms| - 1;
    if i < n {
      assert ms[i := c][..n] == ms[..n][i := c];
      SubscribedUpdate(ms[..n], i, c);
    } else {
      assert ms[i := c][..n] == ms[..n];
    }
  }

  ghost predicate GroupCoherent(g: GroupState) {
    && (forall i | 0 <= i < |g.members| :: Coherent(g.members[i]))
    && g.counter == Subscribed(g.members)
    && Alternating(g.notices)
    && (g.counter > 0 <==> |g.notices| % 2 == 1)
  }

  lemma GroupStepIsCoherent(g: GroupState, i: nat, op: Op)
    requires GroupCoherent(g) && i < |g.members|
    ensures GroupCoherent(GroupStep(g, i, op))
  {
    hide Alternating, Coherent, Step, Subscribed, NamesAfter;
    var c, d := g.members[i], Step(g.members[i], op);
    StepIsCoherent(c, op);
    CoherentNotices(c);
    SubscribedUpdate(g.members, i, d);
    var h := GroupStep(g, i, op);
    if h.notices != g.notices {
      NoticeAlternates(g.notices, h.notices[|g.notices|]);
    }
  }

  /** The last notice of a member tells whether it is subscribed. */
  lemma CoherentNotices(c: Clients)
    requires Coherent(c)
    ensures c.subscribed <==> |c.notices| % 2 == 1
  {
  }

  lemma {:induction false} NobodySubscribed(n: nat)
    ensures Subscribed(seq(n, _ => Nobody())) == 0
  {
    if n > 0 {
      assert seq(n, _ => Nobody())[..n - 1] == seq(n - 1, _ => Nobody());
      NobodySubscribed(n - 1);
    }
  }

  /** Over every run of Subscribe, Unsubscribe, client exits and service stops on the members of a
      group: each member is subscribed exactly while it has clients, watches exactly those, and its
      notices alternate; the group counts its subscribed members, and its notices alternate too. */
  lemma {:induction false} EveryGroupRunIsCoherent(n: nat, ops: seq<(nat, Op)>)
    requires forall k | 0 <= k < |ops| :: ops[k].0 < n
    ensures GroupCoherent(RunGroup(NewGroup(n), ops))
    decreases |ops|
  {
    if |ops| == 0 {
      NobodySubscribed(n);
    } else {
      var k := |ops| - 1;
      EveryGroupRunIsCoherent(n, ops[..k]);
      GroupStepIsCoherent(RunGroup(NewGroup(n), ops[..k]), ops[k].0, ops[k].1);
    }
  }

  /** The operation ends the subscription of the client. */
  predicate Leaves(op: Op, client: string) {
    op == Unsubscribe(client) || op == ClientExits(client) || op == ServiceStops
  }

  /** The client has subscribed to property i and not left since. */
  ghost predicate Stays(ops: seq<(nat, Op)>, i: nat, client: string) {
    exists j | 0 <= j < |ops| ::
      && ops[j] == (i, Subscribe(client))
      && forall l | j < l < |ops| :: ops[l].0 != i || !Leaves(ops[l].1, client)
  }

  lemma StaysNext(ops: seq<(nat, Op)>, i: nat, client: string)
    requires |ops| > 0
    ensures var n := |ops| - 1;
      Stays(ops, i, client) <==>
        ops[n] == (i, Subscribe(client)) ||
        (Stays(ops[..n], i, client) && (ops[n].0 != i || !Leaves(ops[n].1, client)))
  {
    hide Leaves;
    var n := |ops| - 1;
    if Stays(ops, i, client) && ops[n] != (i, Subscribe(client)) {
      var j :| 0 <= j < |ops| && ops[j] == (i, Subscribe(client)) &&
               forall l | j < l < |ops| :: ops[l].0 != i || !Leaves(ops[l].1, client);
      assert ops[..n][j] == ops[j];
    }
    if Stays(ops[..n], i, client) && (ops[n].0 != i || !Leaves(ops[n].1, client)) {
      var j :| 0 <= j < n && ops[..n][j] == (i, Subscribe(client)) &&
               forall l | j < l < n :: ops[..n][l].0 != i || !Leaves(ops[..n][l].1, client);
      forall l | j < l < |ops| ensures ops[l].0 != i || !Leaves(ops[l].1, client) {
        if l < n { assert ops[..n][l] == ops[l]; }
      }
    }
  }

  lemma StepMembers(c: Clients, op: Op, client: string)
    ensures client in Step(c, op).names <==>
      op == Subscribe(client) || (client in c.names && !Leaves(op, client))
  {
  }

  /** Over every run, the clients of a property are those that have subscribed and not left since, and
      the property is subscribed exactly while there is one. */
  lemma {:induction false} ClientsAreThoseWhoStay(n: nat, ops: seq<(nat, Op)>, i: nat, client: string)
    requires (forall k | 0 <= k < |ops| :: ops[k].0 < n) && i < n
    ensures client in RunGroup(NewGroup(n), ops).members[i].names <==> Stays(ops, i, client)
    ensures Stays(ops, i, client) ==> RunGroup(NewGroup(n), ops).members[i].subscribed
    decreases |ops|
  {
    hide Stays, Leaves, Step, Alternating, Subscribed;
    EveryGroupRunIsCoherent(n, ops);
    if |ops| == 0 {
      assert !Stays(ops, i, client) by { NobodyStays(i, client); }
    } else {
      var k := |ops| - 1;
      ClientsAreThoseWhoStay(n, ops[..k], i, client);
      StaysNext(ops, i, client);
      StepMembers(RunGroup(NewGroup(n), ops[..k]).members[i], ops[k].1, client);
    }
  }

  lemma NobodyStays(i: nat, client: string)
    ensures !Stays([], i, client)
  {
  }

  // ---------------------------------------------------------------- the objects

  class PropertyAdaptor {
    const property: PropertyPrivate
    var clientServiceNames: set<string>
    var watchedServices: set<string>

    function View(): Clients
      reads this, property
    {
      Clients(clientServiceNames, watchedServices, property.subscribed, property.notices)
    }

    constructor (property: PropertyPrivate)
      requires !property.subscribed && property.notices == []
      ensures this.property == property && View() == Nobody()
    {
      this.property := property;
      clientServiceNames, watchedServices := {}, {};
    }

    method Subscribe(client: string) returns (reply: Signal)
      modifies this, property
      ensures View() == Step(old(View()), Op.Subscribe(client))
      ensures property.View() == old(property.View()).(subscribed := property.subscribed)
      ensures property.sent == old(property.sent)
      ensures clientServiceNames == old(clientServiceNames) + {client}
      ensures reply == Signal(if property.value == Null then [] else [property.value], property.timestamp)
      ensures reply == Get(property.View())
    {
      if client !in clientServiceNames {
        clientServiceNames := clientServiceNames + {client};
        if |clientServiceNames| == 1 {
          property.SetSubscribed();
        }
        watchedServices := watchedServices + {client};
      }
      reply := Signal(Pack(property.value), property.timestamp);
    }

    method Unsubscribe(client: string)
      modifies this, property
      ensures View() == Step(old(View()), Op.Unsubscribe(client))
      ensures clientServiceNames == old(clientServiceNames) - {client}
      ensures property.View() == old(property.View()).(subscribed := property.subscribed)
      ensures property.sent == old(property.sent)
    {
      if client in clientServiceNames {
        clientServiceNames := clientServiceNames - {client};
        if |clientServiceNames| == 0 {
          property.SetUnsubscribed();
        }
        watchedServices := watchedServices - {client};
      }
    }

    method OnClientExited(client: string)
      modifies this, property
      ensures View() == Step(old(View()), ClientExits(client))
      ensures clientServiceNames == old(clientServiceNames) - {client}
      ensures property.View() == old(property.View()).(subscribed := property.subscribed)
      ensures property.sent == old(property.sent)
    {
      var known := client in clientServiceNames;
      clientServiceNames := clientServiceNames - {client};
      if known && |clientServiceNames| == 0 {
        property.SetUnsubscribed();
      }
      watchedServices := watchedServices - {client};
    }

    method ForgetClients()
      modifies this, property
      ensures View() == Step(old(View()), ServiceStops)
      ensures clientServiceNames == {} && !property.subscribed
      ensures property.View() == old(property.View()).(subscribed := property.subscribed)
      ensures property.sent == old(property.sent)
    {
      watchedServices := watchedServices - clientServiceNames;
      clientServiceNames := {};
      property.SetUnsubscribed();
    }
  }

  class Group {
    var propertiesSubscribedTo: int
    var notices: seq<Notice>

    /** The group's own part of its state. */
    function View(): GroupState
      reads this
    {
      GroupState([], propertiesSubscribedTo, notices)
    }

    constructor ()
      ensures propertiesSubscribedTo == 0 && notices == []
    {
      propertiesSubscribedTo, notices := 0, [];
    }

    method OnFirstSubscriberAppeared()
      modifies this
      ensures View() == GroupHears(old(View()), FirstSubscriberAppeared)
    {
      propertiesSubscribedTo := propertiesSubscribedTo + 1;
      if propertiesSubscribedTo == 1 {
        notices := notices + [FirstSubscriberAppeared];
      }
    }

    method OnLastSubscriberDisappeared()
      modifies this
      ensures View() == GroupHears(old(View()), LastSubscriberDisappeared)
    {
      propertiesSubscribedTo := propertiesSubscribedTo - 1;
      if propertiesSubscribedTo == 0 {
        notices := notices + [LastSubscriberDisappeared];
      }
    }

    /** In a coherent group this is true exactly while some member is subscribed. */
    method IsSubscribedTo(ghost g: GroupState) returns (b: bool)
      requires GroupCoherent(g) && g.counter == propertiesSubscribedTo
      ensures b <==> exists i :: 0 <= i < |g.members| && g.members[i].subscribed
    {
      SubscribedPositive(g.members);
      b := propertiesSubscribedTo > 0;
    }
  }

  lemma {:induction false} SubscribedPositive(ms: seq<Clients>)
    ensures Subscribed(ms) > 0 <==> exists i :: 0 <= i < |ms| && ms[i].subscribed
  {
    if |ms| > 0 {
      var n := |ms| - 1;
      SubscribedPositive(ms[..n]);
      if i :| 0 <= i < n && ms[i].subscribed {
        assert ms[..n][i].subscribed;
      }
    }
  }
}
