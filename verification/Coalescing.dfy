/** A ContextProperty on its handle: it subscribes at most once, and value changes reach it as
    queued calls. */
module Coalescing {
  import opened Variants

  /** `held` counts the subscriptions this property holds on the handle, `posted` the queued
      onValueChanged calls, `reports` the valueChanged signals given to the user (with the value at
      that time); `seen` is whether the handle changed since the property last subscribed. */
  datatype State = State(
    handleValue: Variant, subscribed: bool, held: int, posted: nat, value: Variant, reports: seq<Variant>, seen: bool)

  datatype Action = HandleChanges(v: Variant) | RunQueuedCall | Subscribe | Unsubscribe

  predicate Enabled(s: State, a: Action) {
    match a
    case HandleChanges(v) => v != s.handleValue
    case RunQueuedCall => s.posted > 0
    case _ => true
  }

  function OnValueChanged(s: State): State {
    if s.value != s.handleValue
    then s.(value := s.handleValue, reports := s.reports + [s.handleValue])
    else s
  }

  /** Only a connected property is called; calls already queued survive a disconnection. */
  function Step(s: State, a: Action): State
    requires Enabled(s, a)
  {
    match a
    case HandleChanges(v) =>
      if s.subscribed then s.(handleValue := v, posted := s.posted + 1, seen := true) else s.(handleValue := v)
    case RunQueuedCall => OnValueChanged(s.(posted := s.posted - 1))
    case Subscribe => if s.subscribed then s else s.(subscribed := true, held := s.held + 1, seen := false)
    case Unsubscribe => if s.subscribed then s.(subscribed := false, held := s.held - 1) else s
  }

  /** A new ContextProperty knows nothing yet, whatever its handle already holds. */
  function Start(handleValue: Variant): State {
    State(handleValue, true, 1, 0, Null, [], false)
  }

  ghost predicate Run(ss: seq<State>, acts: seq<Action>) {
    && |ss| == |acts| + 1
    && ss[0] == Start(ss[0].handleValue)
    && forall i | 0 <= i < |acts| :: Enabled(ss[i], acts[i]) && ss[i + 1] == Step(ss[i], acts[i])
  }

  ghost predicate NoRepeats(vs: seq<Variant>) {
    forall i | 0 <= i < |vs| - 1 :: vs[i] != vs[i + 1]
  }

  ghost predicate Invariant(s: State) {
    && s.held == (if s.subscribed then 1 else 0)
    && (s.subscribed && s.seen && s.posted == 0 ==> s.value == s.handleValue)
    && s.value == (if s.reports == [] then Null else s.reports[|s.reports| - 1])
    && NoRepeats([Null] + s.reports)
  }

  lemma StepKeeps(s: State, a: Action)
    requires Invariant(s) && Enabled(s, a)
    ensures Invariant(Step(s, a))
  {
    var t := Step(s, a);
    if t.reports != s.reports {
      assert [Null] + t.reports == ([Null] + s.reports) + [t.value];
    }
  }

  /** Over every run of subscribing, unsubscribing, changes and queued calls: the property holds one
      subscription while subscribed and none otherwise; reports never repeat the previous report (nor
      start with the null value the property began with); and once the queue has drained after at
      least one change since subscribing, the last report is the handle's value. */
  lemma {:induction false} DrainedMeansCurrent(ss: seq<State>, acts: seq<Action>)
    requires Run(ss, acts)
    ensures var s := ss[|acts|];
      && s.held == (if s.subscribed then 1 else 0)
      && NoRepeats([Null] + s.reports)
      && (s.subscribed && s.seen && s.posted == 0 ==> s.value == s.handleValue)
      && s.value == ([Null] + s.reports)[|s.reports|]
    ensures Invariant(ss[|acts|])
    decreases |acts|
  {
    if |acts| > 0 {
      var n := |acts| - 1;
      DrainedMeansCurrent(ss[..n + 1], acts[..n]);
      StepKeeps(ss[n], acts[n]);
    }
  }

  /** The queue runs dry before anything else happens. */
  function RunQueue(s: State): State
    decreases s.posted
  {
    if s.posted == 0 then s else RunQueue(Step(s, RunQueuedCall))
  }

  /** Unsubscribing does not silence a property: the calls already queued still run, and one of them
      reports exactly if there is one and the handle has moved on since the last report. */
  lemma {:induction false} ReportAfterUnsubscribe(s: State)
    ensures RunQueue(s).subscribed == s.subscribed && RunQueue(s).posted == 0
    ensures RunQueue(s).reports ==
      s.reports + if s.posted > 0 && s.value != s.handleValue then [s.handleValue] else []
    decreases s.posted
  {
    if s.posted > 0 {
      ReportAfterUnsubscribe(Step(s, RunQueuedCall));
    }
  }

  /** A property that is unsubscribed before its first queued call reports while unsubscribed. */
  lemma UnsubscribedYetReported(v: Variant) returns (ss: seq<State>, acts: seq<Action>)
    requires v != Null
    ensures Run(ss, acts) && |acts| == 3
    ensures !ss[2].subscribed && acts[2] == RunQueuedCall && ss[2].reports == [] && ss[3].reports == [v]
  {
    acts := [HandleChanges(v), Unsubscribe, RunQueuedCall];
    var changed := State(v, true, 1, 1, Null, [], true);
    var left := State(v, false, 0, 1, Null, [], true);
    var reported := State(v, false, 0, 0, v, [v], true);
    assert Step(Start(Null), acts[0]) == changed;
    assert Step(changed, acts[1]) == left;
    assert Step(left, acts[2]) == reported;
    hide Step;
    ss := [Start(Null), changed, left, reported];
  }

  /** The object's own fields; `held` stands for its part of the handle's subscription count. */
  class ContextProperty {
    var subscribed: bool
    var held: int
    var value: Variant
    var reports: seq<Variant>

    function View(handleValue: Variant, posted: nat, seen: bool): State
      reads this
    {
      State(handleValue, subscribed, held, posted, value, reports, seen)
    }

    constructor ()
      ensures forall v :: View(v, 0, false) == Start(v)
    {
      subscribed, held, value, reports := false, 0, Null, [];
      new;
      Subscribe();
    }

    method Subscribe()
      modifies this`subscribed, this`held
      ensures subscribed && held == old(held) + if old(subscribed) then 0 else 1
      ensures forall v, n, b ::
        View(v, n, if old(subscribed) then b else false) == Step(old(View(v, n, b)), Action.Subscribe)
    {
      if subscribed {
        return;
      }
      held := held + 1;
      subscribed := true;
    }

    method Unsubscribe()
      modifies this`subscribed, this`held
      ensures forall v, n, b :: View(v, n, b) == Step(old(View(v, n, b)), Action.Unsubscribe)
    {
      if !subscribed {
        return;
      }
      held := held - 1;
      subscribed := false;
    }

    method OnValueChanged(handleValue: Variant)
      modifies this`value, this`reports
      ensures forall n: nat, b :: View(handleValue, n, b) == Step(old(View(handleValue, n + 1, b)), RunQueuedCall)
    {
      var newValue := handleValue;
      if value != newValue {
        value := newValue;
        reports := reports + [newValue];
      }
    }
  }
}
