/** One published property: PropertyPrivate, which sets, emits and overhears values. */
module Property {
  import opened Variants

  /** A ValueChanged signal as it travels on D-Bus. */
  datatype Signal = Signal(values: seq<Variant>, time: nat)

  /** What a property tells its owner about its subscription state. */
  datatype Notice = FirstSubscriberAppeared | LastSubscriberDisappeared

  datatype State = State(
    value: Variant, timestamp: nat,
    emittedValue: Variant, emittedTimestamp: nat,
    overheard: bool, subscribed: bool)

  function Fresh(now: nat): State {
    State(Null, now, Null, now, false, false)
  }

  /** The state after emitting, and the signals put on the bus (none or one). */
  function Emit(s: State): (State, seq<Signal>) {
    if s.emittedTimestamp == s.timestamp && s.emittedValue == s.value then
      (s, [])
    else
      (s.(emittedValue := s.value, emittedTimestamp := s.timestamp, overheard := false),
       if s.subscribed then [Signal(Pack(s.value), s.timestamp)] else [])
  }

  function Set(s: State, v: Variant, now: nat): (State, seq<Signal>) {
    var t := s.(timestamp := now, value := v);
    if v != s.emittedValue || s.overheard then Emit(t) else (t, [])
  }

  function Overhear(s: State, m: Signal): (State, seq<Signal>) {
    if m.time > s.emittedTimestamp && Unpack(m.values) != s.emittedValue
    then Emit(s.(overheard := true))
    else (s, [])
  }

  /** The answer to Get and Subscribe: the intended value with the intended time stamp. */
  function Get(s: State): Signal {
    Signal(Pack(s.value), s.timestamp)
  }

  /** The invariant of one provider over every run. */
  predicate Consistent(s: State) {
    && s.value == s.emittedValue
    && s.emittedTimestamp <= s.timestamp
    && (s.overheard ==> s.emittedTimestamp == s.timestamp)
  }

  /** The intention is newer than what was last emitted, so one emission is still owed. */
  predicate Owes(s: State) {
    s.emittedTimestamp != s.timestamp
  }

  function Debt(s: State): nat {
    if Owes(s) then 1 else 0
  }

  lemma SetStep(s: State, v: Variant, now: nat)
    requires Consistent(s) && now > s.timestamp
    ensures var (t, out) := Set(s, v, now);
      && Consistent(t) && t.value == v && t.timestamp == now && t.subscribed == s.subscribed
      && |out| <= 1
      // Every emission is paid for by a call of setValue.
      && |out| + Debt(t) <= 1 + Debt(s)
      // Either the new intention is what everybody hears ...
      && (v != s.value || s.overheard ==>
            && t.emittedTimestamp == now && !t.overheard
            && (s.subscribed ==> out == [Signal(Pack(v), now)]))
      // ... or nothing but the intention's time stamp changed.
      && (v == s.value && !s.overheard ==> t == s.(timestamp := now) && out == [])
  {
  }

  lemma OverhearStep(s: State, m: Signal)
    requires Consistent(s)
    ensures var (t, out) := Overhear(s, m);
      && Consistent(t) && t.value == s.value && t.timestamp == s.timestamp
      && t.subscribed == s.subscribed
      && s.emittedTimestamp <= t.emittedTimestamp
      && |out| + Debt(t) <= Debt(s)
      && (m.time <= s.emittedTimestamp || Unpack(m.values) == s.value ==> t == s && out == [])
      && (m.time > s.emittedTimestamp && Unpack(m.values) != s.value && !Owes(s) ==>
            t == s.(overheard := true) && out == [])
      && (m.time > s.emittedTimestamp && Unpack(m.values) != s.value && Owes(s) ==>
            && t == s.(emittedTimestamp := s.timestamp)
            && out == if s.subscribed then [Signal(Pack(s.value), s.timestamp)] else [])
  {
  }

  /** Overhearing makes the provider repeat an intention that is older than what it heard. */
  predicate Stale(s: State, t: nat) {
    s.emittedTimestamp < s.timestamp <= t
  }

  /** After overhearing a newer, different value, the provider is sure to be heard again when it
      repeats its own value if and only if the overheard time stamp did not catch it with an
      older, unemitted intention: otherwise emitValue has cleared `overheard` and the repetition
      is dropped. */
  lemma RepetitionIsHeardUnlessStale(s: State, m: Signal, now: nat)
    requires Consistent(s) && s.subscribed
    requires m.time > s.emittedTimestamp && Unpack(m.values) != s.value
    requires now > m.time && now > s.timestamp
    ensures var t := Overhear(s, m).0;
      !Stale(s, m.time) <==>
        (t.emittedTimestamp > m.time || Set(t, s.value, now).1 == [Signal(Pack(s.value), now)])
  {
    OverhearStep(s, m);
    SetStep(Overhear(s, m).0, s.value, now);
  }

  class PropertyPrivate {
    var value: Variant
    var timestamp: nat
    var emittedValue: Variant
    var emittedTimestamp: nat
    var overheard: bool
    var subscribed: bool
    var sent: seq<Signal>      // valueChanged signals so far
    var notices: seq<Notice>   // firstSubscriberAppeared / lastSubscriberDisappeared so far

    function View(): State
      reads this
    {
      State(value, timestamp, emittedValue, emittedTimestamp, overheard, subscribed)
    }

    constructor (now: nat)
      ensures View() == Fresh(now) && sent == [] && notices == []
    {
      value, timestamp, subscribed := Null, now, false;
      emittedValue, emittedTimestamp, overheard := Null, now, false;
      sent, notices := [], [];
    }

    method SetValue(v: Variant, now: nat)
      requires Consistent(View()) && now >= timestamp
      modifies this
      ensures Consistent(View()) && notices == old(notices)
      ensures View() == Set(old(View()), v, now).0
      ensures sent == old(sent) + Set(old(View()), v, now).1
    {
      timestamp := now;
      value := v;
      if value != emittedValue {
        EmitValue();
        return;
      }
      if overheard {
        EmitValue();
      }
    }

    method EmitValue()
      modifies this
      ensures notices == old(notices)
      ensures View() == Emit(old(View())).0
      ensures sent == old(sent) + Emit(old(View())).1
    {
      if emittedTimestamp == timestamp && emittedValue == value {
        return;
      }
      emittedValue := value;
      emittedTimestamp := timestamp;
      overheard := false;
      if !subscribed {
        return;
      }
      var values: seq<Variant> := [];
      if value != Null {
        values := values + [value];
      }
      assert values == Pack(value);
      sent := sent + [Signal(values, timestamp)];
    }

    method UpdateOverheardValue(m: Signal)
      requires Consistent(View())
      modifies this
      ensures Consistent(View()) && notices == old(notices)
      ensures View() == Overhear(old(View()), m).0
      ensures sent == old(sent) + Overhear(old(View()), m).1
    {
      var overheardValue := Null;
      if |m.values| != 0 {
        overheardValue := m.values[0];
      }
      if m.time > emittedTimestamp && overheardValue != emittedValue {
        overheard := true;
        EmitValue();
      }
    }

    method SetSubscribed()
      modifies this
      ensures View() == old(View()).(subscribed := true) && sent == old(sent)
      ensures notices == old(notices) + if old(subscribed) then [] else [FirstSubscriberAppeared]
    {
      if !subscribed {
        subscribed := true;
        notices := notices + [FirstSubscriberAppeared];
      }
    }

    method SetUnsubscribed()
      modifies this
      ensures View() == old(View()).(subscribed := false) && sent == old(sent)
      ensures notices == old(notices) + if old(subscribed) then [LastSubscriberDisappeared] else []
    {
      if subscribed {
        subscribed := false;
        notices := notices + [LastSubscriberDisappeared];
      }
    }
  }
}
