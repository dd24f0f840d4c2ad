/** Deferred calls: at most one queued call per method, and none is lost. */
module QueuedInvoker {

  /** `callQueue` is the set the mutex protects, `events` the queued signals of the event loop,
      `running` a call that has been taken out of both but has not started yet. */
  datatype State = State(callQueue: set<string>, events: seq<string>, running: seq<string>)

  datatype Action =
    | QueueOnce(m: string)   // any thread
    | TakeEvent              // the event loop: onQueuedCall up to the unlock
    | Invoke                 // the event loop: the call itself starts

  predicate Enabled(s: State, a: Action) {
    match a
    case QueueOnce(m) => true
    case TakeEvent => s.events != [] && s.running == []
    case Invoke => s.running != []
  }

  function Step(s: State, a: Action): State
    requires Enabled(s, a)
  {
    match a
    case QueueOnce(m) =>
      if m in s.callQueue then s
      else s.(events := s.events + [m], callQueue := s.callQueue + {m})
    case TakeEvent =>
      State(s.callQueue - {s.events[0]}, s.events[1..], [s.events[0]])
    case Invoke => s.(running := [])
  }

  ghost predicate Run(ss: seq<State>, acts: seq<Action>) {
    && |ss| == |acts| + 1
    && ss[0] == State({}, [], [])
    && forall i | 0 <= i < |acts| :: Enabled(ss[i], acts[i]) && ss[i + 1] == Step(ss[i], acts[i])
  }

  /** The queued signals are exactly the call queue, each method once. */
  ghost predicate OncePerMethod(s: State) {
    && (forall m :: m in s.events <==> m in s.callQueue)
    && (forall i, j | 0 <= i < j < |s.events| :: s.events[i] != s.events[j])
    && |s.running| <= 1
  }

  lemma {:induction false} AtMostOneOutstanding(ss: seq<State>, acts: seq<Action>, i: nat)
    requires Run(ss, acts) && i <= |acts|
    ensures OncePerMethod(ss[i])
  {
    if i > 0 {
      AtMostOneOutstanding(ss, acts, i - 1);
      var s, t := ss[i - 1], ss[i];
      if acts[i - 1].TakeEvent? {
        assert s.events == [s.events[0]] + t.events;
      }
    }
  }

  /** The invocation of m starts at step j. */
  ghost predicate Starts(ss: seq<State>, acts: seq<Action>, m: string, j: nat) {
    j < |acts| && j < |ss| && acts[j].Invoke? && ss[j].running == [m]
  }

  /** Every queueOnce(m) is followed by an invocation of m that starts after it, or m is still
      queued or about to start at the end of the run. */
  lemma {:induction false} NoCallIsLost(ss: seq<State>, acts: seq<Action>, i: nat, m: string, k: nat)
    requires Run(ss, acts) && i < k <= |acts| && acts[i] == QueueOnce(m)
    ensures m in ss[k].events || ss[k].running == [m] || exists j: nat :: i < j < k && Starts(ss, acts, m, j)
    decreases k
  {
    AtMostOneOutstanding(ss, acts, i);
    if k == i + 1 {
      assert m in ss[i + 1].callQueue;
      AtMostOneOutstanding(ss, acts, i + 1);
    } else {
      NoCallIsLost(ss, acts, i, m, k - 1);
      var s, t := ss[k - 1], ss[k];
      if j: nat :| i < j < k - 1 && Starts(ss, acts, m, j) {
        assert i < j < k && Starts(ss, acts, m, j);
      } else if s.running == [m] {
        if acts[k - 1].Invoke? {
          assert Starts(ss, acts, m, k - 1);
        }
      } else if acts[k - 1].TakeEvent? {
        assert s.events == [s.events[0]] + t.events;
      }
    }
  }

  class Invoker {
    var callQueue: set<string>
    var posted: seq<string>    // the queuedCall signals waiting in the event loop

    method QueueOnce(name: string)
      modifies this
      ensures State(callQueue, posted, []) ==
        Step(State(old(callQueue), old(posted), []), Action.QueueOnce(name))
    {
      if name !in callQueue {
        posted := posted + [name];
        callQueue := callQueue + {name};
      }
    }

    /** Returns the method to invoke, after the lock has been given up. */
    method OnQueuedCall() returns (name: string)
      requires posted != []
      modifies this
      ensures State(callQueue, posted, [name]) ==
        Step(State(old(callQueue), old(posted), []), TakeEvent)
    {
      name, posted := posted[0], posted[1..];
      callQueue := callQueue - {name};
    }
  }
}
