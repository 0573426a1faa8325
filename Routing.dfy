/** Triggers, targets and events of the step-orchestration runtime, generic in
    the type `S` that names a pipeline's steps and the type `N` of the names of
    functions, events and parameters. The runtime only compares names for
    equality, so a pipeline may name them by strings or by an enumeration of
    its strings. The edge table of a pipeline is a Dafny map from trigger to
    target, so each trigger has at most one target. */
module Routing {
  import opened Payload

  /** What an edge starts from: the input event fed to the process, the result
      of a step function, or an event a step function emits by name. */
  datatype Trigger<S, N> =
    | Input(name: N)
    | FunctionResult(source: S, functionName: N)
    | Emitted(source: S, event: N)

  /** What an edge leads to: a step, its function, and the name of the
      parameter that receives the event's payload. */
  datatype Target<S, N> = Target(step: S, functionName: N, parameter: N)

  datatype Event<S, N> = Event(trigger: Trigger<S, N>, payload: Value)

  /** An event a step function emits through its context: a name and data. */
  datatype Emission<N> = Emission(name: N, data: Value)

  /** The events, tagged as coming from `source`, that one invocation of
      `functionName` produces: its function-result event first, then what it
      emitted, in emission order. */
  function Produced<S, N>(source: S, functionName: N, result: Value, emitted: seq<Emission<N>>): (evs: seq<Event<S, N>>)
    ensures |evs| == |emitted| + 1
    ensures evs[0] == Event(FunctionResult(source, functionName), result)
    ensures forall i :: 0 <= i < |emitted| ==>
              evs[i + 1] == Event(Emitted(source, emitted[i].name), emitted[i].data)
  {
    [Event(FunctionResult(source, functionName), result)]
      + seq(|emitted|, i requires 0 <= i < |emitted| => Event(Emitted(source, emitted[i].name), emitted[i].data))
  }

  /** The events that have an edge, in their original order. An event without
      an edge reaches no step, so the drivers drop it here instead of
      enqueueing it and dropping it when it is dequeued. */
  function Route<S(==), N(==)>(edges: map<Trigger<S, N>, Target<S, N>>, evs: seq<Event<S, N>>): (routed: seq<Event<S, N>>)
    ensures |routed| <= |evs|
  {
    if evs == [] then []
    else (if evs[0].trigger in edges then [evs[0]] else []) + Route(edges, evs[1..])
  }

  /** Routing keeps exactly the events that have an edge. */
  lemma {:induction false} RouteMembers<S, N>(edges: map<Trigger<S, N>, Target<S, N>>, evs: seq<Event<S, N>>)
    ensures forall e :: e in Route(edges, evs) <==> e in evs && e.trigger in edges
  {
    if evs != [] {
      RouteMembers(edges, evs[1..]);
      assert evs == [evs[0]] + evs[1..];
    }
  }

  /** Routing keeps order: the routed events of two runs of events are the
      routed events of the first run followed by those of the second. */
  lemma {:induction false} RouteAppend<S, N>(edges: map<Trigger<S, N>, Target<S, N>>, a: seq<Event<S, N>>, b: seq<Event<S, N>>)
    ensures Route(edges, a + b) == Route(edges, a) + Route(edges, b)
  {
    if a == [] {
      assert a + b == b;
    } else {
      var head := if a[0].trigger in edges then [a[0]] else [];
      assert (a + b)[0] == a[0];
      assert (a + b)[1..] == a[1..] + b;
      RouteAppend(edges, a[1..], b);
      assert Route(edges, a + b) == head + Route(edges, a[1..] + b);
      assert Route(edges, a) == head + Route(edges, a[1..]);
    }
  }

  /** A single event is kept exactly when its trigger has an edge. */
  lemma RouteSingle<S, N>(edges: map<Trigger<S, N>, Target<S, N>>, e: Event<S, N>)
    ensures Route(edges, [e]) == if e.trigger in edges then [e] else []
  {
    assert [e][1..] == [];
  }
}
