/** The life of a client between start and stop, as one machine that the Linux client
    and the async client both implement. */
module ClientMachine {

  /** enum messi_disconnect_reason_t. */
  datatype Reason =
    | MessageEncodeError
    | MessageDecodeError
    | ConnectionClosed
    | KeepAliveTimeout
    | GeneralError
    | MessageTooBig

  /** The callbacks of the application. */
  datatype Notice = OnConnected | OnDisconnected(reason: Reason)

  /** At rest; trying to connect; connected; to be reported as disconnected; without a
      timer for the next attempt to connect. */
  datatype Life = Idle | Trying | Up | Down(reason: Reason) | Stuck

  datatype Step =
    | Start
    | Connect
    | Raise(reason: Reason)
    | Report
    | GiveUp
    | Misreport(reason: Reason)
    | Stop

  /** `trace` holds the callbacks made since the last start. */
  datatype Machine = Machine(phase: Life, trace: seq<Notice>) {

    predicate Enabled(step: Step) {
      match step
      case Start => phase.Idle? || phase.Stuck?
      case Connect => phase.Trying?
      case Raise(_) => phase.Up? || phase.Down?
      case Report => phase.Down?
      case GiveUp => phase.Trying?
      case Misreport(_) => phase.Trying? || phase.Stuck?
      case Stop => true
    }

    /** Only the first reason raised on a connection is kept. A misreport is the fault of
        reporting a disconnection when there was no connection. */
    function After(step: Step): Machine
      requires Enabled(step)
    {
      match step
      case Start => Machine(Trying, [])
      case Connect => Machine(Up, trace + [OnConnected])
      case Raise(r) => if phase.Up? then Machine(Down(r), trace) else this
      case Report => Machine(Trying, trace + [OnDisconnected(phase.reason)])
      case GiveUp => Machine(Stuck, trace)
      case Misreport(r) => Machine(Trying, trace + [OnDisconnected(r)])
      case Stop => Machine(Idle, trace)
    }
  }

  function Last<T>(s: seq<T>): T
    requires s != []
  {
    s[|s| - 1]
  }

  function Init<T>(s: seq<T>): seq<T>
    requires s != []
  {
    s[..|s| - 1]
  }

  /** The steps can be taken one after the other. */
  predicate Legal(steps: seq<Step>)
    decreases |steps|, 0
  {
    steps == [] || (Legal(Init(steps)) && Run(Init(steps)).Enabled(Last(steps)))
  }

  function Run(steps: seq<Step>): Machine
    requires Legal(steps)
    decreases |steps|, 1
  {
    if steps == [] then Machine(Idle, []) else Run(Init(steps)).After(Last(steps))
  }

  // ----- what an observer of the steps expects to be told -----

  datatype Option<T> = None | Some(value: T)

  /** The first reason raised since the last connection was made, or the last start. */
  function FirstRaised(steps: seq<Step>): Option<Reason> {
    if steps == [] then None
    else match Last(steps)
      case Start => None
      case Connect => None
      case Raise(r) => if FirstRaised(Init(steps)).Some? then FirstRaised(Init(steps)) else Some(r)
      case _ => FirstRaised(Init(steps))
  }

  /** One notice per connection made since the last start, and one per connection given
      up, with the first reason raised on it. */
  function Expected(steps: seq<Step>): seq<Notice> {
    if steps == [] then []
    else match Last(steps)
      case Start => []
      case Connect => Expected(Init(steps)) + [OnConnected]
      case Report =>
        var r := FirstRaised(Init(steps));
        Expected(Init(steps)) + (if r.Some? then [OnDisconnected(r.value)] else [])
      case _ => Expected(Init(steps))
  }

  /** The misreports since the last start. */
  function Misreports(steps: seq<Step>): nat {
    if steps == [] then 0
    else match Last(steps)
      case Start => 0
      case Misreport(_) => Misreports(Init(steps)) + 1
      case _ => Misreports(Init(steps))
  }

  lemma {:induction false} DownKeepsFirst(steps: seq<Step>)
    requires Legal(steps)
    ensures Run(steps).phase.Up? ==> FirstRaised(steps) == None
    ensures Run(steps).phase.Down? ==> FirstRaised(steps) == Some(Run(steps).phase.reason)
  {
    if steps != [] {
      DownKeepsFirst(Init(steps));
    }
  }

  lemma {:induction false} MisreportsAreExtra(steps: seq<Step>)
    requires Legal(steps)
    ensures |Run(steps).trace| == |Expected(steps)| + Misreports(steps)
    ensures Misreports(steps) == 0 ==> Run(steps).trace == Expected(steps)
  {
    if steps != [] {
      MisreportsAreExtra(Init(steps));
      DownKeepsFirst(Init(steps));
    }
  }

  /** The callbacks are exactly those expected, with the expected reasons, as long as there
      was no misreport. */
  lemma TraceIsExpected(steps: seq<Step>)
    requires Legal(steps)
    ensures Run(steps).trace == Expected(steps) <==> Misreports(steps) == 0
  {
    MisreportsAreExtra(steps);
  }

  /** The trace is a prefix of (on_connected on_disconnected)*. */
  predicate Alternates(trace: seq<Notice>) {
    forall k :: 0 <= k < |trace| ==> (trace[k] == OnConnected <==> k % 2 == 0)
  }

  /** One misreport, and the callbacks are out of turn until the next start. */
  lemma {:induction false} CallbacksAlternate(steps: seq<Step>)
    requires Legal(steps)
    ensures var m := Run(steps);
      && (Alternates(m.trace) <==> Misreports(steps) == 0)
      && (Misreports(steps) == 0 && (m.phase.Up? || m.phase.Down?) ==> |m.trace| % 2 == 1)
      && (Misreports(steps) == 0 && (m.phase.Trying? || m.phase.Stuck?) ==> |m.trace| % 2 == 0)
  {
    if steps != [] {
      CallbacksAlternate(Init(steps));
      var m, t := Run(Init(steps)), Run(steps).trace;
      if !Last(steps).Start? {
        assert forall k :: 0 <= k < |m.trace| ==> t[k] == m.trace[k];
      }
      if Last(steps).Misreport? && Misreports(Init(steps)) == 0 {
        assert t[|m.trace|] != OnConnected;
      }
    }
  }

  /** A misreport right after the start, as the first callback. */
  lemma FirstMisreport(r: Reason)
    ensures Legal([Start, Misreport(r)]) && Run([Start, Misreport(r)]).trace == [OnDisconnected(r)]
    ensures Misreports([Start, Misreport(r)]) == 1 && !Alternates([OnDisconnected(r)])
  {
    Extend([], Start);
    Extend([] + [Start], Misreport(r));
    assert [] + [Start] + [Misreport(r)] == [Start, Misreport(r)];
    CallbacksAlternate([Start, Misreport(r)]);
  }

  lemma Extend(steps: seq<Step>, step: Step)
    requires Legal(steps) && Run(steps).Enabled(step)
    ensures Legal(steps + [step]) && Run(steps + [step]) == Run(steps).After(step)
    ensures step.Start? ==> Misreports(steps + [step]) == 0
    ensures !step.Start? ==> Misreports(steps + [step]) == Misreports(steps) + if step.Misreport? then 1 else 0
  {
    assert Init(steps + [step]) == steps && Last(steps + [step]) == step;
  }
}
