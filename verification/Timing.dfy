/** Keep-alive as a timed composition of one client and one server: the client checks
    for a pong and sends a ping every two seconds, the server gives a client up when it
    has not pinged for three. Timers fire exactly when they are due. */
module Timing {

  const CLIENT_PERIOD := 2.0
  const SERVER_WINDOW := 3.0

  /** What is assumed of deliveries: nothing; or that a ping is handled within `ping` of
      being sent, its pong within `pong` of that, and that the client arms its timer at
      most `late` after the server. */
  datatype Bounds = Unbounded | Within(ping: real, pong: real, late: real)

  /** One side of the connection: not yet there, connected with a timer that is due, or
      gone because its timer found the peer silent. `since` is when the peer was last heard
      of, or when the timer was first armed. */
  datatype Side = Off | Due(at: real, since: real) | Gone(when: real, since: real)

  datatype Step =
    | Pass(time: real)
    | ClientConnects
    | ServerAccepts
    | ClientTimer
    | ServerTimer
    | PingArrives
    | PongArrives

  /** `pings` and `pongs` are in flight, each with the time at which it was sent. */
  datatype State = State(now: real, client: Side, pongReceived: bool, server: Side,
                         pings: seq<real>, pongs: seq<real>, bounds: Bounds)
  {
    /** Time passes up to the next timer, and up to the next delivery that is due; what is
        on its way to a side that is gone is not delivered. */
    predicate MayPass(time: real) {
      var t := now + time;
      && time >= 0.0
      && (client.Due? ==> t <= client.at)
      && (server.Due? ==> t <= server.at)
      && (bounds.Within? && pings != [] && !server.Gone? ==> t <= pings[0] + bounds.ping)
      && (bounds.Within? && pongs != [] && !client.Gone? ==> t <= pongs[0] + bounds.pong)
      && (bounds.Within? && server.Due? && client.Off? ==> t <= server.since + bounds.late)
    }

    /** Each side goes on by itself when the other is gone. */
    predicate Enabled(step: Step) {
      match step
      case Pass(time) => MayPass(time)
      case ClientConnects => client.Off?
      case ServerAccepts => server.Off?
      case ClientTimer => client.Due? && now == client.at
      case ServerTimer => server.Due? && now == server.at
      case PingArrives => pings != [] && server.Due?
      case PongArrives => pongs != [] && client.Due?
    }

    function After(step: Step): State
      requires Enabled(step)
    {
      match step
      case Pass(time) => this.(now := now + time)
      case ClientConnects => this.(client := Due(now + CLIENT_PERIOD, now), pongReceived := true)
      case ServerAccepts => this.(server := Due(now + SERVER_WINDOW, now))
      case ClientTimer =>
        if pongReceived then
          this.(client := Due(now + CLIENT_PERIOD, client.since), pongReceived := false, pings := pings + [now])
        else
          this.(client := Gone(now, client.since))
      case ServerTimer => this.(server := Gone(now, server.since))
      case PingArrives => this.(server := Due(now + SERVER_WINDOW, now), pings := pings[1..], pongs := pongs + [now])
      case PongArrives => this.(client := Due(client.at, now), pongReceived := true, pongs := pongs[1..])
    }

    /** A keep-alive timer has found its peer silent. */
    predicate Alarm() {
      client.Gone? || server.Gone?
    }
  }

  function Initial(bounds: Bounds): State {
    State(0.0, Off, false, Off, [], [], bounds)
  }

  predicate Legal(s: State, steps: seq<Step>)
    decreases |steps|
  {
    steps == [] || (s.Enabled(steps[0]) && Legal(s.After(steps[0]), steps[1..]))
  }

  function End(s: State, steps: seq<Step>): State
    requires Legal(s, steps)
    decreases |steps|
  {
    if steps == [] then s else End(s.After(steps[0]), steps[1..])
  }

  // ----- no false alarms -----

  /** The delays leave each side enough time. */
  predicate FastEnough(b: Bounds) {
    b.Within? && b.ping + b.pong < CLIENT_PERIOD && b.late + b.ping < SERVER_WINDOW - CLIENT_PERIOD
  }

  /** At most one ping or pong is in flight, and only while the client waits for it. */
  predicate InFlight(s: State) {
    && s.bounds.Within? && !s.Alarm()
    && (s.client.Off? ==> s.pings == s.pongs == [])
    && (s.client.Due? ==> s.client.at - CLIENT_PERIOD <= s.now <= s.client.at)
    && (s.client.Due? && s.pongReceived ==> s.pings == s.pongs == [])
    && (s.client.Due? && !s.pongReceived ==>
          || (s.pongs == [] && s.pings == [s.client.at - CLIENT_PERIOD] && s.now <= s.pings[0] + s.bounds.ping)
          || (s.pings == [] && |s.pongs| == 1 && s.pongs[0] <= s.client.at - CLIENT_PERIOD + s.bounds.ping
              && s.now <= s.pongs[0] + s.bounds.pong))
  }

  /** The server waits longer than the next ping can take. */
  predicate Patient(s: State) {
    s.bounds.Within? && (s.server.Due? ==>
      match s.client
      case Off => s.server.at == s.server.since + SERVER_WINDOW && s.now <= s.server.since + s.bounds.late
      case Gone(_, _) => false
      case Due(at, _) => (if s.pings == [] then at else s.pings[0]) + s.bounds.ping < s.server.at)
  }

  lemma StepKeepsQuiet(s: State, step: Step)
    requires FastEnough(s.bounds) && s.bounds.ping >= 0.0 && s.bounds.pong >= 0.0 && s.bounds.late >= 0.0
    requires InFlight(s) && Patient(s) && s.Enabled(step)
    ensures var t := s.After(step); InFlight(t) && Patient(t) && t.bounds == s.bounds
  {
  }

  lemma {:induction false} RunKeepsQuiet(s: State, steps: seq<Step>)
    requires FastEnough(s.bounds) && s.bounds.ping >= 0.0 && s.bounds.pong >= 0.0 && s.bounds.late >= 0.0
    requires InFlight(s) && Patient(s) && Legal(s, steps)
    ensures !End(s, steps).Alarm()
    decreases |steps|
  {
    if steps != [] {
      StepKeepsQuiet(s, steps[0]);
      RunKeepsQuiet(s.After(steps[0]), steps[1..]);
    }
  }

  /** A run in which the server gives up a client whose ping is still on its way. */
  function ServerAlarmRun(b: Bounds): seq<Step>
    requires b.Within?
  {
    var ping := if b.ping < 1.0 then b.ping else 1.0;
    [ServerAccepts, Pass(1.0 - ping), ClientConnects, Pass(2.0), ClientTimer, Pass(ping), ServerTimer]
  }

  /** A run in which the client gives up while the pong is still on its way. */
  function ClientAlarmRun(b: Bounds): seq<Step>
    requires b.Within?
  {
    [ServerAccepts, ClientConnects, Pass(2.0), ClientTimer, Pass(b.ping), PingArrives, Pass(2.0 - b.ping), ClientTimer]
  }

  lemma Prepend(s: State, step: Step, rest: seq<Step>)
    requires s.Enabled(step) && Legal(s.After(step), rest)
    ensures Legal(s, [step] + rest) && End(s, [step] + rest) == End(s.After(step), rest)
  {
    assert ([step] + rest)[1..] == rest;
  }

  lemma {:induction false} ServerAlarmRunAlarms(b: Bounds)
    requires b.Within? && b.ping >= 0.0 && b.pong >= 0.0 && b.late >= 0.0
    requires b.late + b.ping >= SERVER_WINDOW - CLIENT_PERIOD
    ensures Legal(Initial(b), ServerAlarmRun(b)) && End(Initial(b), ServerAlarmRun(b)).Alarm()
  {
    hide Legal, End;
    var steps := ServerAlarmRun(b);
    var s0 := Initial(b);
    var s1 := s0.After(steps[0]);
    var s2 := s1.After(steps[1]);
    var s3 := s2.After(steps[2]);
    var s4 := s3.After(steps[3]);
    var s5 := s4.After(steps[4]);
    var s6 := s5.After(steps[5]);
    NoMore(s6.After(steps[6]), steps, 7);
    PrependAt(s6, steps, 6);
    PrependAt(s5, steps, 5);
    PrependAt(s4, steps, 4);
    PrependAt(s3, steps, 3);
    PrependAt(s2, steps, 2);
    PrependAt(s1, steps, 1);
    PrependAt(s0, steps, 0);
    assert steps[0..] == steps;
  }

  lemma {:induction false} ClientAlarmRunAlarms(b: Bounds)
    requires b.Within? && b.ping >= 0.0 && b.pong >= 0.0 && b.late >= 0.0
    requires b.ping < 1.0 && b.ping + b.pong >= CLIENT_PERIOD
    ensures Legal(Initial(b), ClientAlarmRun(b)) && End(Initial(b), ClientAlarmRun(b)).Alarm()
  {
    hide Legal, End;
    var steps := ClientAlarmRun(b);
    var s0 := Initial(b);
    var s1 := s0.After(steps[0]);
    var s2 := s1.After(steps[1]);
    var s3 := s2.After(steps[2]);
    var s4 := s3.After(steps[3]);
    var s5 := s4.After(steps[4]);
    var s6 := s5.After(steps[5]);
    var s7 := s6.After(steps[6]);
    NoMore(s7.After(steps[7]), steps, 8);
    PrependAt(s7, steps, 7);
    PrependAt(s6, steps, 6);
    PrependAt(s5, steps, 5);
    PrependAt(s4, steps, 4);
    PrependAt(s3, steps, 3);
    PrependAt(s2, steps, 2);
    PrependAt(s1, steps, 1);
    PrependAt(s0, steps, 0);
    assert steps[0..] == steps;
  }

  lemma NoMore(s: State, steps: seq<Step>, n: nat)
    requires n == |steps|
    ensures Legal(s, steps[n..]) && End(s, steps[n..]) == s
  {
  }

  lemma PrependAt(s: State, steps: seq<Step>, n: nat)
    requires n < |steps| && s.Enabled(steps[n]) && Legal(s.After(steps[n]), steps[n + 1..])
    ensures Legal(s, steps[n..]) && End(s, steps[n..]) == End(s.After(steps[n]), steps[n + 1..])
  {
    assert steps[n..] == [steps[n]] + steps[n + 1..];
    Prepend(s, steps[n], steps[n + 1..]);
  }

  /** The keep-alive timers of both sides are right for exactly these delays. */
  lemma NoFalseAlarmsIff(b: Bounds)
    requires b.Within? && b.ping >= 0.0 && b.pong >= 0.0 && b.late >= 0.0
    ensures (forall steps :: Legal(Initial(b), steps) ==> !End(Initial(b), steps).Alarm()) <==> FastEnough(b)
  {
    if FastEnough(b) {
      forall steps | Legal(Initial(b), steps) ensures !End(Initial(b), steps).Alarm() {
        RunKeepsQuiet(Initial(b), steps);
      }
    } else {
      if b.late + b.ping >= SERVER_WINDOW - CLIENT_PERIOD {
        ServerAlarmRunAlarms(b);
      } else {
        ClientAlarmRunAlarms(b);
      }
    }
  }

  // ----- detection -----

  /** How long each side can go on without hearing of the other. */
  predicate Bounded(s: State) {
    && match s.client {
         case Off => true
         case Due(at, since) =>
           && since <= s.now <= at <= s.now + CLIENT_PERIOD
           && (if s.pongReceived then at <= since + CLIENT_PERIOD
               else since + CLIENT_PERIOD <= at <= since + CLIENT_PERIOD + CLIENT_PERIOD)
         case Gone(when, since) =>
           when <= s.now && since + CLIENT_PERIOD <= when <= since + CLIENT_PERIOD + CLIENT_PERIOD
       }
    && match s.server {
         case Off => true
         case Due(at, since) => since <= s.now <= at == since + SERVER_WINDOW
         case Gone(when, since) => when == since + SERVER_WINDOW <= s.now
       }
  }

  lemma {:induction false} RunIsBounded(s: State, steps: seq<Step>)
    requires Bounded(s) && Legal(s, steps)
    ensures Bounded(End(s, steps))
    decreases |steps|
  {
    if steps != [] {
      RunIsBounded(s.After(steps[0]), steps[1..]);
    }
  }

  /** In every run, whatever is lost or late, and whatever has become of the other side: the
      client gives the connection up between two and four seconds after its last pong, or
      after connecting, and the server three seconds after the last ping, or after accepting. */
  lemma DetectionBound(b: Bounds, steps: seq<Step>)
    requires Legal(Initial(b), steps)
    ensures var s := End(Initial(b), steps);
      && (s.client.Due? ==> s.now <= s.client.since + 4.0)
      && (s.client.Gone? ==> s.client.since + 2.0 <= s.client.when <= s.client.since + 4.0)
      && (s.server.Due? ==> s.now <= s.server.since + 3.0)
      && (s.server.Gone? ==> s.server.when == s.server.since + 3.0)
  {
    RunIsBounded(Initial(b), steps);
  }
}
