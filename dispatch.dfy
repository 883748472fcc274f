/** The event handler as a pure state machine: one step per event, a run
    over a sequence of events that stops at the first terminating one, and
    what such runs guarantee about the reading and the fullscreen flag. */
module Dispatch {
  import opened Events

  /** Everything the handler can change: the accelerometer and gyroscope
      triples of the sensor reading, and the window's fullscreen flag. */
  datatype State = State(acc: Vec3, rot: Vec3, fullscreen: bool)

  /** The new state and the result reported to the host. */
  datatype Outcome = Outcome(state: State, result: AppResult)

  /** The state right after startup: all six values zero, and a window
      created without the fullscreen flag. */
  const Initial: State := State(Zero, Zero, false)

  /** The events that end the program: a quit request, or any key press
      except the fullscreen-toggle key. */
  predicate Terminates(e: Event) {
    e.Quit? || (e.KeyDown? && e.key != F10)
  }

  /** `e` is a sensor update from a sensor of kind `k`. */
  predicate Updates(e: Event, k: SensorKind) {
    e.SensorUpdate? && e.sensor == k
  }

  /** The triple of `s` that sensors of kind `k` write. */
  function Vector(s: State, k: SensorKind): Vec3
    requires k != OtherSensor
  {
    if k == Accel then s.acc else s.rot
  }

  /** The number of fullscreen-toggle key presses in `events`. */
  function TogglePresses(events: seq<Event>): nat {
    if events == [] then 0
    else (if events[0] == KeyDown(F10) then 1 else 0) + TogglePresses(events[1..])
  }

  /** One call of the event handler. */
  function Step(s: State, e: Event): (o: Outcome)
    ensures o.result == Success <==> Terminates(e)
    ensures o.result == Success ==> o.state == s
    ensures e.SensorUpdate? ==> o.result == Continue
    ensures Updates(e, Accel) ==> o.state.acc == Channels(e.data)
    ensures Updates(e, Gyro) ==> o.state.rot == Channels(e.data)
    ensures o.state.acc == s.acc || Updates(e, Accel)
    ensures o.state.rot == s.rot || Updates(e, Gyro)
    ensures o.state.fullscreen != s.fullscreen <==> e == KeyDown(F10)
  {
    match e
    case Quit => Outcome(s, Success)
    case KeyDown(key) =>
      if key == F10 then Outcome(s.(fullscreen := !s.fullscreen), Continue)
      else Outcome(s, Success)
    case SensorUpdate(sensor, data) =>
      var afterAccel := if sensor == Accel then s.(acc := Channels(data)) else s;
      var afterGyro := if sensor == Gyro then afterAccel.(rot := Channels(data)) else afterAccel;
      Outcome(afterGyro, Continue)
    case OtherEvent => Outcome(s, Continue)
  }

  /** The host delivering `events` one at a time, stopping after the first
      one for which the handler reports `Success`. */
  function Run(s: State, events: seq<Event>): (o: Outcome)
    ensures o.result == Success <==> exists i :: 0 <= i < |events| && Terminates(events[i])
    decreases |events|
  {
    if events == [] then Outcome(s, Continue)
    else
      var first := Step(s, events[0]);
      if first.result == Success then first
      else
        var rest := Run(first.state, events[1..]);
        assert forall i :: 0 <= i < |events| - 1 ==> events[1..][i] == events[i + 1];
        rest
  }

  /** Running `a` then `b` is running `a`, and then, unless `a` ended the
      program, running `b` from where `a` left off. */
  lemma {:induction false} RunAppend(s: State, a: seq<Event>, b: seq<Event>)
    ensures Run(s, a + b) ==
      (var first := Run(s, a);
       if first.result == Success then first else Run(first.state, b))
    decreases |a|
  {
    if a != [] {
      assert (a + b)[0] == a[0];
      assert (a + b)[1..] == a[1..] + b;
      RunAppend(Step(s, a[0]).state, a[1..], b);
    } else {
      assert a + b == b;
    }
  }

  /** Once an event ends the program, no later event is handled: the run
      reports `Success` with the state reached just before that event. */
  lemma StopsAtFirstTerminator(s: State, events: seq<Event>, k: nat)
    requires k < |events| && Terminates(events[k])
    requires forall j :: 0 <= j < k ==> !Terminates(events[j])
    ensures Run(s, events) == Outcome(Run(s, events[..k]).state, Success)
  {
    assert events == events[..k] + events[k..];
    RunAppend(s, events[..k], events[k..]);
    assert events[k..][0] == events[k];
  }

  /** Latest value wins: after a run of non-terminating events, the triple
      belonging to sensor kind `k` is the data of the last `k` update in the
      run, or what it was before if there was none; the triple is always
      replaced as a whole, from one event. */
  lemma {:induction false} LatestWins(s: State, events: seq<Event>, k: SensorKind)
    requires k != OtherSensor
    requires forall j :: 0 <= j < |events| ==> !Terminates(events[j])
    ensures Run(s, events).result == Continue
    ensures forall i :: 0 <= i < |events| && Updates(events[i], k) &&
                        (forall j :: i < j < |events| ==> !Updates(events[j], k)) ==>
                        Vector(Run(s, events).state, k) == Channels(events[i].data)
    ensures (forall j :: 0 <= j < |events| ==> !Updates(events[j], k)) ==>
              Vector(Run(s, events).state, k) == Vector(s, k)
    decreases |events|
  {
    if events != [] {
      var next := Step(s, events[0]).state;
      var rest := events[1..];
      assert forall j :: 0 <= j < |rest| ==> rest[j] == events[j + 1];
      LatestWins(next, rest, k);
      assert Run(s, events) == Run(next, rest);
      forall i | 0 <= i < |events| && Updates(events[i], k) &&
                 (forall j :: i < j < |events| ==> !Updates(events[j], k))
        ensures Vector(Run(s, events).state, k) == Channels(events[i].data)
      {
        if i > 0 {
          assert rest[i - 1] == events[i];
          assert forall j :: i - 1 < j < |rest| ==> !Updates(rest[j], k);
        } else {
          assert forall j :: 0 <= j < |rest| ==> !Updates(rest[j], k);
        }
      }
    }
  }

  /** The fullscreen flag after a run of non-terminating events is the
      original flag flipped once per toggle-key press. */
  lemma {:induction false} FullscreenParity(s: State, events: seq<Event>)
    requires forall j :: 0 <= j < |events| ==> !Terminates(events[j])
    ensures Run(s, events).state.fullscreen == (s.fullscreen != (TogglePresses(events) % 2 == 1))
    decreases |events|
  {
    if events != [] {
      var rest := events[1..];
      assert forall j :: 0 <= j < |rest| ==> rest[j] == events[j + 1];
      FullscreenParity(Step(s, events[0]).state, rest);
    }
  }

  /** Two consecutive presses of the toggle key restore the original state. */
  lemma DoubleToggleRestores(s: State)
    ensures Run(s, [KeyDown(F10), KeyDown(F10)]) == Outcome(s, Continue)
  {
  }

  /** Starting from the initial state, a sensor triple is zero until the
      first update from its sensor kind. */
  lemma ZeroUntilFirstUpdate(events: seq<Event>, k: SensorKind)
    requires k != OtherSensor
    requires forall j :: 0 <= j < |events| ==> !Terminates(events[j])
    requires forall j :: 0 <= j < |events| ==> !Updates(events[j], k)
    ensures Vector(Run(Initial, events).state, k) == Zero
  {
    LatestWins(Initial, events, k);
  }
}
