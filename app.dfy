/** The program's heap state and its host callbacks: the sensor reading the
    application owns, the window whose fullscreen flag it flips, startup,
    the event handler, and the host delivering a sequence of events. */
module App {
  import opened Events
  import opened Dispatch

  /** The latest accelerometer and gyroscope values, updated in place. */
  class SensorReading {
    var accX: real
    var accY: real
    var accZ: real
    var rotX: real
    var rotY: real
    var rotZ: real

    /** Allocation followed by zeroing every field. */
    constructor Zeroed()
      ensures accX == 0.0 && accY == 0.0 && accZ == 0.0
      ensures rotX == 0.0 && rotY == 0.0 && rotZ == 0.0
    {
      accX := 0.0;
      accY := 0.0;
      accZ := 0.0;
      rotX := 0.0;
      rotY := 0.0;
      rotZ := 0.0;
    }

    function Acc(): Vec3
      reads this
    {
      Vec3(accX, accY, accZ)
    }

    function Rot(): Vec3
      reads this
    {
      Vec3(rotX, rotY, rotZ)
    }
  }

  /** The application window; only its fullscreen flag matters here. */
  class Window {
    var fullscreen: bool

    /** A window created with no flags, so not fullscreen. */
    constructor Create()
      ensures !fullscreen
    {
      fullscreen := false;
    }
  }

  /** The abstract state held by a window and a reading. */
  function StateOf(window: Window, reading: SensorReading): State
    reads window, reading
  {
    State(reading.Acc(), reading.Rot(), window.fullscreen)
  }

  /** Startup: create the window, allocate the reading and zero it. */
  method AppInit() returns (window: Window, reading: SensorReading)
    ensures fresh(window) && fresh(reading)
    ensures reading.accX == 0.0 && reading.accY == 0.0 && reading.accZ == 0.0
    ensures reading.rotX == 0.0 && reading.rotY == 0.0 && reading.rotZ == 0.0
    ensures StateOf(window, reading) == Initial
  {
    window := new Window.Create();
    reading := new SensorReading.Zeroed();
  }

  /** The event handler: quit and key presses end the program except F10,
      which flips fullscreen; sensor updates overwrite the triple of their
      sensor kind; everything else is ignored. */
  method AppEvent(window: Window, reading: SensorReading, e: Event) returns (r: AppResult)
    modifies window, reading
    ensures r == Success <==> Terminates(e)
    ensures e == KeyDown(F10) ==> window.fullscreen == !old(window.fullscreen)
    ensures e != KeyDown(F10) ==> window.fullscreen == old(window.fullscreen)
    ensures Updates(e, Accel) ==>
              reading.accX == e.data[0] && reading.accY == e.data[1] && reading.accZ == e.data[2]
    ensures !Updates(e, Accel) ==> reading.Acc() == old(reading.Acc())
    ensures Updates(e, Gyro) ==>
              reading.rotX == e.data[0] && reading.rotY == e.data[1] && reading.rotZ == e.data[2]
    ensures !Updates(e, Gyro) ==> reading.Rot() == old(reading.Rot())
    ensures Outcome(StateOf(window, reading), r) == Step(old(StateOf(window, reading)), e)
  {
    if e.KeyDown? || e.Quit? {
      if e.KeyDown? && e.key == F10 {
        var isFullscreen := window.fullscreen;
        window.fullscreen := !isFullscreen;
        return Continue;
      }
      return Success;
    }

    if e.SensorUpdate? {
      if e.sensor == Accel {
        reading.accX := e.data[0];
        reading.accY := e.data[1];
        reading.accZ := e.data[2];
      }
      if e.sensor == Gyro {
        reading.rotX := e.data[0];
        reading.rotY := e.data[1];
        reading.rotZ := e.data[2];
      }
    }
    return Continue;
  }

  /** The host calling the event handler once per event, in order, until it
      reports `Success`; `handled` is how many events were delivered. */
  method DeliverEvents(window: Window, reading: SensorReading, events: seq<Event>)
    returns (r: AppResult, handled: nat)
    modifies window, reading
    ensures Outcome(StateOf(window, reading), r) == Run(old(StateOf(window, reading)), events)
    ensures handled <= |events|
    ensures forall j :: 0 <= j < handled - 1 ==> !Terminates(events[j])
    ensures r == Success ==> 0 < handled && Terminates(events[handled - 1])
    ensures r == Continue ==> handled == |events|
  {
    ghost var start := StateOf(window, reading);
    r, handled := Continue, 0;
    while handled < |events| && r == Continue
      invariant handled <= |events|
      invariant Outcome(StateOf(window, reading), r) == Run(start, events[..handled])
      invariant forall j :: 0 <= j < handled - 1 ==> !Terminates(events[j])
      invariant r == Success ==> 0 < handled && Terminates(events[handled - 1])
      invariant r == Continue ==> forall j :: 0 <= j < handled ==> !Terminates(events[j])
    {
      RunAppend(start, events[..handled], [events[handled]]);
      assert events[..handled + 1] == events[..handled] + [events[handled]];
      r := AppEvent(window, reading, events[handled]);
      handled := handled + 1;
    }
    if r == Success {
      var k := handled - 1;
      assert forall j :: 0 <= j < k ==> events[..k][j] == events[j];
      RunAppend(start, events[..k], [events[k]]);
      assert events[..k] + [events[k]] == events[..handled];
      StopsAtFirstTerminator(start, events, k);
    } else {
      assert events[..handled] == events;
    }
  }

  /** A session: one accelerometer sample, one gyroscope sample, two
      presses of F10, then a quit request. */
  method ExampleSession() {
    var window, reading := AppInit();
    var r := AppEvent(window, reading, SensorUpdate(Accel, [1.23, -4.56, 0.0]));
    assert r == Continue && reading.Acc() == Vec3(1.23, -4.56, 0.0) && reading.Rot() == Zero;
    r := AppEvent(window, reading, SensorUpdate(Gyro, [0.1, 0.2, 0.3]));
    assert r == Continue && reading.Acc() == Vec3(1.23, -4.56, 0.0) && reading.Rot() == Vec3(0.1, 0.2, 0.3);
    r := AppEvent(window, reading, KeyDown(F10));
    assert window.fullscreen;
    r := AppEvent(window, reading, KeyDown(F10));
    assert !window.fullscreen;
    r := AppEvent(window, reading, Quit);
    assert r == Success;
  }
}
