# Sensor readings example: event handling model

A Dafny model of the event-handling core of a small SDL3 program that shows
live accelerometer and gyroscope readings. The program keeps one heap-allocated
`SensorReading` record of six values (`accX, accY, accZ, rotX, rotY, rotZ`),
zeroed at startup. Its event callback does three things:

- A quit request or any key press ends the program with success.
- The F10 key is the exception: it flips the window's fullscreen mode and
  the program keeps running.
- A sensor update from the accelerometer overwrites the three `acc*`
  fields, and one from the gyroscope overwrites the three `rot*` fields,
  each from the event's first three data channels. Other sensors and every
  other event are ignored.

Layout:

- `events.dfy` (module `Events`): the value types. These are the three-axis
  sample `Vec3`, the resolved sensor kind, keys, events and the callback
  result `Continue | Success`.
- `dispatch.dfy` (module `Dispatch`): the handler as a pure state machine.
  `Step` handles one event. `Run` is the host delivering a sequence of
  events until the first `Success`. The lemmas prove what such runs
  guarantee.
- `app.dfy` (module `App`): the imperative program. It has a
  `SensorReading` class whose six fields are updated in place and a
  `Window` class with a `fullscreen` flag. `AppInit`, `AppEvent` and the
  driver loop `DeliverEvents` are proved against `Initial`, `Step` and `Run`
  respectively.

C `float` values are modelled as `real`: they are only copied, never
computed on.

## Model

| member | source | states |
|---|---|---|
| `App.SensorReading.Zeroed` | main.c:35-45 | the freshly allocated reading has all six fields equal to zero |
| `App.Window.Create` | main.c:24 | the window is created with no flags, so it starts out not fullscreen |
| `App.AppInit` | main.c:19-50 | startup yields a fresh window and reading whose abstract state is `Initial`: six zeros, not fullscreen |
| `App.AppEvent` | main.c:53-89 | returns `Success` exactly for quit and non-F10 key presses; F10 flips fullscreen and nothing else; an accelerometer update sets `accX, accY, accZ` to `data[0..2]` and a gyroscope update sets `rotX, rotY, rotZ` likewise; every other triple and the flag are unchanged; the new state is `Step` of the old one |
| `App.DeliverEvents` | main.c:53-89 | handling events one by one until the first `Success` leaves the state and result that `Run` gives; it stops right after the first terminating event and handles all events when there is none |
| `Dispatch.Step` | main.c:53-89 | the result is `Success` iff the event terminates; a terminating event changes nothing; a sensor event never terminates; an accelerometer update sets `acc` to the event's first three channels and a gyroscope update sets `rot` likewise; only an accelerometer update can change `acc`, only a gyroscope update can change `rot`; the fullscreen flag changes iff the event is an F10 press |
| `Dispatch.Run` | main.c:56-66 | a run ends with `Success` iff some event in it is a quit request or a non-F10 key press |
| `Dispatch.RunAppend` | main.c:53-89 | running `a + b` is running `a`, then running `b` from its state unless `a` already ended the program |
| `Dispatch.StopsAtFirstTerminator` | main.c:56-66 | after the first terminating event no further event has any effect: the run reports `Success` with the state reached just before it |
| `Dispatch.LatestWins` | main.c:71-86 | after non-terminating events, each sensor triple equals the data of the last update from its sensor kind, or its earlier value if there was none; an update of one kind never changes the other triple |
| `Dispatch.ZeroUntilFirstUpdate` | main.c:40-45 | starting from initialisation, a triple stays zero until its sensor kind first reports |
| `Dispatch.FullscreenParity` | main.c:59-63 | after non-terminating events the fullscreen flag is the original one flipped once per F10 press |
| `Dispatch.DoubleToggleRestores` | main.c:59-63 | two consecutive F10 presses restore the original state and keep the program running |

## Left out

- Window, renderer and sensor-subsystem creation fail only inside SDL (main.c:24-33). Allocation of the reading (main.c:35-37) is modelled as always succeeding, so the `SDL_APP_FAILURE` startup returns are not modelled.
- Looking up the sensor from the event's id and asking its type (main.c:73-74) are SDL calls. A sensor event carries its resolved kind (`Accel`, `Gyro` or `OtherSensor`) directly.
- Reading and setting the window's fullscreen flag (main.c:60-62) are SDL calls. They are modelled as reading and flipping a boolean field, and a failing `SDL_SetWindowFullscreen` is not modelled. The source reads the current flag from SDL on every F10 press, so it follows changes made outside the handler (for example by the window manager); the model keeps its own flag, and `FullscreenParity` and `DoubleToggleRestores` hold only when nothing else changes it.
- The handler reads the key code of a quit event through the event union (main.c:59). A quit event is modelled as always ending the program, without a key.
- Sensor values are `real`, which has no NaN or infinities. The handler copies such `float` values through unchanged (main.c:77-79, 83-85); the model does not represent them.
- Key codes: only F10 is told apart from all other keys. SDL's numeric key codes are not part of this model.
- SDL's sensor event carries a fixed array of data channels. It is modelled as a sequence of at least three values, of which the handler reads the first three.
- The per-frame renderer `SDL_AppIterate` (main.c:92-158) is not modelled. It does float layout arithmetic, formats values with `snprintf("%.2f")` into a 10-byte buffer, whose truncation depends on the C library, and issues draw calls. It only reads the reading.
- `SDL_Log` output, the empty `SDL_AppQuit` (main.c:161-163) and the host's callback scheduling are not modelled. The host's delivery of events in order until the first `Success` is modelled by `DeliverEvents` and `Run`.
