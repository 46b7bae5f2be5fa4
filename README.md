# Hand gesture to serial commands: a Dafny model of the decision core

The script watches a camera, finds hands with MediaPipe, and drives an ESP32
over a serial line. For each detected hand it reads five tip/joint landmark
pairs and decides, per finger, whether the finger is up. It then sends one
`<finger>_on` or `<finger>_off` token per finger, in the order thumb, index,
middle, ring, pinky, and sends `all_off` after them when no finger is up. A
module-level `last_command_time` and a 0.2 s `command_interval` throttle these
bursts. A hand fires only when strictly more than 0.2 s have passed since the
last burst, and firing sets `last_command_time` to the frame's clock reading.

The model has three modules:

- `Hands` (hands.dfy): a landmark is a pair of reals, a hand is the detector's
  21-landmark list, and `Classify` is count_fingers' five comparisons. It is
  proved equal, entry by entry, to one per-finger rule `IsUp`.
- `Commands` (commands.dfy): the eleven-token vocabulary, the burst a finger
  status produces, and the line framing of main.py:27 (`Line`, `Wire`). The
  framing is proved lossless against `Decode`. `Decode` is the reading side of
  the protocol and is the encoding's inverse. It is not code of this
  repository.
- `Dispatch` (dispatch.dfy): the gate as pure functions (`HandStep` for one
  hand, `FrameStep` for one frame's hands, `RunSteps` for a run of frames) and
  lemmas about them. The `Controller` class holds `lastCommandTime` and the log
  `issued` of commands passed to send_command. Its methods mirror
  send_command, count_fingers and the two nested loops of the main loop, and
  are proved to follow those functions.

The serial device, the clock and the detector are parameters. `Run` takes the
sequence of (clock reading, detected hands) pairs, one per frame. `Controller`
takes `link`, the device's behaviour on the k-th send: a reply, nothing
waiting, or an exception. The gate functions do not mention `link`, and the
methods are proved against them for every `link`. So a failing send never
stops the rest of a burst and never keeps `lastCommandTime` from advancing.

Notes on the code:

- The interval is the constant 0.2 s of main.py:71 (`COMMAND_INTERVAL`) and
  cannot be configured.
- count_fingers runs only inside the gate's `if` (main.py:94-95), so no status
  is computed for a hand the gate keeps out. Every burst is still in thumb,
  index, middle, ring, pinky order.
- The clock is not assumed monotonic. The gate alone makes `lastCommandTime`
  only move forward, by more than the interval each time (`RunSteps`).

## Model

| member | source | states |
|---|---|---|
| Hands.Classify | main.py:40-49 | the status has five entries, and entry i is the per-finger rule `IsUp` for the i-th finger of thumb, index, middle, ring, pinky |
| Hands.ThumbRule | main.py:42 | the thumb is up iff the tip's x is strictly less than the IP joint's x; equal x means down |
| Hands.VerticalRule | main.py:43-46 | index, middle, ring and pinky are each up iff the tip's y is strictly less than the PIP joint's y; equal y means down |
| Hands.ClassifyReadsOnlyTipsAndJoints | main.py:42-46 | two hands that agree on the thumb's x and the other fingers' y at the ten landmarks read get the same status |
| Hands.NoneUpIffAllDown | main.py:59 | `not any(status)` holds exactly when no finger satisfies its rule |
| Commands.Token | main.py:52-61 | each of the eleven tokens is read back as the command it was written for, so distinct commands have distinct tokens, and no token contains a line feed |
| Commands.LinesOfLine | main.py:27 | a command written as its token and a line feed is read back as exactly one line, the token, and leaves the rest of the stream untouched |
| Commands.DecodeWire | main.py:27 | splitting the written bytes at line feeds and reading each line gives back exactly the commands sent, in order |
| Commands.Burst | main.py:52-61 | the first five commands are thumb, index, middle, ring, pinky, each on exactly when that finger is up; all_off is in the burst iff every finger is down, and then it is the sixth and last command; a burst has 5 or 6 commands |
| Commands.OnlyIndexUpTokens | main.py:42-61 | a hand whose thumb tip is not left of its IP joint, whose index tip is above its PIP joint, and whose middle, ring and pinky tips are not above theirs, yields thumb_off, index_on, middle_off, ring_off, pinky_off |
| Commands.AllDownTokens | main.py:42-61 | a hand with every finger down yields the five off tokens followed by all_off |
| Dispatch.HandStep | main.py:94-96 | a hand fires iff now minus the last command time is strictly greater than 0.2; firing appends its burst and sets the last command time to now, which is strictly later; otherwise nothing changes |
| Dispatch.FrameStep | main.py:87-96 | in one frame, with one clock reading for all hands, only the first hand can fire, and only when the gate is open; the other hands change nothing |
| Dispatch.WithinIntervalNothingFires | main.py:94 | a frame read no more than 0.2 s after the last burst changes neither the time nor the commands |
| Dispatch.NoSecondBurstWithinInterval | main.py:94-96 | after a burst, a frame read at most 0.2 s later fires nothing, whatever hands it holds |
| Dispatch.FiftyMillisecondsApart | main.py:94-96 | a frame 50 ms after a burst fires nothing |
| Dispatch.RunSteps | main.py:70-96 | over any run of frames, earlier commands stay a prefix of the log, and the last command time either stays put with no new commands or ends more than 0.2 s later |
| Dispatch.Response | main.py:25-37 | send_command returns the device's reply text iff the device replied; no reply and a caught failure both give None |
| Dispatch.Controller.constructor | main.py:70-71 | the last command time starts at 0 and nothing has been sent |
| Dispatch.Controller.SendCommand | main.py:25-37 | the command is appended to the issued log whatever the device does, and the response is the device's reply or None |
| Dispatch.Controller.CountFingers | main.py:40-63 | returns the classification and appends exactly that status's burst to the log, for any device behaviour |
| Dispatch.Controller.ProcessFrame | main.py:87-96 | the new state is FrameStep of the old one; only the first hand can fire, and only if the gate was open |
| Dispatch.Controller.Run | main.py:76-96 | the state after the main loop is RunSteps of the initial state over the frames |

## Left out

- Opening the serial port, the two-second startup wait and exiting when the port cannot be opened (main.py:7-17): process start-up and hardware I/O.
- The body of send_command beyond its result: the byte encoding, the 0.1 s sleep, `in_waiting`, `readline`, decoding and `strip` of the reply (main.py:26-33). The device's behaviour on each call is the parameter `link`, whose reply text stands for the already-stripped line.
- Dispatch.Controller.SendCommand: a write that fails halfway still counts the command as issued. The model does not say which bytes reached the device, because that depends on the serial driver.
- The MediaPipe detector and the drawing of landmarks (main.py:19-22, 85, 91): a foreign library, whose output is taken as the `hands` of each frame.
- Camera capture, the FOURCC setting, the horizontal flip, the colour conversion, the overlay text, `imshow` and the Esc key (main.py:65-67, 76-82, 98-105). These are camera and UI code. A run is a finite sequence of frames, which stands for the loop ending when the camera closes or Esc is pressed. The flip only explains why the thumb rule looks to the left.
- Cleanup (main.py:107-111) and all console output, including the "All fingers are down" message.
- Floating point: landmark coordinates and clock readings are reals, so rounding is not modelled. The clock's readings are inputs and may go backwards.
