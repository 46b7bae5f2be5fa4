/**
 * The rate-limited dispatch of command bursts.
 *
 * The main loop reads the clock once per camera frame and, for each hand the
 * detector found in that frame, fires a burst only when more than
 * COMMAND_INTERVAL seconds have passed since the last burst; firing records
 * the frame's time as the last command time. The pure functions HandStep,
 * FrameStep and RunSteps say what that loop does to the dispatch state; the
 * class Controller holds that state and is proved to follow them.
 */
module Dispatch {
  import opened Wrappers
  import opened Hands
  import opened Commands

  /** Seconds that must pass, strictly, between two bursts. */
  const COMMAND_INTERVAL: real := 0.2

  /** The last command time before the first burst. */
  const INITIAL_COMMAND_TIME: real := 0.0

  /**
   * The dispatcher's state: the time of the last burst, and every command
   * handed to send_command so far, in order.
   */
  datatype DispatchState = DispatchState(lastCommandTime: real, issued: seq<Command>)

  /** One pass of the main loop: the clock reading and the hands detected in the frame. */
  datatype Observation = Observation(time: real, hands: seq<Hand>)

  /** The gate: strictly more than the interval since the last burst. */
  predicate GateOpen(lastCommandTime: real, now: real) {
    now - lastCommandTime > COMMAND_INTERVAL
  }

  /**
   * One detected hand. It fires exactly when strictly more than the interval
   * has passed since the last burst: it then appends its finger burst to the
   * commands issued so far and moves the last command time strictly forward,
   * to now. Otherwise nothing changes.
   */
  function HandStep(s: DispatchState, now: real, h: Hand): (s': DispatchState)
    ensures if now - s.lastCommandTime > COMMAND_INTERVAL then
        s'.lastCommandTime == now > s.lastCommandTime
        && |s'.issued| > |s.issued| && s'.issued[..|s.issued|] == s.issued
        && s'.issued[|s.issued|..] == Burst(Classify(h))
      else s' == s
  {
    if GateOpen(s.lastCommandTime, now) then
      DispatchState(now, s.issued + Burst(Classify(h)))
    else
      s
  }

  /**
   * All hands of one frame, in the detector's order, against the same clock
   * reading. At most one of them fires: the first one, when the gate is open.
   * Firing sets the last command time to the frame's time, so every later
   * hand of the same frame finds the gate closed, since now - now = 0 is not
   * more than the interval.
   */
  function FrameStep(s: DispatchState, now: real, hands: seq<Hand>): (s': DispatchState)
    ensures s' == if hands != [] && GateOpen(s.lastCommandTime, now) then HandStep(s, now, hands[0]) else s
  {
    if hands == [] then s
    else
      HandStep(FrameStep(s, now, hands[..|hands| - 1]), now, hands[|hands| - 1])
  }

  /**
   * A run of the main loop over successive frames. Whatever the clock
   * readings, the commands issued before are kept as a prefix, and the last
   * command time either stays put, with no new commands, or has moved forward
   * by more than the interval.
   */
  function RunSteps(s: DispatchState, frames: seq<Observation>): (s': DispatchState)
    ensures |s.issued| <= |s'.issued| && s'.issued[..|s.issued|] == s.issued
    ensures s'.lastCommandTime == s.lastCommandTime || s'.lastCommandTime > s.lastCommandTime + COMMAND_INTERVAL
    ensures s'.lastCommandTime == s.lastCommandTime ==> s'.issued == s.issued
  {
    if frames == [] then s
    else
      var last := frames[|frames| - 1];
      FrameStep(RunSteps(s, frames[..|frames| - 1]), last.time, last.hands)
  }

  /** A frame whose clock reading is within the interval of the last burst changes nothing. */
  lemma WithinIntervalNothingFires(s: DispatchState, now: real, hands: seq<Hand>)
    requires now - s.lastCommandTime <= COMMAND_INTERVAL
    ensures FrameStep(s, now, hands) == s
  {
  }

  /**
   * After a burst, a second frame read no more than the interval later fires
   * nothing, whatever hands it holds.
   */
  lemma NoSecondBurstWithinInterval(s: DispatchState, t1: real, h: Hand, t2: real, hands: seq<Hand>)
    requires GateOpen(s.lastCommandTime, t1)
    requires t2 - t1 <= COMMAND_INTERVAL
    ensures FrameStep(HandStep(s, t1, h), t2, hands) == HandStep(s, t1, h)
  {
  }

  /** What send_command observes of the serial device on one call. */
  datatype Transport =
    | Replied(text: string)  // the device answered with this line
    | Silent                 // nothing was waiting to be read
    | Failed                 // the write or the read raised

  /** send_command's return value: the reply, or None when there was none or the call failed. */
  function Response(t: Transport): (r: Option<string>)
    ensures r.Some? <==> t.Replied?
    ensures t.Replied? ==> r == Some(t.text)
  {
    match t
    case Replied(text) => Some(text)
    case Silent => None
    case Failed => None
  }

  /**
   * The controller's mutable state: the module-level last command time of
   * the script and the log of commands passed to send_command. `link(k)` is
   * what the serial device does on the k-th call of send_command.
   */
  class Controller {
    const link: nat -> Transport
    var lastCommandTime: real
    var issued: seq<Command>

    function State(): DispatchState
      reads this
    {
      DispatchState(lastCommandTime, issued)
    }

    constructor (link: nat -> Transport)
      ensures this.link == link
      ensures State() == DispatchState(INITIAL_COMMAND_TIME, [])
    {
      this.link := link;
      lastCommandTime := INITIAL_COMMAND_TIME;
      issued := [];
    }

    /**
     * Write one command. A failure is caught and reported as None: the
     * command counts as issued either way and the caller carries on.
     */
    method SendCommand(c: Command) returns (response: Option<string>)
      modifies this`issued
      ensures issued == old(issued) + [c]
      ensures response == Response(link(|old(issued)|))
    {
      response := Response(link(|issued|));
      issued := issued + [c];
    }

    /** Classify one hand and issue its burst, whatever the serial device does. */
    method CountFingers(h: Hand) returns (status: seq<bool>)
      modifies this`issued
      ensures status == Classify(h)
      ensures issued == old(issued) + Burst(status)
    {
      status := Classify(h);
      var reply;
      reply := SendCommand(FingerCommand(Thumb, status[0]));
      reply := SendCommand(FingerCommand(Index, status[1]));
      reply := SendCommand(FingerCommand(Middle, status[2]));
      reply := SendCommand(FingerCommand(Ring, status[3]));
      reply := SendCommand(FingerCommand(Pinky, status[4]));
      if !AnyUp(status) {
        reply := SendCommand(AllOff);
      }
    }

    /** The loop over the hands of one frame, all gated against the frame's clock reading. */
    method ProcessFrame(now: real, hands: seq<Hand>)
      modifies this
      ensures State() == FrameStep(old(State()), now, hands)
      ensures if hands != [] && GateOpen(old(lastCommandTime), now) then
          lastCommandTime == now && issued == old(issued) + Burst(Classify(hands[0]))
        else
          lastCommandTime == old(lastCommandTime) && issued == old(issued)
    {
      var i := 0;
      while i < |hands|
        invariant 0 <= i <= |hands|
        invariant State() == FrameStep(old(State()), now, hands[..i])
      {
        if now - lastCommandTime > COMMAND_INTERVAL {
          var fingers := CountFingers(hands[i]);
          lastCommandTime := now;
        }
        i := i + 1;
      }
    }

    /** The main loop over the frames read until the camera closes or Esc is pressed. */
    method Run(frames: seq<Observation>)
      modifies this
      ensures State() == RunSteps(old(State()), frames)
    {
      var n := 0;
      while n < |frames|
        invariant 0 <= n <= |frames|
        invariant State() == RunSteps(old(State()), frames[..n])
      {
        assert frames[..n + 1][..n] == frames[..n];
        ProcessFrame(frames[n].time, frames[n].hands);
        n := n + 1;
      }
      assert frames[..n] == frames;
    }
  }

  /** Two readings 50 ms apart: the second fires nothing. */
  lemma FiftyMillisecondsApart(s: DispatchState, t: real, h: Hand, hands: seq<Hand>)
    requires GateOpen(s.lastCommandTime, t)
    ensures FrameStep(HandStep(s, t, h), t + 0.05, hands) == HandStep(s, t, h)
  {
  }
}
