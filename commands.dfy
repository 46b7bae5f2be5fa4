/**
 * The actuator commands, their wire tokens, and the burst of commands that
 * count_fingers emits for one finger status.
 *
 * The microcontroller understands eleven tokens, one per line: an on and an
 * off token per finger, and all_off. Decode is the reading side of that line
 * protocol; it is here as the inverse of the encoding, to show that the
 * framing the sender uses loses nothing.
 */
module Commands {
  import opened Wrappers
  import opened Hands

  datatype Command = FingerCommand(finger: Finger, on: bool) | AllOff

  const NEWLINE: char := '\n'

  /**
   * The token send_command writes for a command. The reader recognises it as
   * that very command, so distinct commands have distinct tokens, and no token
   * contains the line feed that ends it on the wire.
   */
  function Token(c: Command): (t: string)
    ensures ParseToken(t) == Some(c)
    ensures NEWLINE !in t
  {
    match c
    case FingerCommand(Thumb, true) => "thumb_on"
    case FingerCommand(Thumb, false) => "thumb_off"
    case FingerCommand(Index, true) => "index_on"
    case FingerCommand(Index, false) => "index_off"
    case FingerCommand(Middle, true) => "middle_on"
    case FingerCommand(Middle, false) => "middle_off"
    case FingerCommand(Ring, true) => "ring_on"
    case FingerCommand(Ring, false) => "ring_off"
    case FingerCommand(Pinky, true) => "pinky_on"
    case FingerCommand(Pinky, false) => "pinky_off"
    case AllOff => "all_off"
  }

  /** The closed vocabulary of the wire protocol, as the reader recognises it. */
  function ParseToken(t: string): Option<Command> {
    if t == "thumb_on" then Some(FingerCommand(Thumb, true))
    else if t == "thumb_off" then Some(FingerCommand(Thumb, false))
    else if t == "index_on" then Some(FingerCommand(Index, true))
    else if t == "index_off" then Some(FingerCommand(Index, false))
    else if t == "middle_on" then Some(FingerCommand(Middle, true))
    else if t == "middle_off" then Some(FingerCommand(Middle, false))
    else if t == "ring_on" then Some(FingerCommand(Ring, true))
    else if t == "ring_off" then Some(FingerCommand(Ring, false))
    else if t == "pinky_on" then Some(FingerCommand(Pinky, true))
    else if t == "pinky_off" then Some(FingerCommand(Pinky, false))
    else if t == "all_off" then Some(AllOff)
    else None
  }

  /** The reader accepts only the eleven tokens: whatever it accepts is the token of the command it returns. */
  lemma TokenOfParseToken(t: string)
    ensures ParseToken(t).Some? ==> Token(ParseToken(t).value) == t
  {
  }

  /** What send_command writes for one command: the token and a line feed. */
  function Line(c: Command): string {
    Token(c) + [NEWLINE]
  }

  /** The bytes written for a sequence of commands, in order. */
  function Wire(cs: seq<Command>): string {
    if cs == [] then [] else Line(cs[0]) + Wire(cs[1..])
  }

  /** The index of the first line feed in s, or |s| when there is none. */
  function LineEnd(s: string): (k: nat)
    ensures k <= |s|
    ensures forall i :: 0 <= i < k ==> s[i] != NEWLINE
    ensures k < |s| ==> s[k] == NEWLINE
  {
    if s == [] || s[0] == NEWLINE then 0 else 1 + LineEnd(s[1..])
  }

  /** The lines of s, without their line feeds; a last line may lack one. */
  function Lines(s: string): (ls: seq<string>)
    ensures forall i :: 0 <= i < |ls| ==> NEWLINE !in ls[i]
    decreases |s|
  {
    if s == [] then []
    else
      var k := LineEnd(s);
      if k == |s| then [s] else [s[..k]] + Lines(s[k + 1..])
  }

  /** The commands named by a list of lines; None when some line is not a token. */
  function ParseLines(ls: seq<string>): (r: Option<seq<Command>>)
    ensures r.Some? ==> |r.value| == |ls|
  {
    if ls == [] then Some([])
    else
      match ParseToken(ls[0])
      case None => None
      case Some(c) =>
        match ParseLines(ls[1..])
        case None => None
        case Some(rest) => Some([c] + rest)
  }

  function Decode(s: string): Option<seq<Command>> {
    ParseLines(Lines(s))
  }

  /** Reading back one framed command leaves the rest of the stream to be read. */
  lemma LinesOfLine(c: Command, rest: string)
    ensures Lines(Line(c) + rest) == [Token(c)] + Lines(rest)
  {
    var s := Line(c) + rest;
    var t := Token(c);
    var k := LineEnd(s);
    assert s[|t|] == NEWLINE;
    assert s[..k] == t;
  }

  /** The framing is lossless: decoding the bytes written for any commands yields those commands. */
  lemma {:induction false} DecodeWire(cs: seq<Command>)
    ensures Decode(Wire(cs)) == Some(cs)
  {
    if cs != [] {
      DecodeWire(cs[1..]);
      LinesOfLine(cs[0], Wire(cs[1..]));
      assert [cs[0]] + cs[1..] == cs;
    }
  }

  /**
   * The commands count_fingers emits for a finger status: one command per
   * finger in thumb, index, middle, ring, pinky order, each on exactly when
   * that finger is up; then all_off, as the sixth and last command, exactly
   * when every finger is down. So a burst has five or six commands.
   */
  function Burst(status: seq<bool>): (b: seq<Command>)
    requires |status| == |FINGER_ORDER|
    ensures |b| == 5 || |b| == 6
    ensures forall i :: 0 <= i < |FINGER_ORDER| ==> b[i] == FingerCommand(FINGER_ORDER[i], status[i])
    ensures AllOff in b <==> forall i :: 0 <= i < |status| ==> !status[i]
    ensures |b| == 6 <==> AllOff in b
    ensures AllOff in b ==> b[5] == AllOff
  {
    [ FingerCommand(Thumb, status[0]),
      FingerCommand(Index, status[1]),
      FingerCommand(Middle, status[2]),
      FingerCommand(Ring, status[3]),
      FingerCommand(Pinky, status[4]) ]
    + (if !AnyUp(status) then [AllOff] else [])
  }

  function Tokens(cs: seq<Command>): seq<string> {
    seq(|cs|, i requires 0 <= i < |cs| => Token(cs[i]))
  }

  /** A hand with only the index finger up yields index_on and four off tokens. */
  lemma OnlyIndexUpTokens(h: Hand)
    requires h[THUMB_TIP].x >= h[THUMB_IP].x
    requires h[INDEX_FINGER_TIP].y < h[INDEX_FINGER_PIP].y
    requires h[MIDDLE_FINGER_TIP].y >= h[MIDDLE_FINGER_PIP].y
    requires h[RING_FINGER_TIP].y >= h[RING_FINGER_PIP].y
    requires h[PINKY_TIP].y >= h[PINKY_PIP].y
    ensures Tokens(Burst(Classify(h)))
      == ["thumb_off", "index_on", "middle_off", "ring_off", "pinky_off"]
  {
  }

  /** A hand with every finger down yields the five off tokens, then all_off. */
  lemma AllDownTokens(h: Hand)
    requires h[THUMB_TIP].x >= h[THUMB_IP].x
    requires h[INDEX_FINGER_TIP].y >= h[INDEX_FINGER_PIP].y
    requires h[MIDDLE_FINGER_TIP].y >= h[MIDDLE_FINGER_PIP].y
    requires h[RING_FINGER_TIP].y >= h[RING_FINGER_PIP].y
    requires h[PINKY_TIP].y >= h[PINKY_PIP].y
    ensures Tokens(Burst(Classify(h)))
      == ["thumb_off", "index_off", "middle_off", "ring_off", "pinky_off", "all_off"]
  {
  }
}
