/**
 * One detected hand and its classification into five up/down finger states.
 *
 * A hand is the landmark list MediaPipe's hand detector produces: 21 points,
 * indexed by anatomical role. The classifier reads ten of them, a tip and one
 * joint per finger, and compares one coordinate of each pair.
 */
module Hands {

  /** A normalised landmark position; the detector's depth coordinate is not read. */
  datatype Landmark = Landmark(x: real, y: real)

  const LANDMARK_COUNT: nat := 21

  // Indices of MediaPipe's HandLandmark enumeration that the classifier reads.
  const THUMB_IP: nat := 3
  const THUMB_TIP: nat := 4
  const INDEX_FINGER_PIP: nat := 6
  const INDEX_FINGER_TIP: nat := 8
  const MIDDLE_FINGER_PIP: nat := 10
  const MIDDLE_FINGER_TIP: nat := 12
  const RING_FINGER_PIP: nat := 14
  const RING_FINGER_TIP: nat := 16
  const PINKY_PIP: nat := 18
  const PINKY_TIP: nat := 20

  /** The detector always yields all 21 landmarks of a hand. */
  type Hand = h: seq<Landmark> | |h| == LANDMARK_COUNT
    witness seq(LANDMARK_COUNT, _ => Landmark(0.0, 0.0))

  datatype Finger = Thumb | Index | Middle | Ring | Pinky

  /** The order of the entries of a finger status and of a command burst. */
  const FINGER_ORDER: seq<Finger> := [Thumb, Index, Middle, Ring, Pinky]

  /** Where a finger sits in FINGER_ORDER. */
  function Position(f: Finger): (i: nat)
    ensures i < |FINGER_ORDER| && FINGER_ORDER[i] == f
  {
    match f
    case Thumb => 0
    case Index => 1
    case Middle => 2
    case Ring => 3
    case Pinky => 4
  }

  /** The landmark at the tip of a finger. */
  function Tip(f: Finger): (i: nat)
    ensures i < LANDMARK_COUNT
  {
    match f
    case Thumb => THUMB_TIP
    case Index => INDEX_FINGER_TIP
    case Middle => MIDDLE_FINGER_TIP
    case Ring => RING_FINGER_TIP
    case Pinky => PINKY_TIP
  }

  /** The joint a finger's tip is compared with: the thumb's IP joint, the others' PIP joint. */
  function Joint(f: Finger): (i: nat)
    ensures i < LANDMARK_COUNT && i != Tip(f)
  {
    match f
    case Thumb => THUMB_IP
    case Index => INDEX_FINGER_PIP
    case Middle => MIDDLE_FINGER_PIP
    case Ring => RING_FINGER_PIP
    case Pinky => PINKY_PIP
  }

  /**
   * The per-finger rule, stated once for every finger: the thumb extends
   * sideways in the mirrored image, so it is up when its tip lies strictly to
   * the left of its joint; the other fingers are up when the tip lies strictly
   * above the joint (image y grows downwards).
   */
  predicate IsUp(h: Hand, f: Finger) {
    if f == Thumb then h[Tip(f)].x < h[Joint(f)].x
    else h[Tip(f)].y < h[Joint(f)].y
  }

  predicate AnyUp(status: seq<bool>) {
    exists i :: 0 <= i < |status| && status[i]
  }

  /**
   * count_fingers' classification: five comparisons collected into a list in
   * the order thumb, index, middle, ring, pinky.
   */
  function Classify(h: Hand): (status: seq<bool>)
    ensures |status| == |FINGER_ORDER|
    ensures forall i :: 0 <= i < |status| ==> status[i] == IsUp(h, FINGER_ORDER[i])
  {
    [ h[THUMB_TIP].x < h[THUMB_IP].x,
      h[INDEX_FINGER_TIP].y < h[INDEX_FINGER_PIP].y,
      h[MIDDLE_FINGER_TIP].y < h[MIDDLE_FINGER_PIP].y,
      h[RING_FINGER_TIP].y < h[RING_FINGER_PIP].y,
      h[PINKY_TIP].y < h[PINKY_PIP].y ]
  }

  /** The thumb is up exactly when its tip's x is strictly less than its IP joint's x. */
  lemma ThumbRule(h: Hand)
    ensures Classify(h)[Position(Thumb)] <==> h[THUMB_TIP].x < h[THUMB_IP].x
    ensures h[THUMB_TIP].x == h[THUMB_IP].x ==> !Classify(h)[Position(Thumb)]
  {
  }

  /** Every other finger is up exactly when its tip's y is strictly less than its PIP joint's y. */
  lemma VerticalRule(h: Hand, f: Finger)
    requires f != Thumb
    ensures Classify(h)[Position(f)] <==> h[Tip(f)].y < h[Joint(f)].y
    ensures h[Tip(f)].y == h[Joint(f)].y ==> !Classify(h)[Position(f)]
  {
  }

  /**
   * The classification depends on nothing but the thumb's x coordinates and
   * the other fingers' y coordinates at the ten landmarks it reads.
   */
  lemma ClassifyReadsOnlyTipsAndJoints(h: Hand, h': Hand)
    requires h[THUMB_TIP].x == h'[THUMB_TIP].x && h[THUMB_IP].x == h'[THUMB_IP].x
    requires forall f :: f != Thumb ==> h[Tip(f)].y == h'[Tip(f)].y && h[Joint(f)].y == h'[Joint(f)].y
    ensures Classify(h) == Classify(h')
  {
  }

  /** No finger is up exactly when every entry of the status is false. */
  lemma NoneUpIffAllDown(h: Hand)
    ensures !AnyUp(Classify(h)) <==> forall f :: !IsUp(h, f)
  {
    var status := Classify(h);
    if !AnyUp(status) {
      forall f ensures !IsUp(h, f) {
        assert status[Position(f)] == IsUp(h, f);
      }
    } else {
      var i :| 0 <= i < |status| && status[i];
      assert IsUp(h, FINGER_ORDER[i]);
    }
  }
}
