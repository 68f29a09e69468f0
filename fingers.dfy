/** The finger counter of the Index page (countOpenFingers): five
    independent extension tests, each adding one to a counter. */
module FingerCounter {
  import opened Hand

  datatype Finger = Thumb | Index | Middle | Ring | Pinky

  const AllFingers: set<Finger> := {Thumb, Index, Middle, Ring, Pinky}

  function Indicator(b: bool): (n: nat)
    ensures n <= 1 && (n == 1 <==> b)
  {
    if b then 1 else 0
  }

  /** The thumb test as the page writes it: x decreases link by link from
      landmark 1 to the tip, landmark 4. */
  predicate ThumbIsOpen(lm: seq<Landmark>)
    requires Complete(lm)
  {
    lm[4].x < lm[3].x && lm[3].x < lm[2].x && lm[2].x < lm[1].x
  }

  /** The value countOpenFingers returns for a complete hand: the thumb test
      and the four tip-above-PIP tests, in the order the page runs them. */
  function OpenFingerSum(lm: seq<Landmark>): (n: nat)
    requires Complete(lm)
    ensures n <= 5
  {
    Indicator(ThumbIsOpen(lm))
    + Indicator(lm[8].y < lm[6].y)
    + Indicator(lm[12].y < lm[10].y)
    + Indicator(lm[16].y < lm[14].y)
    + Indicator(lm[20].y < lm[18].y)
  }

  /** countOpenFingers on a possibly missing array: a missing array counts
      no fingers, an array too short to hold landmark 20 throws. */
  function OpenFingerCount(landmarks: Option<seq<Landmark>>): (r: Outcome<nat>)
    ensures landmarks.None? ==> r == Ok(0)
    ensures r.TypeError? <==> landmarks.Some? && !Complete(landmarks.value)
    ensures r.Ok? ==> r.value <= 5
  {
    match landmarks
    case None => Ok(0)
    case Some(lm) => if Complete(lm) then Ok(OpenFingerSum(lm)) else TypeError
  }

  /** countOpenFingers with its mutable counter. An array shorter than 21
      throws somewhere on the way (every path reads landmark 20 unless an
      earlier read threw), so the short case is checked up front. */
  method CountOpenFingers(landmarks: Option<seq<Landmark>>) returns (r: Outcome<nat>)
    ensures r == OpenFingerCount(landmarks)
  {
    if landmarks.None? {
      return Ok(0);
    }
    var lm := landmarks.value;
    if |lm| < LandmarkCount {
      return TypeError;
    }
    var openFingers := 0;
    var thumbIsOpen := lm[4].x < lm[3].x && lm[3].x < lm[2].x && lm[2].x < lm[1].x;
    if thumbIsOpen { openFingers := openFingers + 1; }
    if lm[8].y < lm[6].y { openFingers := openFingers + 1; }
    if lm[12].y < lm[10].y { openFingers := openFingers + 1; }
    if lm[16].y < lm[14].y { openFingers := openFingers + 1; }
    if lm[20].y < lm[18].y { openFingers := openFingers + 1; }
    return Ok(openFingers);
  }

  // ---------------------------------------------------------------------
  // A reference description of the same tests, finger by finger.

  /** The landmark of a fingertip. */
  function Tip(f: Finger): (i: nat)
    ensures i < LandmarkCount
  {
    match f
    case Thumb => 4
    case Index => 8
    case Middle => 12
    case Ring => 16
    case Pinky => 20
  }

  /** The PIP joint (middle knuckle) of a finger other than the thumb. */
  function Pip(f: Finger): (i: nat)
    requires f != Thumb
    ensures i < Tip(f)
  {
    match f
    case Index => 6
    case Middle => 10
    case Ring => 14
    case Pinky => 18
  }

  /** The landmarks a finger's test reads. */
  function Joints(f: Finger): (js: set<nat>)
    ensures Tip(f) in js
    ensures forall i :: i in js ==> i < LandmarkCount
  {
    if f == Thumb then {1, 2, 3, 4} else {Pip(f), Tip(f)}
  }

  /** The coordinate a finger's test compares: x for the thumb, y otherwise. */
  function Coordinate(f: Finger, p: Landmark): real
  {
    if f == Thumb then p.x else p.y
  }

  predicate StrictlyDecreasing(s: seq<real>)
  {
    forall i, j :: 0 <= i < j < |s| ==> s[i] > s[j]
  }

  /** A finger is extended when its chain of x coordinates (thumb) strictly
      decreases, or when its tip lies strictly above its PIP joint. */
  predicate IsExtended(lm: seq<Landmark>, f: Finger)
    requires Complete(lm)
  {
    if f == Thumb then StrictlyDecreasing([lm[1].x, lm[2].x, lm[3].x, lm[4].x])
    else lm[Tip(f)].y < lm[Pip(f)].y
  }

  function ExtendedFingers(lm: seq<Landmark>): set<Finger>
    requires Complete(lm)
  {
    set f | f in AllFingers && IsExtended(lm, f)
  }

  /** The page's link-by-link thumb test is the whole-chain ordering. */
  lemma {:induction false} ThumbIsStrictChain(lm: seq<Landmark>)
    requires Complete(lm)
    ensures ThumbIsOpen(lm) <==> IsExtended(lm, Thumb)
  {
    var s := [lm[1].x, lm[2].x, lm[3].x, lm[4].x];
    if ThumbIsOpen(lm) {
      forall i, j | 0 <= i < j < |s| ensures s[i] > s[j] {
        assert s[0] > s[1] > s[2] > s[3];
      }
    }
    if StrictlyDecreasing(s) {
      assert s[0] > s[1] && s[1] > s[2] && s[2] > s[3];
    }
  }

  /** Two thumb joints at the same x never make an extended thumb. */
  lemma {:induction false} TiedThumbIsClosed(lm: seq<Landmark>, a: nat, b: nat)
    requires Complete(lm)
    requires 1 <= a < b <= 4 && lm[a].x == lm[b].x
    ensures !IsExtended(lm, Thumb)
  {
    var s := [lm[1].x, lm[2].x, lm[3].x, lm[4].x];
    assert s[a - 1] == lm[a].x && s[b - 1] == lm[b].x;
  }

  /** The page's five terms are the five fingers' flags. */
  lemma {:induction false} SumByFinger(lm: seq<Landmark>)
    requires Complete(lm)
    ensures OpenFingerSum(lm) == Indicator(IsExtended(lm, Thumb)) + Indicator(IsExtended(lm, Index))
      + Indicator(IsExtended(lm, Middle)) + Indicator(IsExtended(lm, Ring)) + Indicator(IsExtended(lm, Pinky))
  {
    ThumbIsStrictChain(lm);
  }

  /** Five sets, each holding at most its own finger, are disjoint. */
  lemma FiveDisjointSize(t: set<Finger>, i: set<Finger>, m: set<Finger>, r: set<Finger>, p: set<Finger>)
    requires t <= {Thumb} && i <= {Index} && m <= {Middle} && r <= {Ring} && p <= {Pinky}
    ensures |t + i + m + r + p| == |t| + |i| + |m| + |r| + |p|
  {
  }

  function Flagged(lm: seq<Landmark>, f: Finger): (s: set<Finger>)
    requires Complete(lm)
    ensures s <= {f} && |s| == Indicator(IsExtended(lm, f))
  {
    if IsExtended(lm, f) then {f} else {}
  }

  lemma {:induction false} ExtendedFingersByFinger(lm: seq<Landmark>)
    requires Complete(lm)
    ensures ExtendedFingers(lm)
      == Flagged(lm, Thumb) + Flagged(lm, Index) + Flagged(lm, Middle) + Flagged(lm, Ring) + Flagged(lm, Pinky)
  {
  }

  /** The page's count is the number of distinct extended fingers. */
  lemma {:induction false} CountIsExtendedFingers(lm: seq<Landmark>)
    requires Complete(lm)
    ensures OpenFingerSum(lm) == |ExtendedFingers(lm)|
  {
    SumByFinger(lm);
    ExtendedFingersByFinger(lm);
    FiveDisjointSize(Flagged(lm, Thumb), Flagged(lm, Index), Flagged(lm, Middle), Flagged(lm, Ring), Flagged(lm, Pinky));
  }

  /** Five open fingers means every finger is extended; none means none is. */
  lemma {:induction false} CountExtremes(lm: seq<Landmark>)
    requires Complete(lm)
    ensures OpenFingerSum(lm) == 5 <==> forall f :: IsExtended(lm, f)
    ensures OpenFingerSum(lm) == 0 <==> forall f :: !IsExtended(lm, f)
  {
    SumByFinger(lm);
    if OpenFingerSum(lm) == 5 {
      forall f ensures IsExtended(lm, f) {
        match f
        case Thumb => case Index => case Middle => case Ring => case Pinky =>
      }
    }
    if OpenFingerSum(lm) == 0 {
      forall f ensures !IsExtended(lm, f) {
        match f
        case Thumb => case Index => case Middle => case Ring => case Pinky =>
      }
    }
  }

  /** Each finger's test reads only its own joints, and only the coordinate
      the test compares: moving any other landmark, or moving a joint along
      the other axis, never changes the finger's flag. */
  lemma {:induction false} ExtensionIsLocal(lm: seq<Landmark>, lm': seq<Landmark>, f: Finger)
    requires Complete(lm) && Complete(lm')
    requires forall i :: i in Joints(f) ==> Coordinate(f, lm[i]) == Coordinate(f, lm'[i])
    ensures IsExtended(lm, f) == IsExtended(lm', f)
  {
  }
}
