/** The per-frame decision of onResults on the Index page: a finger count
    becomes a hand state and a bulb power, with no memory of earlier frames. */
module Classifier {
  import opened Hand
  import opened FingerCounter

  /** The values the page keeps in its handState variable. */
  datatype HandState = Detecting | Open | HalfOpen | Closed | Error

  /** The values the page keeps in its bulbPower variable. */
  datatype BulbPower = Off | Half | Full

  /** The pair of values one frame sets together. */
  datatype Display = Display(state: HandState, power: BulbPower)

  /** The strings the page stores for each hand state. */
  function StateName(s: HandState): string
  {
    match s
    case Detecting => "detecting"
    case Open => "open"
    case HalfOpen => "half-open"
    case Closed => "closed"
    case Error => "error"
  }

  /** The strings the page stores for each bulb power. */
  function PowerName(p: BulbPower): string
  {
    match p
    case Off => "off"
    case Half => "half"
    case Full => "full"
  }

  /** The bulb's brightness in percent. */
  function Brightness(p: BulbPower): (pct: nat)
    ensures pct <= 100
  {
    match p
    case Off => 0
    case Half => 50
    case Full => 100
  }

  /** The bulb follows the hand: full when open, half when half open, off
      otherwise. */
  function PowerOf(s: HandState): (p: BulbPower)
    ensures p == Full <==> s == Open
    ensures p == Half <==> s == HalfOpen
  {
    match s
    case Open => Full
    case HalfOpen => Half
    case _ => Off
  }

  /** The threshold chain applied to a detected hand's finger count. */
  function Reading(openFingers: int): (r: Display)
    ensures r.state == Open <==> openFingers >= 4
    ensures r.state == HalfOpen <==> 2 <= openFingers <= 3
    ensures r.state == Closed <==> openFingers <= 1
    ensures r.power == PowerOf(r.state)
  {
    if openFingers >= 4 then Display(Open, Full)
    else if openFingers >= 2 then Display(HalfOpen, Half)
    else Display(Closed, Off)
  }

  /** A frame's decision from the detector's multiHandLandmarks field, which
      may be missing. Only the first hand is read. Drawing that hand reads
      landmark 20 before it is counted, so a first hand with fewer than 21
      landmarks throws and the frame decides nothing. */
  function FrameReading(multiHandLandmarks: Option<seq<seq<Landmark>>>): (r: Outcome<Display>)
    ensures r == Ok(Display(Detecting, Off)) <==> !HandPresent(multiHandLandmarks)
    ensures r.TypeError? <==> HandPresent(multiHandLandmarks) && !Complete(multiHandLandmarks.value[0])
    ensures r.Ok? ==> r.value.state != Error && r.value.power == PowerOf(r.value.state)
  {
    match multiHandLandmarks
    case None => Ok(Display(Detecting, Off))
    case Some(hands) =>
      if |hands| == 0 then Ok(Display(Detecting, Off))
      else if !Complete(hands[0]) then TypeError
      else Ok(Reading(OpenFingerSum(hands[0])))
  }

  predicate HandPresent(multiHandLandmarks: Option<seq<seq<Landmark>>>)
  {
    multiHandLandmarks.Some? && |multiHandLandmarks.value| > 0
  }

  /** The brightness never drops as more fingers open. */
  lemma {:induction false} BulbNeverDims(n: int, m: int)
    requires n <= m
    ensures Brightness(Reading(n).power) <= Brightness(Reading(m).power)
  {
  }

  /** With a complete first hand, the hand state is fixed by the number of
      extended fingers. */
  lemma {:induction false} FrameReadingFollowsFingers(results: Option<seq<seq<Landmark>>>)
    requires HandPresent(results) && Complete(results.value[0])
    ensures FrameReading(results) == Ok(Reading(|ExtendedFingers(results.value[0])|))
  {
    CountIsExtendedFingers(results.value[0]);
  }

  /** Hands after the first never affect the frame. */
  lemma {:induction false} FirstHandOnly(hands: seq<seq<Landmark>>, hands': seq<seq<Landmark>>)
    requires |hands| > 0 && |hands'| > 0 && hands[0] == hands'[0]
    ensures FrameReading(Some(hands)) == FrameReading(Some(hands'))
  {
  }
}
