/** Values shared by every part of the gesture pipeline of the Index page:
    the landmarks the hand detector reports and the two ways a JavaScript
    expression over them can end. */
module Hand {

  datatype Option<+T> = None | Some(value: T)

  /** The outcome of evaluating code that reads landmarks by index: a value,
      or the TypeError JavaScript throws when a property is read from the
      `undefined` found past the end of the array. */
  datatype Outcome<+T> = Ok(value: T) | TypeError

  /** One normalized keypoint of a hand. Image coordinates: y grows downward.
      The detector's z coordinate is never read by the page and is dropped. */
  datatype Landmark = Landmark(x: real, y: real)

  /** The detector reports 21 landmarks per hand, 0 being the wrist. */
  const LandmarkCount: nat := 21

  /** A landmark array from which every index 0..20 can be read. */
  predicate Complete(lm: seq<Landmark>)
  {
    |lm| >= LandmarkCount
  }
}
