/** The two texts the Index page derives from its stored strings: the status
    line under the camera (getStatusText) and the bulb's power percentage. */
module Status {
  import opened Classifier

  const Initializing := "Initializing..."

  /** getStatusText: one message per known hand state, and "Initializing..."
      for every other string. */
  function StatusText(handState: string): (r: string)
    ensures r == Initializing <==> forall s: HandState :: StateName(s) != handState
  {
    match handState
    case "open" => assert StateName(Open) == handState; "Hand Open - Bulb at Full Power"
    case "half-open" => assert StateName(HalfOpen) == handState; "Hand Half Open - Bulb at Half Power"
    case "closed" => assert StateName(Closed) == handState; "Hand Closed - Bulb Off"
    case "detecting" => assert StateName(Detecting) == handState; "Wave your hand in front of the camera"
    case "error" => assert StateName(Error) == handState; "Camera access error. Please check permissions."
    case _ => Initializing
  }

  /** Distinct hand states show distinct messages. */
  lemma {:induction false} StatusTextDistinguishesStates(a: HandState, b: HandState)
    ensures StatusText(StateName(a)) == StatusText(StateName(b)) ==> a == b
  {
  }

  /** The percentage shown beside the bulb: "100%" for "full", "50%" for
      "half", and "0%" for every other string. */
  function PercentLabel(bulbPower: string): (r: string)
    ensures r == "100%" <==> bulbPower == PowerName(Full)
    ensures r == "50%" <==> bulbPower == PowerName(Half)
    ensures r == "0%" <==> bulbPower != PowerName(Full) && bulbPower != PowerName(Half)
  {
    if bulbPower == "full" then "100%" else if bulbPower == "half" then "50%" else "0%"
  }

  function Digit(d: nat): (c: char)
    requires d < 10
    ensures '0' <= c <= '9'
  {
    "0123456789"[d]
  }

  /** The decimal numeral of n, without leading zeros. */
  function DecimalText(n: nat): (s: string)
    ensures |s| >= 1
    decreases n
  {
    if n < 10 then [Digit(n)] else DecimalText(n / 10) + [Digit(n % 10)]
  }

  /** For every bulb power the label is its brightness written in decimal,
      followed by a percent sign. */
  lemma {:induction false} PercentLabelShowsBrightness(p: BulbPower)
    ensures PercentLabel(PowerName(p)) == DecimalText(Brightness(p)) + "%"
  {
  }
}
