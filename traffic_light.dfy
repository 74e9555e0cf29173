/**
 * A traffic-light agent (src/agents/TrafficLightAgent.ts): a position and a
 * state string.  `updateState` overwrites the state without validating it;
 * `draw` picks the red, yellow or green image for the three recognised
 * states and reports any other state as invalid.  The drawing itself, the
 * console message and the three image fields are not modelled: the choice
 * of image is.
 */
module LightAgent {
  import opened Wrappers

  const Red: string := "red"
  const Yellow: string := "yellow"
  const Green: string := "green"

  /** The three images a light can draw. */
  datatype LightImage = RedImage | YellowImage | GreenImage

  /** The value a TrafficLightAgent object holds, apart from its images. */
  datatype LightState = LightState(x: int, y: int, state: string)

  /** The state string that selects an image. */
  function StateOf(img: LightImage): (r: string) {
    match img
    case RedImage => Red
    case YellowImage => Yellow
    case GreenImage => Green
  }

  /**
   * The image `draw` uses for a state, or None where `draw` reports
   * "Invalid light status".  An image is chosen exactly for the three
   * recognised states.
   */
  function SelectImage(state: string): (r: Option<LightImage>)
    ensures r.Some? <==> state == Red || state == Yellow || state == Green
  {
    match state
    case "red" => Some(RedImage)
    case "yellow" => Some(YellowImage)
    case "green" => Some(GreenImage)
    case _ => None
  }

  /** The selection and StateOf are inverse: a state selects an image iff it is that image's state. */
  lemma SelectImageInverse(state: string, img: LightImage)
    ensures SelectImage(state) == Some(img) <==> state == StateOf(img)
  {
  }

  /** Distinct recognised states select distinct images. */
  lemma SelectImageInjective(s: string, t: string)
    requires SelectImage(s).Some? && SelectImage(t).Some?
    ensures SelectImage(s) == SelectImage(t) <==> s == t
  {
  }

  class TrafficLightAgent {
    var x: int
    var y: int
    var state: string

    function Snapshot(): LightState
      reads this
    {
      LightState(x, y, state)
    }

    /** Stores the position and the state exactly as given (the images are not modelled). */
    constructor (x: int, y: int, state: string)
      ensures Snapshot() == LightState(x, y, state)
    {
      this.x := x;
      this.y := y;
      this.state := state;
    }

    /** Unconditional overwrite of the state; the position is untouched. */
    method UpdateState(newState: string)
      modifies this
      ensures Snapshot() == old(Snapshot()).(state := newState)
    {
      state := newState;
    }

    /** The image `draw` would use for the current state. */
    function DrawnImage(): (r: Option<LightImage>)
      reads this
      ensures r.Some? ==> StateOf(r.value) == state
      ensures r.None? <==> state != Red && state != Yellow && state != Green
    {
      SelectImage(state)
    }
  }

  /** Setting the same state twice leaves the light as setting it once does. */
  method UpdateStateTwice(light: TrafficLightAgent, s: string)
    modifies light
    ensures light.Snapshot() == old(light.Snapshot()).(state := s)
  {
    light.UpdateState(s);
    ghost var once := light.Snapshot();
    light.UpdateState(s);
    assert light.Snapshot() == once;
  }
}
