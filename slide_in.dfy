/**
 * The Slide In example page: `getInitialPosition`, which turns a direction
 * and a distance into the starting offset of the slide, and the controls
 * the page declares, whose `direction` select feeds it.
 */
module SlideIn {
  import opened Wrappers
  import opened Controls

  /** A starting offset `{ x, y }`. */
  datatype Offset = Offset(x: real, y: real)

  /** The four directions the `switch` names. */
  predicate Named(direction: string)
  {
    direction == "left" || direction == "right" || direction == "top" || direction == "bottom"
  }

  /** `getInitialPosition(direction, distance)` */
  function InitialPosition(direction: string, distance: real): (r: Offset)
    // left and right move along x only, top and bottom along y only
    ensures (direction == "left" || direction == "right") ==> r.y == 0.0
    ensures (direction == "top" || direction == "bottom") ==> r.x == 0.0
    // left and top start on the negative side, right and bottom on the positive side
    ensures (direction == "left" || direction == "top") ==> r.x + r.y == -distance
    ensures (direction == "right" || direction == "bottom") ==> r.x + r.y == distance
    // anything else starts in place
    ensures !Named(direction) ==> r == Offset(0.0, 0.0)
  {
    match direction
    case "left" => Offset(-distance, 0.0)
    case "right" => Offset(distance, 0.0)
    case "top" => Offset(0.0, -distance)
    case "bottom" => Offset(0.0, distance)
    case _ => Offset(0.0, 0.0)
  }

  function Abs(v: real): real
  {
    if v < 0.0 then -v else v
  }

  /** For a named direction one coordinate is 0 and the other is as far off as `distance`. */
  lemma NamedMagnitude(direction: string, distance: real)
    requires Named(direction)
    ensures var r := InitialPosition(direction, distance);
      (r.x == 0.0 || r.y == 0.0) && Abs(r.x) + Abs(r.y) == Abs(distance)
  {
  }

  /** The controls the page declares. */
  const DirectionControl: ControlConfig := ControlConfig(
    "direction", "Direction", Select, VStr("left"),
    Some([SelectOption("left", "From Left"), SelectOption("right", "From Right"),
          SelectOption("top", "From Top"), SelectOption("bottom", "From Bottom")]),
    None, None, None)

  const SlideInControls: seq<ControlConfig> := [
    DirectionControl,
    ControlConfig("distance", "Distance (px)", Range, VNum(100.0), None, Some(20.0), Some(300.0), Some(10.0)),
    ControlConfig("duration", "Duration (seconds)", Range, VNum(0.5), None, Some(0.1), Some(2.0), Some(0.1)),
    ControlConfig("delay", "Delay (seconds)", Range, VNum(0.0), None, Some(0.0), Some(1.0), Some(0.1)),
    ControlConfig("fadeIn", "Combine with Fade", Boolean, VBool(true), None, None, None, None)
  ]

  /** The page's map holds a named direction. */
  predicate DirectionNamed(m: ValueMap)
  {
    "direction" in m.vals && m.vals["direction"].VStr? && Named(m.vals["direction"].s)
  }

  /** Each option of the direction select is one the `switch` names, and so is its default. */
  lemma OptionsAreNamed()
    ensures DirectionControl.defaultValue.VStr? && Named(DirectionControl.defaultValue.s)
    ensures forall o :: o in DirectionControl.options.value ==> Named(o.value)
  {
  }

  /** The page starts with the direction "left". */
  lemma InitialDirection()
    ensures DirectionNamed(InitialValues(SlideInControls))
    ensures InitialValues(SlideInControls).vals["direction"] == VStr("left")
  {
    assert UniqueNames(SlideInControls);
    assert LastWithName(SlideInControls, 0);
    InitialValuesLastWins(SlideInControls, 0);
  }

  /**
   * A select's change event carries one of its options' values, so a
   * change from any of the page's widgets keeps the direction named, and
   * the default case of the `switch` is never reached from the page.
   */
  lemma {:induction false} InputKeepsDirectionNamed(m: ValueMap, i: int, ev: ChangeEvent, parseFloat: string -> real)
    requires m.Valid() && DirectionNamed(m) && 0 <= i < |SlideInControls|
    requires SlideInControls[i].kind == Select ==>
      exists o :: o in SlideInControls[i].options.value && o.value == ev.targetValue
    ensures DirectionNamed(m.Put(SlideInControls[i].name, EmittedValue(SlideInControls[i].kind, ev, parseFloat)))
  {
    if i == 0 {
      OptionsAreNamed();
    }
  }

  /** The starting offset of the page's preview is always one of the four slides. */
  lemma PreviewOffset(m: ValueMap, distance: real)
    requires DirectionNamed(m)
    ensures InitialPosition(m.vals["direction"].s, distance) != Offset(0.0, 0.0) || distance == 0.0
  {
  }
}
