/**
 * The stateful part of the Playground component: the remount counter
 * `key`, the `controlValues` map and the `showCode` flag, with the event
 * handlers that update them.
 */
module PlaygroundState {
  import opened Wrappers
  import opened Controls
  import CodeGen

  class Playground {
    /** The props the component was mounted with. */
    const title: string
    const controls: seq<ControlConfig>
    const code: Option<string>

    /** Remount counter of the preview region. */
    var key: nat
    /** Whether the generated code is shown. */
    var showCode: bool
    /** Current value of each control. */
    var controlValues: ValueMap

    /** The value map is a well-formed ordered dictionary. */
    predicate Valid()
      reads this
    {
      controlValues.Valid()
    }

    /** Every declared control, and nothing else, has an entry. */
    predicate Total()
      reads this
    {
      Controls.Total(controlValues, controls)
    }

    /** Mounting: counter 0, code hidden, every control at its default. */
    constructor (title: string, controls: seq<ControlConfig>, code: Option<string>)
      ensures this.title == title && this.controls == controls && this.code == code
      ensures key == 0 && !showCode
      ensures controlValues == InitialValues(controls)
      ensures Valid() && Total()
    {
      this.title := title;
      this.controls := controls;
      this.code := code;
      key := 0;
      showCode := false;
      controlValues := InitialValues(controls);
    }

    /** `handleControlChange(name, value)`: one entry changes, nothing else. */
    method HandleControlChange(name: string, value: Value)
      requires Valid()
      modifies this
      ensures Valid()
      ensures controlValues == old(controlValues).Put(name, value)
      ensures key == old(key) && showCode == old(showCode)
      ensures old(Total()) && name in Names(controls) ==> Total()
    {
      controlValues := controlValues.Put(name, value);
    }

    /** `handleReset`: the counter rises by one and every control returns to its default. */
    method HandleReset()
      modifies this
      ensures Valid() && Total()
      ensures key == old(key) + 1
      ensures controlValues == InitialValues(controls)
      ensures showCode == old(showCode)
    {
      key := key + 1;
      controlValues := InitialValues(controls);
    }

    /** The replay button: the counter rises by one and the values stay. */
    method Replay()
      modifies this
      ensures key == old(key) + 1
      ensures controlValues == old(controlValues) && showCode == old(showCode)
    {
      key := key + 1;
    }

    /** The show/hide code button. */
    method ToggleCode()
      modifies this
      ensures showCode == !old(showCode)
      ensures key == old(key) && controlValues == old(controlValues)
    {
      showCode := !showCode;
    }

    /**
     * The `onChange` handler of the widget of control `i`: it stores the
     * value the widget emits under that control's name.
     */
    method OnControlInput(i: nat, ev: ChangeEvent, parseFloat: string -> real)
      requires Valid() && Total() && i < |controls|
      modifies this
      ensures Valid() && Total()
      ensures controlValues == old(controlValues).Put(controls[i].name, EmittedValue(controls[i].kind, ev, parseFloat))
      ensures controlValues.order == old(controlValues.order)
      ensures key == old(key) && showCode == old(showCode)
    {
      PutDeclaredKeepsTotal(controlValues, controls, i, EmittedValue(controls[i].kind, ev, parseFloat));
      HandleControlChange(controls[i].name, EmittedValue(controls[i].kind, ev, parseFloat));
    }

    /** The widget `renderControl` draws for control `i`. */
    function WidgetOf(i: nat): (w: Widget)
      reads this
      requires i < |controls|
      ensures w.value == controlValues.Get(controls[i].name)
    {
      RenderControl(controls[i], controlValues)
    }

    /** The text shown in the code panel. */
    function Snippet(showNum: real -> string): (r: string)
      reads this
      requires Valid()
      ensures TruthyText(code) ==> r == code.value
    {
      CodeGen.GenerateCode(title, controlValues, code, showNum)
    }
  }

  /** Two resets in a row leave the defaults in place and raise the counter by two. */
  method ResetTwice(p: Playground)
    modifies p
    ensures p.key == old(p.key) + 2
    ensures p.controlValues == InitialValues(p.controls)
    ensures p.showCode == old(p.showCode)
  {
    p.HandleReset();
    ghost var once := p.controlValues;
    p.HandleReset();
    assert p.controlValues == once;
  }

  /** Toggling twice restores the flag. */
  method ToggleTwice(p: Playground)
    modifies p
    ensures p.showCode == old(p.showCode)
    ensures p.key == old(p.key) && p.controlValues == old(p.controlValues)
  {
    p.ToggleCode();
    p.ToggleCode();
  }

  /**
   * Example: a "Fade In" playground with one range control, duration
   * (default 1), set to 2.5; the code panel then shows that one attribute.
   */
  method FadeInScenario(showNum: real -> string) returns (values: ValueMap, counter: nat, snippet: string)
    requires showNum(2.5) == "2.5"
    ensures values == ValueMap(["duration"], map["duration" := VNum(2.5)])
    ensures counter == 0
    ensures snippet == "<" + "FadeIn" + "\n  " + "duration={2.5}" + "\n>\n  <YourContent />\n</" + "FadeIn" + ">"
  {
    var duration := ControlConfig("duration", "Duration", Range, VNum(1.0), None, Some(0.1), Some(3.0), None);
    var p := new Playground("Fade In", [duration], None);
    assert p.controlValues == ValueMap(["duration"], map["duration" := VNum(1.0)]);
    p.HandleControlChange("duration", VNum(2.5));
    CodeGen.FadeInExample(showNum);
    values, counter, snippet := p.controlValues, p.key, p.Snippet(showNum);
  }
}
