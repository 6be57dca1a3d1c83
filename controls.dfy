/**
 * The data side of the Playground component: control descriptors, the
 * ordered value mapping that `controlValues` holds, the initial-value
 * reduce, and the per-type rules of `renderControl` (which value a widget
 * emits and which min/max/step fallbacks it applies).
 */
module Controls {
  import opened Wrappers

  /** A JavaScript value as the playground stores it in `controlValues`. */
  datatype Value = VNum(n: real) | VStr(s: string) | VBool(b: bool) | VUndef

  /** The closed set of control types. */
  datatype ControlType = Number | Range | Select | Boolean | Color

  datatype SelectOption = SelectOption(value: string, caption: string)

  /** One control descriptor (`ControlConfig`); `caption` is its `label`. */
  datatype ControlConfig = ControlConfig(
    name: string,
    caption: string,
    kind: ControlType,
    defaultValue: Value,
    options: Option<seq<SelectOption>>,
    min: Option<real>,
    max: Option<real>,
    step: Option<real>)

  /** The set of declared control names. */
  function Names(cs: seq<ControlConfig>): set<string>
  {
    set i | 0 <= i < |cs| :: cs[i].name
  }

  /** The declared names, in declaration order. */
  function NameSeq(cs: seq<ControlConfig>): (r: seq<string>)
    ensures |r| == |cs|
    ensures forall i :: 0 <= i < |cs| ==> r[i] == cs[i].name
  {
    seq(|cs|, i requires 0 <= i < |cs| => cs[i].name)
  }

  /** No two descriptors share a name. */
  predicate UniqueNames(cs: seq<ControlConfig>)
  {
    forall i, j :: 0 <= i < j < |cs| ==> cs[i].name != cs[j].name
  }

  /** Descriptor `i` is the last one declaring its name. */
  predicate LastWithName(cs: seq<ControlConfig>, i: int)
    requires 0 <= i < |cs|
  {
    forall j :: i < j < |cs| ==> cs[j].name != cs[i].name
  }

  /**
   * A JavaScript object used as a dictionary: the keys in iteration
   * (insertion) order, and the value of each key.
   */
  datatype ValueMap = ValueMap(order: seq<string>, vals: map<string, Value>)
  {
    /** Every key occurs once in `order`, and `order` lists exactly the keys of `vals`. */
    predicate Valid()
    {
      && (forall i, j :: 0 <= i < j < |order| ==> order[i] != order[j])
      && (forall k :: k in vals ==> k in order)
      && (forall i :: 0 <= i < |order| ==> order[i] in vals)
    }

    /** `{ ...this, [k]: v }`: an existing key keeps its place, a new key goes last. */
    function Put(k: string, v: Value): (r: ValueMap)
      requires Valid()
      ensures r.Valid()
      ensures r.vals.Keys == vals.Keys + {k}
      ensures r.vals[k] == v
      ensures forall j :: j in vals && j != k ==> r.vals[j] == vals[j]
      ensures k in vals ==> r.order == order
      ensures k !in vals ==> r.order == order + [k]
    {
      if k in vals then ValueMap(order, vals[k := v])
      else ValueMap(order + [k], vals[k := v])
    }

    /** `this[k]`, which is `undefined` for a missing key. */
    function Get(k: string): (r: Value)
      ensures k in vals ==> r == vals[k]
      ensures k !in vals ==> r == VUndef
    {
      if k in vals then vals[k] else VUndef
    }
  }

  const EmptyValues: ValueMap := ValueMap([], map[])

  /** Dropping the last descriptor drops its name and possibly nothing else. */
  lemma NamesSnoc(cs: seq<ControlConfig>)
    requires cs != []
    ensures Names(cs) == Names(cs[..|cs| - 1]) + {cs[|cs| - 1].name}
  {
    var init := cs[..|cs| - 1];
    assert forall i :: 0 <= i < |init| ==> init[i] == cs[i];
  }

  /**
   * `controls.reduce((acc, c) => ({ ...acc, [c.name]: c.defaultValue }), {})`:
   * the keys are exactly the declared names.
   */
  function InitialValues(cs: seq<ControlConfig>): (r: ValueMap)
    ensures r.Valid()
    ensures r.vals.Keys == Names(cs)
    decreases |cs|
  {
    if cs == [] then EmptyValues
    else
      var acc := InitialValues(cs[..|cs| - 1]);
      NamesSnoc(cs);
      acc.Put(cs[|cs| - 1].name, cs[|cs| - 1].defaultValue)
  }

  /** Each name carries the default of the last descriptor declaring it (the later spread wins). */
  lemma {:induction false} InitialValuesLastWins(cs: seq<ControlConfig>, i: int)
    requires 0 <= i < |cs| && LastWithName(cs, i)
    ensures cs[i].name in InitialValues(cs).vals
    ensures InitialValues(cs).vals[cs[i].name] == cs[i].defaultValue
    decreases |cs|
  {
    var init := cs[..|cs| - 1];
    if i < |cs| - 1 {
      assert init[i] == cs[i];
      assert LastWithName(init, i);
      InitialValuesLastWins(init, i);
    }
  }

  /** Dropping the last descriptor drops the last name. */
  lemma NameSeqSnoc(cs: seq<ControlConfig>)
    requires cs != []
    ensures NameSeq(cs) == NameSeq(cs[..|cs| - 1]) + [cs[|cs| - 1].name]
  {
  }

  /** With unique names the keys iterate in declaration order. */
  lemma {:induction false} InitialValuesOrder(cs: seq<ControlConfig>)
    requires UniqueNames(cs)
    ensures InitialValues(cs).order == NameSeq(cs)
    decreases |cs|
  {
    if cs != [] {
      var init, last := cs[..|cs| - 1], cs[|cs| - 1];
      assert UniqueNames(init) by {
        forall i, j | 0 <= i < j < |init| ensures init[i].name != init[j].name {
          assert init[i] == cs[i] && init[j] == cs[j];
        }
      }
      InitialValuesOrder(init);
      assert last.name !in InitialValues(init).vals by {
        forall i | 0 <= i < |init| ensures init[i].name != last.name {
          assert init[i] == cs[i];
        }
      }
      NameSeqSnoc(cs);
    }
  }

  /** The value map holds exactly one entry per declared control. */
  predicate Total(m: ValueMap, cs: seq<ControlConfig>)
  {
    m.Valid() && m.vals.Keys == Names(cs)
  }

  /** Setting a declared control never adds or removes a key. */
  lemma PutDeclaredKeepsTotal(m: ValueMap, cs: seq<ControlConfig>, i: int, v: Value)
    requires Total(m, cs) && 0 <= i < |cs|
    ensures Total(m.Put(cs[i].name, v), cs)
    ensures m.Put(cs[i].name, v).order == m.order
  {
  }

  /** The value type that each control type stores. */
  predicate Fits(kind: ControlType, v: Value)
  {
    match kind
    case Number => v.VNum?
    case Range => v.VNum?
    case Select => v.VStr?
    case Boolean => v.VBool?
    case Color => v.VStr?
  }

  /** The parts of a DOM change event that the handlers read. */
  datatype ChangeEvent = ChangeEvent(targetValue: string, checked: bool)

  /**
   * The value an `onChange` handler passes to `handleControlChange`:
   * number and range parse the text with `parseFloat`, select and color
   * pass the raw string, boolean passes the checkbox state.
   */
  function EmittedValue(kind: ControlType, ev: ChangeEvent, parseFloat: string -> real): (r: Value)
    ensures Fits(kind, r)
    ensures r.VNum? ==> r.n == parseFloat(ev.targetValue)
    ensures r.VStr? ==> r.s == ev.targetValue
    ensures r.VBool? ==> r.b == ev.checked
  {
    match kind
    case Number => VNum(parseFloat(ev.targetValue))
    case Range => VNum(parseFloat(ev.targetValue))
    case Select => VStr(ev.targetValue)
    case Boolean => VBool(ev.checked)
    case Color => VStr(ev.targetValue)
  }

  /** Every declared control currently holds a value of its own type. */
  predicate WellTyped(m: ValueMap, cs: seq<ControlConfig>)
    requires Total(m, cs)
  {
    forall i :: 0 <= i < |cs| ==> Fits(cs[i].kind, m.vals[cs[i].name])
  }

  /** Defaults of the declared types give a well-typed initial map. */
  lemma InitialWellTyped(cs: seq<ControlConfig>)
    requires UniqueNames(cs)
    requires forall i :: 0 <= i < |cs| ==> Fits(cs[i].kind, cs[i].defaultValue)
    ensures Total(InitialValues(cs), cs) && WellTyped(InitialValues(cs), cs)
  {
    var m := InitialValues(cs);
    forall i | 0 <= i < |cs|
      ensures Fits(cs[i].kind, m.vals[cs[i].name])
    {
      InitialValuesLastWins(cs, i);
    }
  }

  /** A change emitted by a control's own widget keeps the map well-typed. */
  lemma {:induction false} EmitKeepsWellTyped(m: ValueMap, cs: seq<ControlConfig>, i: int, ev: ChangeEvent, parseFloat: string -> real)
    requires UniqueNames(cs) && Total(m, cs) && WellTyped(m, cs) && 0 <= i < |cs|
    ensures Total(m.Put(cs[i].name, EmittedValue(cs[i].kind, ev, parseFloat)), cs)
    ensures WellTyped(m.Put(cs[i].name, EmittedValue(cs[i].kind, ev, parseFloat)), cs)
  {
    var m' := m.Put(cs[i].name, EmittedValue(cs[i].kind, ev, parseFloat));
    forall j | 0 <= j < |cs|
      ensures Fits(cs[j].kind, m'.vals[cs[j].name])
    {
      if j != i {
        assert cs[j].name != cs[i].name;
      }
    }
  }

  /** The attributes `renderControl` gives the widget of one control (a slider's `low`/`high` are its `min`/`max`). */
  datatype Widget =
    | NumberField(value: Value, min: Option<real>, max: Option<real>, step: real)
    | Slider(value: Value, low: real, high: real, step: real)
    | Dropdown(value: Value, options: seq<SelectOption>)
    | Checkbox(value: Value)
    | ColorPair(value: Value)

  /** A JavaScript number attribute is truthy when present and not 0. */
  predicate TruthyNumber(o: Option<real>)
  {
    o.Some? && o.value != 0.0
  }

  /** `o || fallback` on an optional number. */
  function OrElse(o: Option<real>, fallback: real): (r: real)
    ensures TruthyNumber(o) ==> r == o.value
    ensures !TruthyNumber(o) ==> r == fallback
    ensures fallback != 0.0 ==> r != 0.0
  {
    if TruthyNumber(o) then o.value else fallback
  }

  /**
   * `renderControl`: the widget shows `controlValues[name]` and applies
   * the fallbacks `step || 0.1` (number) and `min || 0`, `max || 100`,
   * `step || 1` (range).
   */
  function RenderControl(c: ControlConfig, m: ValueMap): (w: Widget)
    ensures w.value == m.Get(c.name)
    ensures c.kind == Number <==> w.NumberField?
    ensures c.kind == Range <==> w.Slider?
    ensures c.kind == Select <==> w.Dropdown?
    ensures c.kind == Boolean <==> w.Checkbox?
    ensures c.kind == Color <==> w.ColorPair?
    ensures w.NumberField? ==> w.min == c.min && w.max == c.max && w.step != 0.0
    ensures w.Slider? ==> w.high != 0.0 && w.step != 0.0
    ensures (w.NumberField? || w.Slider?) && TruthyNumber(c.step) ==> w.step == c.step.value
    ensures w.Slider? && TruthyNumber(c.min) ==> w.low == c.min.value
    ensures w.Slider? && TruthyNumber(c.max) ==> w.high == c.max.value
    ensures w.NumberField? && !TruthyNumber(c.step) ==> w.step == 0.1
    ensures w.Slider? && !TruthyNumber(c.min) ==> w.low == 0.0
    ensures w.Slider? && !TruthyNumber(c.max) ==> w.high == 100.0
    ensures w.Slider? && !TruthyNumber(c.step) ==> w.step == 1.0
    ensures w.Dropdown? ==> w.options == (if c.options.Some? then c.options.value else [])
  {
    var value := m.Get(c.name);
    match c.kind
    case Number => NumberField(value, c.min, c.max, OrElse(c.step, 0.1))
    case Range => Slider(value, OrElse(c.min, 0.0), OrElse(c.max, 100.0), OrElse(c.step, 1.0))
    case Select => Dropdown(value, if c.options.Some? then c.options.value else [])
    case Boolean => Checkbox(value)
    case Color => ColorPair(value)
  }

  /** A range configured with 0 for max or step gets the fallback, not 0. */
  lemma RangeZeroReplaced(c: ControlConfig, m: ValueMap)
    requires c.kind == Range && c.max == Some(0.0) && c.step == Some(0.0)
    ensures RenderControl(c, m).high == 100.0 && RenderControl(c, m).step == 1.0
  {
  }
}
