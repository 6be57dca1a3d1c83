/**
 * `generateCode` of the Playground: a caller-supplied `code` override, or
 * a JSX snippet derived from the title and the current value map through
 * `Object.entries` / filter / map / filter / join.
 *
 * JavaScript's number-to-text conversion inside a template literal is the
 * parameter `showNum`.
 */
module CodeGen {
  import opened Wrappers
  import opened Controls

  /** The separator between two attributes of the generated tag. */
  const Sep: string := "\n  "

  /** `s.replace(' ', '')` with a string pattern: only the first space goes. */
  function ReplaceFirstSpace(s: string): (r: string)
    ensures ' ' !in s ==> r == s
    ensures ' ' in s ==> |r| == |s| - 1
  {
    if s == [] then []
    else if s[0] == ' ' then s[1..]
    else [s[0]] + ReplaceFirstSpace(s[1..])
  }

  /** Exactly the character at the first space is removed. */
  lemma {:induction false} ReplaceFirstSpaceAt(s: string, i: int)
    requires 0 <= i < |s| && s[i] == ' ' && ' ' !in s[..i]
    ensures ReplaceFirstSpace(s) == s[..i] + s[i + 1..]
  {
    if i > 0 {
      assert s[0] != ' ' by { assert s[..i][0] == s[0]; }
      assert s[1..][..i - 1] == s[..i][1..];
      ReplaceFirstSpaceAt(s[1..], i - 1);
      assert s[1..][i..] == s[i + 1..];
    }
  }

  /** A title with two spaces keeps its second one. */
  lemma ReplaceFirstSpaceKeepsSecond()
    ensures ReplaceFirstSpace("A B C") == "AB C"
  {
    ReplaceFirstSpaceAt("A B C", 1);
  }

  /** `Object.entries(controlValues)`: one pair per key, in iteration order. */
  function Entries(order: seq<string>, vals: map<string, Value>): (ps: seq<(string, Value)>)
    ensures |ps| == |order|
    ensures forall i :: 0 <= i < |order| ==> ps[i].0 == order[i]
    ensures forall i :: 0 <= i < |order| && order[i] in vals ==> ps[i].1 == vals[order[i]]
  {
    seq(|order|, i requires 0 <= i < |order| => (order[i], ValueMap(order, vals).Get(order[i])))
  }

  /** The entries of a concatenation of key lists concatenate. */
  lemma EntriesAppend(a: seq<string>, b: seq<string>, vals: map<string, Value>)
    ensures Entries(a + b, vals) == Entries(a, vals) + Entries(b, vals)
  {
  }

  /** `.filter(([_, value]) => value !== undefined)` */
  function DropUndefined(ps: seq<(string, Value)>): (r: seq<(string, Value)>)
    ensures forall i :: 0 <= i < |r| ==> r[i].1 != VUndef
    ensures |r| <= |ps|
  {
    if ps == [] then []
    else if ps[0].1 == VUndef then DropUndefined(ps[1..])
    else [ps[0]] + DropUndefined(ps[1..])
  }

  /** The text the `.map` callback returns for one entry. */
  function Format(key: string, v: Value, showNum: real -> string): (r: string)
    ensures v.VBool? ==> (r == "" <==> !v.b || key == "")
    ensures v.VBool? && v.b ==> r == key
    ensures !v.VBool? ==> |r| > |key| && r[..|key|] == key
    ensures v.VStr? ==> r[|key|..] == "=\"" + v.s + "\""
    ensures v.VNum? ==> r[|key|..] == "={" + showNum(v.n) + "}"
  {
    match v
    case VStr(s) => key + "=\"" + s + "\""
    case VBool(b) => if b then key else ""
    case VNum(n) => key + "={" + showNum(n) + "}"
    case VUndef => key + "={undefined}"
  }

  /** `.map(([key, value]) => ...)` */
  function FormatAll(ps: seq<(string, Value)>, showNum: real -> string): (r: seq<string>)
    ensures |r| == |ps|
    ensures forall i :: 0 <= i < |ps| ==> r[i] == Format(ps[i].0, ps[i].1, showNum)
  {
    if ps == [] then [] else [Format(ps[0].0, ps[0].1, showNum)] + FormatAll(ps[1..], showNum)
  }

  /** `.filter(Boolean)` on strings: the empty string is falsy. */
  function DropEmpty(ss: seq<string>): (r: seq<string>)
    ensures forall i :: 0 <= i < |r| ==> r[i] != ""
    ensures |r| <= |ss|
  {
    if ss == [] then []
    else if ss[0] == "" then DropEmpty(ss[1..])
    else [ss[0]] + DropEmpty(ss[1..])
  }

  /** The total length of a list of strings. */
  function TotalLength(ss: seq<string>): nat
  {
    if ss == [] then 0 else |ss[0]| + TotalLength(ss[1..])
  }

  /**
   * `Array.prototype.join(sep)`: the parts, in order, with one separator
   * between each two of them.
   */
  function Join(ss: seq<string>, sep: string): (r: string)
    ensures ss == [] ==> r == ""
    ensures ss != [] ==> |r| == TotalLength(ss) + (|ss| - 1) * |sep|
    ensures ss != [] ==> r[..|ss[0]|] == ss[0]
  {
    if ss == [] then ""
    else if |ss| == 1 then ss[0]
    else ss[0] + sep + Join(ss[1..], sep)
  }

  /** Joining two non-empty lists puts one separator between them. */
  lemma {:induction false} JoinAppend(a: seq<string>, b: seq<string>, sep: string)
    requires a != [] && b != []
    ensures Join(a + b, sep) == Join(a, sep) + sep + Join(b, sep)
    decreases |a|
  {
    if |a| == 1 {
      assert a + b == [a[0]] + b;
      assert (a + b)[1..] == b;
    } else {
      assert (a + b)[1..] == a[1..] + b;
      JoinAppend(a[1..], b, sep);
    }
  }

  /** The attribute lines of `generateCode`, as the source computes them. */
  function PropLines(m: ValueMap, showNum: real -> string): (r: seq<string>)
    requires m.Valid()
    ensures |r| <= |m.order|
    ensures forall i :: 0 <= i < |r| ==> r[i] != ""
  {
    DropEmpty(FormatAll(DropUndefined(Entries(m.order, m.vals)), showNum))
  }

  /** `generateCode()` */
  function GenerateCode(title: string, m: ValueMap, code: Option<string>, showNum: real -> string): (r: string)
    requires m.Valid()
    ensures TruthyText(code) ==> r == code.value
    ensures !TruthyText(code) ==> |r| > 0 && r[0] == '<' && r[|r| - 1] == '>'
  {
    if TruthyText(code) then code.value
    else
      var tag := ReplaceFirstSpace(title);
      "<" + tag + Sep + Join(PropLines(m, showNum), Sep) + "\n>\n  <YourContent />\n</" + tag + ">"
  }

  /** An empty `code` is falsy: it derives the snippet just as an absent one does. */
  lemma EmptyCodeFallsThrough(title: string, m: ValueMap, showNum: real -> string)
    requires m.Valid()
    ensures GenerateCode(title, m, Some(""), showNum) == GenerateCode(title, m, None, showNum)
    ensures GenerateCode(title, m, Some(""), showNum) != ""
  {
  }

  // ---------------------------------------------------------------------
  // Reference definition: the lines that each entry contributes on its own.
  // ---------------------------------------------------------------------

  /**
   * The attribute lines one entry contributes: none for `undefined` and
   * `false`, the bare key for `true` (none if the key is empty, since the
   * empty string is then filtered out), `key="text"` for a string, and
   * `key={number}` for a number.
   */
  function EntryLines(key: string, v: Value, showNum: real -> string): (r: seq<string>)
    ensures |r| <= 1
    ensures forall i :: 0 <= i < |r| ==> r[i] != ""
  {
    match v
    case VUndef => []
    case VBool(b) => if b && key != "" then [key] else []
    case VStr(s) => [key + "=\"" + s + "\""]
    case VNum(n) => [key + "={" + showNum(n) + "}"]
  }

  /** The lines of a list of entries, each entry in its turn. */
  function Lines(ps: seq<(string, Value)>, showNum: real -> string): seq<string>
  {
    if ps == [] then [] else EntryLines(ps[0].0, ps[0].1, showNum) + Lines(ps[1..], showNum)
  }

  /** Entries keep their order: the lines of a concatenation concatenate. */
  lemma {:induction false} LinesAppend(a: seq<(string, Value)>, b: seq<(string, Value)>, showNum: real -> string)
    ensures Lines(a + b, showNum) == Lines(a, showNum) + Lines(b, showNum)
    decreases |a|
  {
    if a != [] {
      var e := EntryLines(a[0].0, a[0].1, showNum);
      assert (a + b)[0] == a[0];
      assert (a + b)[1..] == a[1..] + b;
      LinesAppend(a[1..], b, showNum);
      calc {
        Lines(a + b, showNum);
        e + Lines(a[1..] + b, showNum);
        e + (Lines(a[1..], showNum) + Lines(b, showNum));
        (e + Lines(a[1..], showNum)) + Lines(b, showNum);
        Lines(a, showNum) + Lines(b, showNum);
      }
    } else {
      assert a + b == b;
    }
  }

  /** The filter / map / filter chain yields exactly the per-entry lines. */
  lemma {:induction false} PipelineIsLines(ps: seq<(string, Value)>, showNum: real -> string)
    ensures DropEmpty(FormatAll(DropUndefined(ps), showNum)) == Lines(ps, showNum)
    decreases |ps|
  {
    if ps != [] {
      PipelineIsLines(ps[1..], showNum);
      var f := FormatAll(DropUndefined(ps), showNum);
      if ps[0].1 != VUndef {
        assert DropUndefined(ps) == [ps[0]] + DropUndefined(ps[1..]);
        assert f == [Format(ps[0].0, ps[0].1, showNum)] + FormatAll(DropUndefined(ps[1..]), showNum);
        assert f[1..] == FormatAll(DropUndefined(ps[1..]), showNum);
      }
    }
  }

  /** The whole snippet, stated through the per-entry reference lines. */
  lemma GeneratedLayout(title: string, m: ValueMap, code: Option<string>, showNum: real -> string)
    requires m.Valid() && !TruthyText(code)
    ensures GenerateCode(title, m, code, showNum)
      == "<" + ReplaceFirstSpace(title) + Sep + Join(Lines(Entries(m.order, m.vals), showNum), Sep)
         + "\n>\n  <YourContent />\n</" + ReplaceFirstSpace(title) + ">"
  {
    PipelineIsLines(Entries(m.order, m.vals), showNum);
  }

  /** The lines of a single entry are that entry's own lines. */
  lemma LinesSingle(p: (string, Value), showNum: real -> string)
    ensures Lines([p], showNum) == EntryLines(p.0, p.1, showNum)
  {
    assert [p][1..] == [];
  }

  /**
   * With the key `k` between the keys `a` and `b`, the attribute lines are
   * those of `a`, then those of `k`, then those of `b`.
   */
  lemma PropLinesSplit(m: ValueMap, a: seq<string>, k: string, b: seq<string>, showNum: real -> string)
    requires m.Valid() && m.order == a + [k] + b && k in m.vals
    ensures PropLines(m, showNum)
      == Lines(Entries(a, m.vals), showNum) + EntryLines(k, m.vals[k], showNum) + Lines(Entries(b, m.vals), showNum)
  {
    var ea, ek, eb := Entries(a, m.vals), Entries([k], m.vals), Entries(b, m.vals);
    EntriesAppend(a + [k], b, m.vals);
    EntriesAppend(a, [k], m.vals);
    assert ek == [(k, m.vals[k])];
    PipelineIsLines(Entries(m.order, m.vals), showNum);
    LinesAppend(ea + ek, eb, showNum);
    LinesAppend(ea, ek, showNum);
    LinesSingle((k, m.vals[k]), showNum);
  }

  /** Keys other than `k` read the same entries after `k` is overwritten. */
  lemma EntriesUnaffected(ks: seq<string>, vals: map<string, Value>, k: string, v: Value)
    requires k !in ks
    ensures Entries(ks, vals[k := v]) == Entries(ks, vals)
  {
  }

  /**
   * Setting a declared control to `false` removes its line and leaves the
   * others in place; setting it to `true` makes its line the bare key.
   */
  lemma BooleanEntry(m: ValueMap, a: seq<string>, k: string, b: seq<string>, flag: bool, showNum: real -> string)
    requires m.Valid() && m.order == a + [k] + b && k != ""
    ensures PropLines(m.Put(k, VBool(flag)), showNum)
      == Lines(Entries(a, m.vals), showNum) + (if flag then [k] else []) + Lines(Entries(b, m.vals), showNum)
  {
    assert m.order[|a|] == k;
    var m' := m.Put(k, VBool(flag));
    assert m'.order == m.order && m'.vals == m.vals[k := VBool(flag)];
    assert k !in a by {
      forall i | 0 <= i < |a| ensures a[i] != k { assert m.order[i] == a[i]; }
    }
    assert k !in b by {
      forall i | 0 <= i < |b| ensures b[i] != k { assert m.order[|a| + 1 + i] == b[i]; }
    }
    PropLinesSplit(m', a, k, b, showNum);
    EntriesUnaffected(a, m.vals, k, VBool(flag));
    EntriesUnaffected(b, m.vals, k, VBool(flag));
  }

  /** A control whose value is `undefined` contributes nothing. */
  lemma UndefinedEntrySkipped(m: ValueMap, a: seq<string>, k: string, b: seq<string>, showNum: real -> string)
    requires m.Valid() && m.order == a + [k] + b && k in m.vals && m.vals[k] == VUndef
    ensures PropLines(m, showNum) == Lines(Entries(a, m.vals), showNum) + Lines(Entries(b, m.vals), showNum)
  {
    PropLinesSplit(m, a, k, b, showNum);
  }

  /** Example (a "Fade In" playground with duration 2.5): the title loses its space. */
  lemma FadeInTag()
    ensures ReplaceFirstSpace("Fade In") == "FadeIn"
  {
    FadeInPieces();
    ReplaceFirstSpaceAt("Fade In", 4);
  }

  /** The pieces of "Fade In" around its space. */
  lemma FadeInPieces()
    ensures "Fade In"[4] == ' ' && "Fade In"[..4] == "Fade" && ' ' !in "Fade"
    ensures "Fade In"[5..] == "In" && "Fade" + "In" == "FadeIn"
  {
  }

  /** Example (a "Fade In" playground with duration 2.5): its single attribute line. */
  lemma FadeInLines(showNum: real -> string)
    requires showNum(2.5) == "2.5"
    ensures PropLines(ValueMap(["duration"], map["duration" := VNum(2.5)]), showNum) == ["duration={2.5}"]
  {
    var m := ValueMap(["duration"], map["duration" := VNum(2.5)]);
    assert Entries(m.order, m.vals) == [("duration", VNum(2.5))];
    PipelineIsLines(Entries(m.order, m.vals), showNum);
    LinesSingle(("duration", VNum(2.5)), showNum);
    assert "duration" + "={" + "2.5" + "}" == "duration={2.5}";
  }

  /** Example: a "Fade In" playground whose only control, duration, holds 2.5. */
  lemma FadeInExample(showNum: real -> string)
    requires showNum(2.5) == "2.5"
    ensures GenerateCode("Fade In", ValueMap(["duration"], map["duration" := VNum(2.5)]), None, showNum)
      == "<" + "FadeIn" + "\n  " + "duration={2.5}" + "\n>\n  <YourContent />\n</" + "FadeIn" + ">"
  {
    FadeInTag();
    FadeInLines(showNum);
    assert Join(["duration={2.5}"], Sep) == "duration={2.5}";
  }
}
