# react-mov playground and registry, modelled in Dafny

This project models the logic of the react-mov documentation site: the
**Playground** component, the **component registry resolver**, and the
**Slide In** example's offset function.

- **Controls** (`controls.dfy`) covers the data side of the Playground.
  It holds the control descriptors, the value map, the initial-value reduce and the per-type widget rules.
  The value map is `controlValues`, kept as a key order plus a map so that iteration order is explicit.
  The widget rules say which value each widget emits and which min/max/step fallbacks apply.
- **CodeGen** (`codegen.dfy`) covers `generateCode`.
  It models the override by `code` and the entries → filter → map → filter → join pipeline.
  It also models the JSX template.
  The pipeline is proved equal to an independent per-entry definition of the attribute lines.
- **PlaygroundState** (`playground.dfy`) is the component's state as a class.
  The fields are the remount counter `key`, `controlValues` and `showCode`.
  The handlers are change, reset, replay, toggle and a widget's `onChange`.
- **Registry** (`registry.dfy`) covers the component table, the first-match `find` and the content fallback.
  `GetComponent` is the sequential load loop, proved against a recursive specification `Resolve`.
- **SlideIn** (`slide_in.dfy`) covers `getInitialPosition` and the page's controls.
  It proves that the select can only feed the four named directions.

Parameters stand for what the model cannot see:
- JavaScript's `parseFloat` is `parseFloat: string -> real`.
- Number-to-text conversion inside a template literal is `showNum: real -> string`.
- The dynamic `import` is `load: string -> Result<ModuleExports, string>`.

Where the code's behaviour is narrower or looser than a reader might expect, the model follows the code:
- the tag name drops only the first space of the title (`String.replace` with a string pattern), so "A B C" gives "AB C";
- `handleControlChange` accepts any name and adds a key for an undeclared one; it does not fail.
  Only the widgets call it, always with a declared name, and that case is proved to keep the key set;
- number and range widgets store whatever `parseFloat` returns, even for invalid text;
- `code` overrides the derived snippet only when it is a non-empty string;
- `true` under the empty key yields the empty string, which `.filter(Boolean)` then removes.

## Model

| member | source | states |
|---|---|---|
| Controls.InitialValues | src/docs/components/Playground.tsx:27-32 | the initial map is well formed and its key set is exactly the set of declared control names |
| Controls.InitialValuesLastWins | src/docs/components/Playground.tsx:27-32 | each name maps to the default of the last descriptor declaring it (the later spread wins) |
| Controls.InitialValuesOrder | src/docs/components/Playground.tsx:27-32 | with unique names, keys iterate in declaration order |
| Controls.ValueMap.Put | src/docs/components/Playground.tsx:35 | the object spread sets one key to the new value; other keys keep their values; an existing key keeps its position and a new key goes last |
| Controls.ValueMap.Get | src/docs/components/Playground.tsx:49 | `controlValues[name]` is the stored value, or undefined for a missing key |
| Controls.PutDeclaredKeepsTotal | src/docs/components/Playground.tsx:34-36 | setting a declared control keeps the key set equal to the declared names and keeps the key order |
| Controls.EmittedValue | src/docs/components/Playground.tsx:52-127 | number/range emit parseFloat of the text, select/color the raw text, boolean the checked state; the value has the control type's kind |
| Controls.InitialWellTyped | src/docs/components/Playground.tsx:13-32 | defaults of the declared kinds give a total, well-typed initial map |
| Controls.EmitKeepsWellTyped | src/docs/components/Playground.tsx:52-127 | a value emitted by a control's own widget keeps the map total and well typed |
| Controls.OrElse | src/docs/components/Playground.tsx:60-74 | `x \|\| fallback` keeps a truthy configured number and otherwise gives the fallback; with a non-zero fallback the result is never 0 |
| Controls.RenderControl | src/docs/components/Playground.tsx:48-132 | one widget variant per control type, showing the current value; a falsy number step becomes 0.1; falsy range min/max/step become 0/100/1; truthy configured values are kept; number min/max pass through; select options default to none |
| Controls.RangeZeroReplaced | src/docs/components/Playground.tsx:72-74 | a range configured with max 0 and step 0 is drawn with max 100 and step 1 |
| CodeGen.GenerateCode | src/docs/components/Playground.tsx:134-150 | a non-empty `code` is returned verbatim; otherwise the result is a tag starting with `<` and ending with `>` |
| CodeGen.EmptyCodeFallsThrough | src/docs/components/Playground.tsx:135 | an empty `code` derives the same snippet as an absent one |
| CodeGen.ReplaceFirstSpace | src/docs/components/Playground.tsx:147-149 | a title without a space is unchanged; otherwise exactly one character is removed |
| CodeGen.ReplaceFirstSpaceAt | src/docs/components/Playground.tsx:147-149 | the removed character is the first space |
| CodeGen.ReplaceFirstSpaceKeepsSecond | src/docs/components/Playground.tsx:147 | "A B C" becomes "AB C": later spaces stay |
| CodeGen.Entries | src/docs/components/Playground.tsx:137 | one key/value pair per key, in iteration order |
| CodeGen.DropUndefined | src/docs/components/Playground.tsx:138 | no remaining entry is undefined |
| CodeGen.FormatAll | src/docs/components/Playground.tsx:139-143 | one formatted text per entry, in order |
| CodeGen.Format | src/docs/components/Playground.tsx:139-143 | a boolean gives the bare key when true and "" when false (or under the empty key); any other value gives the key followed by `="text"` for a string or `={number}` for a number |
| CodeGen.DropEmpty | src/docs/components/Playground.tsx:144 | no remaining text is empty |
| CodeGen.Join | src/docs/components/Playground.tsx:145 | the empty list joins to ""; otherwise the result starts with the first part and its length is the parts' total plus one separator between each two |
| CodeGen.PropLines | src/docs/components/Playground.tsx:137-145 | at most one line per key, and no line is empty |
| CodeGen.JoinAppend | src/docs/components/Playground.tsx:145 | joining two non-empty lists puts exactly one separator between them |
| CodeGen.EntryLines | src/docs/components/Playground.tsx:138-144 | each entry contributes at most one line, never an empty one |
| CodeGen.PipelineIsLines | src/docs/components/Playground.tsx:137-145 | filter undefined / map / filter falsy gives exactly the per-entry lines: nothing for undefined or false, the bare key for true, `key="text"` for strings, `key={number}` otherwise |
| CodeGen.LinesAppend | src/docs/components/Playground.tsx:137-145 | the lines keep entry order: the lines of a concatenation concatenate |
| CodeGen.GeneratedLayout | src/docs/components/Playground.tsx:147-149 | the snippet is `<` + tag + newline-indent + joined lines + `\n>\n  <YourContent />\n</` + tag + `>` where the lines are the per-entry reference lines |
| CodeGen.PropLinesSplit | src/docs/components/Playground.tsx:137-145 | a key between keys a and b contributes its own lines between theirs |
| CodeGen.BooleanEntry | src/docs/components/Playground.tsx:141-144 | setting a key to false removes its line and setting it to true makes it the bare key; all other lines stay |
| CodeGen.UndefinedEntrySkipped | src/docs/components/Playground.tsx:138 | a key whose value is undefined contributes nothing |
| CodeGen.FadeInExample | src/docs/components/Playground.tsx:134-150 | example: title "Fade In" with the single value duration 2.5 yields `<FadeIn\n  duration={2.5}\n>\n  <YourContent />\n</FadeIn>` |
| PlaygroundState.Playground.constructor | src/docs/components/Playground.tsx:24-32 | the counter starts at 0, the code is hidden, the values are the initial reduce, and the map is total |
| PlaygroundState.Playground.HandleControlChange | src/docs/components/Playground.tsx:34-36 | only the named entry changes; counter and flag stay; a declared name keeps the map total |
| PlaygroundState.Playground.HandleReset | src/docs/components/Playground.tsx:38-46 | the counter rises by exactly 1 and every value returns to its default; the flag stays |
| PlaygroundState.Playground.Replay | src/docs/components/Playground.tsx:172 | the counter rises by exactly 1; values and flag stay |
| PlaygroundState.Playground.ToggleCode | src/docs/components/Playground.tsx:208 | the flag flips; counter and values stay |
| PlaygroundState.Playground.OnControlInput | src/docs/components/Playground.tsx:52-127 | a widget's change stores its emitted value under its control's name, keeping the map total and its key order |
| PlaygroundState.Playground.WidgetOf | src/docs/components/Playground.tsx:48-49 | the widget of a control shows that control's current value |
| PlaygroundState.Playground.Snippet | src/docs/components/Playground.tsx:228 | the code panel shows a non-empty `code` verbatim |
| PlaygroundState.ResetTwice | src/docs/components/Playground.tsx:38-46 | two resets give the defaults, as one does, and raise the counter by 2 |
| PlaygroundState.ToggleTwice | src/docs/components/Playground.tsx:208 | toggling twice restores the flag |
| PlaygroundState.FadeInScenario | src/docs/components/Playground.tsx:24-150 | example: a "Fade In" playground whose duration control is set to 2.5 holds `{duration: 2.5}`, keeps counter 0, and shows `<FadeIn\n  duration={2.5}\n>\n  <YourContent />\n</FadeIn>` |
| Registry.Find | src/registry/index.ts:18 | none exactly when no record carries the name; otherwise a record of the table with that name |
| Registry.FindFirst | src/registry/index.ts:18 | the record found is the first one carrying the name |
| Registry.ContentOf | src/registry/index.ts:29 | the default export if truthy, else the content export if truthy, else the empty string |
| Registry.ModulePath | src/registry/index.ts:26 | the import path is `./components/`, then the component name, `/`, then the file name |
| Registry.Message | src/registry/index.ts:20 | the not-found message is `Component `, the name, then ` not found in registry`; a failed import keeps its own reason |
| Registry.LoadAll | src/registry/index.ts:23-33 | on success one entry per file, named after that file in file order; a failure is a load failure at one of the files' paths |
| Registry.Resolve | src/registry/index.ts:17-34 | it fails with not-found (carrying the name) exactly when no record has the name; on success one entry per file of the record found |
| Registry.LoadAllShape | src/registry/index.ts:23-33 | success exactly when every load succeeds; then one entry per file in file order, named after the file, holding its module's content |
| Registry.LoadAllFailure | src/registry/index.ts:25-31 | a failure reports the first file whose load failed, with its reason; all earlier loads succeeded |
| Registry.ResolveUnknown | src/registry/index.ts:18-21 | an unknown name fails with the not-found error, message `Component <name> not found in registry`, and no list |
| Registry.ShippedTableNotFound | src/registry/index.ts:15-21 | with the shipped empty table every call fails with the not-found error |
| Registry.GetComponent | src/registry/index.ts:17-34 | the loop's result equals `Resolve`; imports happen one at a time in file order; an unknown name imports nothing; a failure stops at the failing import |
| SlideIn.InitialPosition | src/docs/examples/SlideInExample.tsx:53-66 | left/right move along x only, top/bottom along y only; left/top start at minus the distance and right/bottom at plus the distance; any other direction gives (0, 0) |
| SlideIn.NamedMagnitude | src/docs/examples/SlideInExample.tsx:55-62 | for a named direction one coordinate is 0 and the other has the distance's magnitude |
| SlideIn.OptionsAreNamed | src/docs/examples/SlideInExample.tsx:6-17 | the direction control's default and every option are directions the switch names |
| SlideIn.InitialDirection | src/docs/examples/SlideInExample.tsx:6-17 | the page starts with direction "left" |
| SlideIn.InputKeepsDirectionNamed | src/docs/examples/SlideInExample.tsx:5-51 | any change from one of the page's widgets keeps the direction a named one, so the default case is unreachable from the page |
| SlideIn.PreviewOffset | src/docs/examples/SlideInExample.tsx:82-83 | with a named direction the preview starts off-place unless the distance is 0 |

## Left out

- JSX markup, styling, framer-motion animations and lucide icons carry no state to model.
- React mechanics are not modelled: `useState` scheduling, and the remount caused by `key` (modelled as the counter only).
- The `children(controlValues)` render prop and the `description` and `label` texts are display only.
- `parseFloat` and JavaScript number-to-text conversion are parameters. IEEE behaviour is not modelled, including `NaN` from invalid text.
- `Object.entries` lists integer-like keys first. The model assumes non-numeric control names and insertion order.
- Values are numbers, strings, booleans or `undefined`. Objects, `null` and a select option's non-string `value` are not modelled.
- The dynamic `import` is the `load` parameter. A module's exports are modelled as optional strings, so a non-string `default` export is not modelled.
- The `default: return null` branch of `renderControl` has no counterpart: the control type is a closed datatype.
- The source has no operation that adds to the registry table, so none is modelled.
- The registry's dependency fields are carried but never read.
- The other example pages, routing, the sidebar, the home and components pages and the build configuration are not part of this model.
