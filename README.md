# LiftUp text reveal, modelled in Dafny

`LiftUp` is a React component that reveals text by lifting each character up
out of a clipping box, staggered first by character and then by line. This
project models its core, `src/LiftUp.tsx`:

- **Grouping** (`grouping.dfy`). A left fold (`Step`, `Fold`) turns the
  children of `LiftUp` into groups. Each explicit `LiftUp.Item` is a sealed
  group of its own. Each run of bare children becomes one open group. A map
  (`ToLine`, `Lines`) then wraps every open group in an implicit item. A run
  of one child is unwrapped to the child itself; a longer run is wrapped as a list.
- **Per-line context** (`configuration.dfy`, `liftup.dfy`). `LiftUp` applies
  its defaults (`charDelay = 35`, `lineDelay = 100`, `spaceWidth = '0.2em'`,
  `active = false`). Line `j` then gets a context with `wrapped = true` and
  line delay `lineDelay(j)` for a function policy, or `j * lineDelay` for a
  number (`DelayAt`).
- **Units** (`units.dfy`). An item whose children are a string splits into
  one unit per code point. Any other content gives one opaque unit per child
  (`SplitUnits`).
- **Widths** (`units.dfy`). A unit that is a single whitespace character gets
  a width from the first defined of: the item's function, the item's
  constant, the context's function, the context's constant. No other unit
  ever gets a width. `IsWhitespace` lists the characters of JavaScript's `\s`.
- **Animator** (`animator.dfy`). The class `LineAnimator` models one mounted
  item. It has one spring per unit, and every spring starts hidden at `"100%"`
  whatever `active` is. On every change of `active` (`SetActive`) or of the
  delays (`SetTiming`), the effect (`StartAll`) loops over the units in
  index order. It submits one command per unit: target `"0%"` if active,
  else `"100%"`, with delay `charDelay(i) + lineDelay`. `Mount` first
  refuses a context that is not wrapped (the usage error
  `"LiftUpItem must be wrapped in a LiftUp component."`). It then builds the
  hidden springs and runs the first effect.

Modules: `Wrappers` (Option, Result), `Configuration`, `Content` (nodes,
children, item elements, fragments), `Grouping`, `Units`, `Animator`,
`LiftUp` (lines paired with their contexts).

Two behaviours of the code are worth knowing:

- Inside `LiftUp` the context's space width is never undefined, because of
  the `'0.2em'` default. So the "no width" end of the chain is reached only
  when there is no `LiftUp`, and there the component throws first.
- Only an item whose `children` is exactly one string is split into
  characters. An implicit line of several bare children, such as two adjacent
  strings, animates child by child.

## Model

| member | source | states |
|---|---|---|
| Configuration.LineContext | src/LiftUp.tsx:116-123 | every published context is wrapped; it is active exactly when `active` was given as true; its line delay is the line policy at the line index; it carries `LiftUp`'s own `charDelay` (default 35) and `springConfig`; its space width is `LiftUp`'s `spaceWidth`, or "0.2em" when that is undefined, so it is never undefined |
| Configuration.DefaultLineContext | src/LiftUp.tsx:63-67 | with no options, line `i` is delayed by `100 * i`, the unit step is 35, `active` is false and the space width is "0.2em" |
| Grouping.StepExtends | src/LiftUp.tsx:74-91 | one reduce step keeps the groups well formed and adds exactly the new child. It never changes an earlier sealed group. The last group is open exactly when the child is bare |
| Grouping.FoldPartitions | src/LiftUp.tsx:73-91 | the groups are well formed (no empty open group, no open group after another), and read back in order they give exactly the children |
| Grouping.FoldUnique | src/LiftUp.tsx:73-91 | any well-formed grouping that reads back as the children is the fold's result, so the split into lines is determined by the children |
| Grouping.ItemKeepsOwnLine | src/LiftUp.tsx:75-98 | every explicit item is alone in a sealed group and renders as that very item |
| Grouping.LineCount | src/LiftUp.tsx:73-100 | the number of lines is the number of explicit items plus the number of runs of bare children (zero children, zero lines); the last group is open exactly when the last child is bare |
| Grouping.BareRunIsOneLine | src/LiftUp.tsx:82-89 | a non-empty list of bare children makes exactly one open group holding all of them in order, hence one line |
| Grouping.ItemsAreLines | src/LiftUp.tsx:75-80 | a list of explicit items maps one to one onto lines, unchanged |
| Grouping.ExampleTwoItemsAroundRun | src/LiftUp.tsx:73-100 | `[Item A, B, C, Item D]` renders exactly the lines `A`, an implicit item around `[B, C]`, and `D` |
| Grouping.ExampleSingleBareUnwrapped | src/LiftUp.tsx:92-96 | `[Item A, B]` renders `A` and an implicit item around `B` itself, not around a one-element list |
| Units.Chars | src/LiftUp.tsx:180-181 | splitting a string gives as many units as code points, unit `i` being the string of code point `i` |
| Units.CharsSpellBack | src/LiftUp.tsx:180-181 | the units of a string spell it back exactly: nothing lost, nothing reordered |
| Units.ExampleCafe | src/LiftUp.tsx:181 | "café" splits into four units, the last being the single code point "é" |
| Units.ResolveSpaceWidth | src/LiftUp.tsx:213-223 | only a single whitespace string gets a width; for it, the first defined of the item's option and the context's option decides it (a function applied to the character, a constant as is), else no width |
| Units.Widths | src/LiftUp.tsx:208-223 | one width entry per unit of the item, in unit order |
| Units.ExampleSpacePrecedence | src/LiftUp.tsx:213-223 | item "1em" over context "2em" gives "1em"; the context alone gives "2em"; a letter gets no width |
| Animator.Target | src/LiftUp.tsx:189-202 | the target is the visible offset "0%" exactly when `active` |
| Animator.EffectiveCurve | src/LiftUp.tsx:183-186 | the item's spring config wins; otherwise the context's; otherwise the engine default |
| Animator.Commands | src/LiftUp.tsx:188-204 | one effect run submits exactly one command per unit |
| Animator.CommandAt | src/LiftUp.tsx:190-201 | the command of unit `i` has target `Target(active)` and delay `charDelay(i) + lineDelay` |
| Animator.DelaysIgnoreDirection | src/LiftUp.tsx:188-204 | showing and hiding submit identical delays, so toggling true, false, true reissues the same delays; targets are "0%" and "100%" respectively |
| Animator.LineOffsetKeepsOrder | src/LiftUp.tsx:192-194 | the line delay shifts all units of a line equally, so it never changes their relative order |
| Animator.ConstStaggerIsOrdered | src/LiftUp.tsx:192-194 | with a non-negative constant `charDelay`, a later unit is never delayed less, and strictly more when the step is positive |
| Animator.LineAnimator.constructor | src/LiftUp.tsx:179-186 | a fresh item has one spring per unit of its content, every one hidden at "100%" with no command yet, whatever `active` is, with the resolved spring config |
| Animator.LineAnimator.StartAll | src/LiftUp.tsx:188-204 | every unit's spring receives exactly its command from `Commands` (later commands replace earlier ones), and its config is kept |
| Animator.LineAnimator.SetActive | src/LiftUp.tsx:188-204 | after an `active` change every unit heads for `Target(a)` with delay `charDelay(k) + lineDelay`; the delays themselves are unchanged |
| Animator.LineAnimator.SetTiming | src/LiftUp.tsx:188-204 | after a delay change every unit is resubmitted its current target with the new delay |
| Animator.Mount | src/LiftUp.tsx:174-186 | outside `LiftUp` mounting fails with the usage error and submits nothing; otherwise the new animator holds the context's `active`, `charDelay` and `lineDelay`, and the first effect run sends every unit to the target for the context's `active`, with its full delay |
| Animator.MountStandalone | src/LiftUp.tsx:175-177 | an item rendered under the context's default value (`wrapped: false`, src/LiftUp.tsx:252-257) fails with the usage error and submits no command |
| LiftUp.Render | src/LiftUp.tsx:113-128 | one rendered line per grouped line, in order: line `j` is the `j`-th grouped item under the context `LineContext(p, j)` |
| LiftUp.UnitDelayOnLine | src/LiftUp.tsx:120-121 | unit `i` of line `j` is delayed by the char policy at `i` plus the line policy at `j`, which with the defaults is `35 * i + 100 * j` |
| LiftUp.EveryLineIsWrapped | src/LiftUp.tsx:116-118 | every line's context is wrapped, so no line inside `LiftUp` raises the usage error, and all lines share one `active` |
| LiftUp.SpacesAlwaysSizedInside | src/LiftUp.tsx:213-223 | inside `LiftUp` a unit gets a width exactly when it is a single whitespace character, and that width is the item's option, else `LiftUp`'s `spaceWidth` option, else "0.2em" |
| LiftUp.ExampleLiftUpSpaceWidth | src/LiftUp.tsx:67 | `LiftUp` given `spaceWidth` "2em" sizes the space of a lone " " child with "2em"; with no option it uses "0.2em" |
| LiftUp.LoneStringRevealsByCharacter | src/LiftUp.tsx:92-94 | a lone string child becomes one implicit line around the string itself, whose units are its code points |

## Left out

- React rendering is not modelled: JSX markup, element keys, the `div` flex and overflow styling, and the `className` and `style` props. The context provider is replaced by passing a `Context` record explicitly.
- The react-spring engine is not modelled. A spring keeps only the target and delay of the last command submitted to it, and its config. The interpolation over time, frame scheduling and interruption are the engine's concern.
- `Children.toArray` is modelled only as given, flat lists of children. Its flattening of nested arrays, dropping of `null`/boolean children and key assignment are not modelled.
- Strings are sequences of Unicode code points. The UTF-16 encoding of JavaScript strings and its decoding by the spread operator are not modelled.
- CSS widths and spring configs are opaque tokens. A `spaceWidth` function returning `undefined` is not modelled.
- Delays are unbounded integers, not JavaScript floating-point numbers. Non-numeric results of delay functions are not modelled.
- When React re-runs the effect is not modelled: its comparison of dependencies by identity, and the `api` handle dependency. `SetActive` and `SetTiming` are the change events.
- Content changes after mount are not modelled. The units and the number of springs are fixed when an item mounts.
- Animator.Commands: its contract states only the number of commands; the content of each command is stated by Animator.CommandAt.
- Units.Widths: its contract states only the number of entries; the rule for each entry is the contract of Units.ResolveSpaceWidth.
- `dist/types/LiftUp.d.ts` (generated type declarations) and `app/src/App.tsx` (a demo page toggling `active` on clicks) have no behaviour of the core. They are not part of this model.
