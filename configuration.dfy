/**
 * The options of `LiftUp` and the context record it hands to every line
 * (src/LiftUp.tsx, the props type, the destructuring defaults and `LiftUpContext`).
 */
module Configuration {
  import opened Wrappers

  /** A CSS width such as "0.2em", kept as an opaque token. */
  type Css = string

  /** `charDelay` and `lineDelay`: a number, or a function of the unit or line index. */
  datatype IndexDelay = Const(step: int) | Fn(f: nat -> int)

  /** The delay a policy gives index `i`: `p(i)` for a function, `i * p` for a number. */
  function DelayAt(p: IndexDelay, i: nat): int {
    match p
    case Fn(f) => f(i)
    case Const(step) => i * step
  }

  /** `spaceWidth`: undefined, a width, or a function from the whitespace character to a width. */
  datatype SpaceWidth = Unset | Width(w: Css) | WidthFn(f: string -> Css)

  /** The curve parameters handed to the spring engine; `EngineDefault` is the engine's `config.default`. */
  datatype SpringConfig = EngineDefault | Curve(token: string)

  /** The value `LiftUp` provides to each line's subtree through `LiftUpContext`. */
  datatype Context = Context(
    wrapped: bool,
    active: bool,
    charDelay: IndexDelay,
    lineDelay: int,
    springConfig: Option<SpringConfig>,
    spaceWidth: SpaceWidth)

  /** What a line sees when no `LiftUp` encloses it. */
  const DefaultContext: Context := Context(false, false, Const(0), 0, None, Unset)

  /** The options of `LiftUp` other than its children and styling; `None`/`Unset` is undefined. */
  datatype Props = Props(
    active: Option<bool>,
    charDelay: Option<IndexDelay>,
    lineDelay: Option<IndexDelay>,
    springConfig: Option<SpringConfig>,
    spaceWidth: SpaceWidth)

  /** `LiftUp` with every option left undefined. */
  const DefaultProps: Props := Props(None, None, None, None, Unset)

  const DefaultCharDelay: int := 35
  const DefaultLineDelay: int := 100
  const DefaultSpaceWidth: Css := "0.2em"

  /** The `charDelay` in force once the destructuring default is applied. */
  function CharDelayOf(p: Props): IndexDelay {
    p.charDelay.GetOr(Const(DefaultCharDelay))
  }

  /** The `lineDelay` policy in force once the destructuring default is applied. */
  function LineDelayOf(p: Props): IndexDelay {
    p.lineDelay.GetOr(Const(DefaultLineDelay))
  }

  /**
   * The context `LiftUp` publishes around line `i`: always wrapped, the line
   * delay already resolved for `i`, and a space width that is never undefined
   * because of the '0.2em' default.
   */
  function LineContext(p: Props, i: nat): (c: Context)
    ensures c.wrapped
    ensures c.active <==> p.active == Some(true)
    ensures c.lineDelay == DelayAt(LineDelayOf(p), i)
    ensures c.charDelay == CharDelayOf(p) && c.springConfig == p.springConfig
    ensures c.spaceWidth == if p.spaceWidth.Unset? then Width(DefaultSpaceWidth) else p.spaceWidth
    ensures !c.spaceWidth.Unset?
  {
    Context(
      true,
      p.active.GetOr(false),
      CharDelayOf(p),
      DelayAt(LineDelayOf(p), i),
      p.springConfig,
      if p.spaceWidth.Unset? then Width(DefaultSpaceWidth) else p.spaceWidth)
  }

  /** With the default options, line `i` is delayed by `100 * i` and units step by 35. */
  lemma DefaultLineContext(i: nat)
    ensures LineContext(DefaultProps, i).lineDelay == 100 * i
    ensures LineContext(DefaultProps, i).charDelay == Const(35)
    ensures !LineContext(DefaultProps, i).active
    ensures LineContext(DefaultProps, i).spaceWidth == Width("0.2em")
  {
  }
}
