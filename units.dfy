/**
 * How a line's content becomes animated units and which units get a width
 * override (src/LiftUp.tsx:179-181 and 206-223).
 */
module Units {
  import opened Wrappers
  import opened Configuration
  import opened Content

  /** One unit per code point of `s`, in order: the spread `[...children]`. */
  function Chars(s: string): (units: seq<Node>)
    ensures |units| == |s|
    ensures forall i :: 0 <= i < |s| ==> units[i] == Text([s[i]])
    decreases |s|
  {
    if |s| == 0 then [] else [Text([s[0]])] + Chars(s[1..])
  }

  /**
   * The units of a line: a string splits into its code points; any other
   * content is its list of children, each one an opaque unit.
   */
  function SplitUnits(c: Children): seq<Node> {
    match c
    case Single(Text(s)) => Chars(s)
    case Single(n) => [n]
    case Many(ns) => ns
  }

  /** The text the units spell, reading non-string units as empty. */
  function Spell(units: seq<Node>): string
    decreases |units|
  {
    if |units| == 0 then ""
    else (if units[0].Text? then units[0].s else "") + Spell(units[1..])
  }

  /** Splitting a string loses and reorders nothing: its units spell it back. */
  lemma {:induction false} CharsSpellBack(s: string)
    ensures Spell(Chars(s)) == s
    decreases |s|
  {
    if |s| > 0 {
      var units := Chars(s);
      assert units == [Text([s[0]])] + Chars(s[1..]);
      assert units[1..] == Chars(s[1..]);
      assert Spell(units) == [s[0]] + Spell(Chars(s[1..]));
      CharsSpellBack(s[1..]);
      assert [s[0]] + s[1..] == s;
    }
  }

  /** "café" is four units, the last one the single code point 'é'. */
  lemma ExampleCafe()
    ensures |SplitUnits(Single(Text("café")))| == 4
    ensures SplitUnits(Single(Text("café")))[3] == Text("é")
  {
  }

  /** JavaScript's `\s`: the characters the pattern `/^\s$/` accepts on its own. */
  predicate IsWhitespace(c: char) {
    c == ' ' || c == '\t' || c == '\n' || c == '\r' || c == '\U{B}' || c == '\U{C}'
    || c == '\U{A0}' || c == '\U{1680}' || ('\U{2000}' <= c <= '\U{200A}')
    || c == '\U{2028}' || c == '\U{2029}' || c == '\U{202F}' || c == '\U{205F}'
    || c == '\U{3000}' || c == '\U{FEFF}'
  }

  /** A unit that is a string of exactly one whitespace character. */
  predicate IsSpaceUnit(u: Node) {
    u.Text? && |u.s| == 1 && IsWhitespace(u.s[0])
  }

  /** What one `spaceWidth` option offers for the character `ch`, if it is defined. */
  function Offered(sw: SpaceWidth, ch: string): Option<Css> {
    match sw
    case Unset => None
    case Width(w) => Some(w)
    case WidthFn(f) => Some(f(ch))
  }

  /**
   * The width given to a unit: only a single whitespace string gets one, and
   * the item's own option wins over the one from the context.
   */
  function ResolveSpaceWidth(u: Node, own: SpaceWidth, inherited: SpaceWidth): (w: Option<Css>)
    ensures w.Some? ==> IsSpaceUnit(u)
    ensures IsSpaceUnit(u) && !own.Unset? ==> w == Offered(own, u.s)
    ensures IsSpaceUnit(u) && own.Unset? ==> w == Offered(inherited, u.s)
  {
    if u.Text? && |u.s| == 1 && IsWhitespace(u.s[0]) then
      if own.WidthFn? then Some(own.f(u.s))
      else if !own.Unset? then Some(own.w)
      else if inherited.WidthFn? then Some(inherited.f(u.s))
      else if !inherited.Unset? then Some(inherited.w)
      else None
    else None
  }

  /** The width override of every unit of an item rendered under `ctx`, by unit index. */
  function Widths(item: ItemElement, ctx: Context): (ws: seq<Option<Css>>)
    ensures |ws| == |SplitUnits(item.children)|
  {
    var units := SplitUnits(item.children);
    seq(|units|, i requires 0 <= i < |units| => ResolveSpaceWidth(units[i], item.spaceWidth, ctx.spaceWidth))
  }

  /** Item "1em" over context "2em" gives "1em"; the context alone gives "2em"; a letter gets nothing. */
  lemma ExampleSpacePrecedence()
    ensures ResolveSpaceWidth(Text(" "), Width("1em"), Width("2em")) == Some("1em")
    ensures ResolveSpaceWidth(Text(" "), Unset, Width("2em")) == Some("2em")
    ensures ResolveSpaceWidth(Text("a"), Width("1em"), Width("2em")) == None
  {
  }
}
