/**
 * The `LiftUp` component as a whole (src/LiftUp.tsx:62-131): its lines, each
 * paired with the context published around it, and what that means for the
 * delay of every unit.
 */
module LiftUp {
  import opened Wrappers
  import opened Configuration
  import opened Content
  import opened Grouping
  import opened Units
  import opened Animator

  /** One rendered line: the item and the context its provider publishes. */
  datatype Line = Line(item: ItemElement, context: Context)

  /** The lines of `LiftUp`, line `j` under the context for index `j`. */
  function Render(p: Props, children: seq<Fragment>): (lines: seq<Line>)
    ensures |lines| == |Lines(children)|
    ensures forall j :: 0 <= j < |lines| ==> lines[j].item == Lines(children)[j] && lines[j].context == LineContext(p, j)
  {
    var items := Lines(children);
    seq(|items|, j requires 0 <= j < |items| => Line(items[j], LineContext(p, j)))
  }

  /**
   * Unit `i` of line `j` is delayed by the char policy at `i` plus the line
   * policy at `j`; with the defaults that is `35 * i + 100 * j`.
   */
  lemma UnitDelayOnLine(p: Props, children: seq<Fragment>, j: nat, i: nat)
    requires j < |Render(p, children)|
    ensures var ctx := Render(p, children)[j].context;
            UnitDelay(ctx.charDelay, i, ctx.lineDelay) == DelayAt(CharDelayOf(p), i) + DelayAt(LineDelayOf(p), j)
    ensures p == DefaultProps ==>
              var ctx := Render(p, children)[j].context;
              UnitDelay(ctx.charDelay, i, ctx.lineDelay) == 35 * i + 100 * j
  {
  }

  /** Every line `LiftUp` renders mounts: its context is wrapped, so the usage error never fires inside `LiftUp`. */
  lemma EveryLineIsWrapped(p: Props, children: seq<Fragment>, j: nat)
    requires j < |Render(p, children)|
    ensures Render(p, children)[j].context.wrapped
    ensures Render(p, children)[j].context.active <==> p.active == Some(true)
  {
  }

  /**
   * Under `LiftUp` every whitespace unit gets a width, and nothing else does:
   * the item's own option, else the `spaceWidth` given to `LiftUp`, else "0.2em".
   */
  lemma SpacesAlwaysSizedInside(p: Props, children: seq<Fragment>, j: nat, i: nat)
    requires j < |Render(p, children)|
    requires i < |SplitUnits(Render(p, children)[j].item.children)|
    ensures var line := Render(p, children)[j];
            Widths(line.item, line.context)[i].Some? <==> IsSpaceUnit(SplitUnits(line.item.children)[i])
    ensures var line := Render(p, children)[j];
            var u := SplitUnits(line.item.children)[i];
            IsSpaceUnit(u) ==>
              Widths(line.item, line.context)[i] ==
                if !line.item.spaceWidth.Unset? then Offered(line.item.spaceWidth, u.s)
                else if !p.spaceWidth.Unset? then Offered(p.spaceWidth, u.s)
                else Some(DefaultSpaceWidth)
  {
  }

  /** `LiftUp` given "2em" sizes the space of a lone " " child with "2em"; given nothing, with "0.2em". */
  lemma ExampleLiftUpSpaceWidth(p: Props)
    requires p.spaceWidth == Width("2em")
    ensures Widths(Implicit(Single(Text(" "))), LineContext(p, 0)) == [Some("2em")]
    ensures Widths(Implicit(Single(Text(" "))), LineContext(DefaultProps, 0)) == [Some("0.2em")]
  {
    assert Chars(" ") == [Text(" ")];
  }

  /**
   * A lone string child becomes one implicit line whose units are the
   * string's code points, so it is revealed character by character.
   */
  lemma {:induction false} LoneStringRevealsByCharacter(p: Props, s: string)
    ensures |Render(p, [Bare(Text(s))])| == 1
    ensures Render(p, [Bare(Text(s))])[0].item == Implicit(Single(Text(s)))
    ensures SplitUnits(Render(p, [Bare(Text(s))])[0].item.children) == Chars(s)
  {
    BareRunIsOneLine([Bare(Text(s))]);
  }
}
