/**
 * One `LiftUp.Item` at run time (src/LiftUp.tsx:159-204): it refuses to run
 * outside `LiftUp`, creates one spring per unit parked at the hidden offset,
 * and on every change of `active` or of its delays submits one
 * (target, delay) command per unit to the spring engine.
 */
module Animator {
  import opened Wrappers
  import opened Configuration
  import opened Content
  import opened Units

  /** The vertical offset a unit animates to: "0%" shows it, "100%" hides it below its clip box. */
  datatype Offset = Visible | Hidden

  /** What `api.start` submits for one unit. */
  datatype Command = Command(target: Offset, delay: int)

  /** One unit's spring: the offset it heads for, the delay of the last command, its curve. */
  datatype Spring = Spring(goal: Offset, lastDelay: Option<int>, config: SpringConfig)

  /** The single error the component raises: "LiftUpItem must be wrapped in a LiftUp component." */
  datatype UsageError = NotWrapped

  /** Where every unit heads for a given `active`. */
  function Target(active: bool): (o: Offset)
    ensures o == Visible <==> active
  {
    if active then Visible else Hidden
  }

  /** The delay of unit `i` on a line whose context carries `lineDelay`. */
  function UnitDelay(charDelay: IndexDelay, i: nat, lineDelay: int): int {
    DelayAt(charDelay, i) + lineDelay
  }

  /** The item's curve: its own, else the context's, else the engine default. */
  function EffectiveCurve(own: Option<SpringConfig>, inherited: Option<SpringConfig>): (cfg: SpringConfig)
    ensures own.Some? ==> cfg == own.value
    ensures own.None? && inherited.Some? ==> cfg == inherited.value
    ensures own.None? && inherited.None? ==> cfg == EngineDefault
  {
    own.GetOr(inherited.GetOr(EngineDefault))
  }

  /** The commands of one effect run over `n` units, unit 0 first. */
  function Commands(active: bool, charDelay: IndexDelay, lineDelay: int, n: nat): (cs: seq<Command>)
    ensures |cs| == n
    decreases n
  {
    if n == 0 then []
    else Commands(active, charDelay, lineDelay, n - 1) + [Command(Target(active), UnitDelay(charDelay, n - 1, lineDelay))]
  }

  /** Unit `i` gets exactly the command for its own index. */
  lemma {:induction false} CommandAt(active: bool, charDelay: IndexDelay, lineDelay: int, n: nat, i: nat)
    requires i < n
    ensures Commands(active, charDelay, lineDelay, n)[i] == Command(Target(active), UnitDelay(charDelay, i, lineDelay))
    decreases n
  {
    if i < n - 1 {
      CommandAt(active, charDelay, lineDelay, n - 1, i);
    }
  }

  /** Showing and hiding submit the same delays, so toggling back and forth repeats them exactly. */
  lemma DelaysIgnoreDirection(charDelay: IndexDelay, lineDelay: int, n: nat, i: nat)
    requires i < n
    ensures Commands(true, charDelay, lineDelay, n)[i].delay == Commands(false, charDelay, lineDelay, n)[i].delay
    ensures Commands(true, charDelay, lineDelay, n)[i].target == Visible
    ensures Commands(false, charDelay, lineDelay, n)[i].target == Hidden
  {
    CommandAt(true, charDelay, lineDelay, n, i);
    CommandAt(false, charDelay, lineDelay, n, i);
  }

  /** The line's offset shifts every unit by the same amount, so it never reorders units within a line. */
  lemma LineOffsetKeepsOrder(charDelay: IndexDelay, i: nat, k: nat, line1: int, line2: int)
    ensures UnitDelay(charDelay, i, line2) - UnitDelay(charDelay, i, line1) == line2 - line1
    ensures UnitDelay(charDelay, i, line1) <= UnitDelay(charDelay, k, line1)
        <==> UnitDelay(charDelay, i, line2) <= UnitDelay(charDelay, k, line2)
  {
  }

  /** A constant, non-negative `charDelay` reveals units strictly in index order when it is positive. */
  lemma ConstStaggerIsOrdered(step: int, i: nat, k: nat, lineDelay: int)
    requires 0 <= step && i <= k
    ensures UnitDelay(Const(step), i, lineDelay) <= UnitDelay(Const(step), k, lineDelay)
    ensures 0 < step && i < k ==> UnitDelay(Const(step), i, lineDelay) < UnitDelay(Const(step), k, lineDelay)
  {
    assert k * step == i * step + (k - i) * step;
    assert 0 < step && i < k ==> (k - i) * step > 0;
  }

  /** The state of one mounted `LiftUp.Item`. */
  class LineAnimator {
    /** The units, fixed when the item mounts. */
    const units: seq<Node>
    /** One spring per unit, addressed by unit index. */
    const springs: array<Spring>
    /** The latest `active`, `charDelay` and `lineDelay` the effect ran with. */
    var active: bool
    var charDelay: IndexDelay
    var lineDelay: int

    ghost predicate Valid()
      reads this
    {
      springs.Length == |units|
    }

    /** Render of a fresh item: one spring per unit, every one parked hidden whatever `active` is. */
    constructor (item: ItemElement, ctx: Context)
      ensures Valid() && fresh(springs)
      ensures units == SplitUnits(item.children)
      ensures active == ctx.active && charDelay == ctx.charDelay && lineDelay == ctx.lineDelay
      ensures forall k :: 0 <= k < springs.Length ==>
                springs[k] == Spring(Hidden, None, EffectiveCurve(item.springConfig, ctx.springConfig))
    {
      var cfg := EffectiveCurve(item.springConfig, ctx.springConfig);
      units := SplitUnits(item.children);
      springs := new Spring[|SplitUnits(item.children)|](_ => Spring(Hidden, None, cfg));
      active := ctx.active;
      charDelay := ctx.charDelay;
      lineDelay := ctx.lineDelay;
    }

    /** The effect: submit to every unit, in index order, its target and delay; curves are kept. */
    method StartAll() returns (batch: seq<Command>)
      requires Valid()
      modifies springs
      ensures batch == Commands(active, charDelay, lineDelay, springs.Length)
      ensures forall k :: 0 <= k < springs.Length ==>
                springs[k] == Spring(batch[k].target, Some(batch[k].delay), old(springs[k]).config)
    {
      batch := [];
      var i := 0;
      while i < springs.Length
        invariant 0 <= i <= springs.Length
        invariant batch == Commands(active, charDelay, lineDelay, i)
        invariant forall k :: 0 <= k < i ==>
                    springs[k] == Spring(batch[k].target, Some(batch[k].delay), old(springs[k]).config)
        invariant forall k :: i <= k < springs.Length ==> springs[k] == old(springs[k])
      {
        var c := Command(Target(active), UnitDelay(charDelay, i, lineDelay));
        springs[i] := Spring(c.target, Some(c.delay), springs[i].config);
        batch := batch + [c];
        i := i + 1;
      }
    }

    /** A new `active` from the context: every unit heads for the matching offset. */
    method SetActive(a: bool) returns (batch: seq<Command>)
      requires Valid()
      modifies this, springs
      ensures Valid() && active == a
      ensures charDelay == old(charDelay) && lineDelay == old(lineDelay)
      ensures batch == Commands(a, charDelay, lineDelay, |units|)
      ensures forall k :: 0 <= k < springs.Length ==>
                springs[k] == Spring(Target(a), Some(UnitDelay(charDelay, k, lineDelay)), old(springs[k]).config)
    {
      active := a;
      batch := StartAll();
      forall k | 0 <= k < springs.Length
        ensures springs[k] == Spring(Target(a), Some(UnitDelay(charDelay, k, lineDelay)), old(springs[k]).config)
      {
        CommandAt(a, charDelay, lineDelay, springs.Length, k);
      }
    }

    /** New delays from the context: every unit is resubmitted its current target with the new delay. */
    method SetTiming(cd: IndexDelay, ld: int) returns (batch: seq<Command>)
      requires Valid()
      modifies this, springs
      ensures Valid() && active == old(active)
      ensures charDelay == cd && lineDelay == ld
      ensures batch == Commands(active, cd, ld, |units|)
      ensures forall k :: 0 <= k < springs.Length ==>
                springs[k] == Spring(Target(active), Some(UnitDelay(cd, k, ld)), old(springs[k]).config)
    {
      charDelay, lineDelay := cd, ld;
      batch := StartAll();
      forall k | 0 <= k < springs.Length
        ensures springs[k] == Spring(Target(active), Some(UnitDelay(cd, k, ld)), old(springs[k]).config)
      {
        CommandAt(active, cd, ld, springs.Length, k);
      }
    }
  }

  /**
   * Mounting an item under `ctx`: outside `LiftUp` it fails before any spring
   * exists; otherwise the springs start hidden and the first effect run sends
   * every unit towards the target for `ctx.active` with its full delay.
   */
  method Mount(item: ItemElement, ctx: Context) returns (r: Result<LineAnimator, UsageError>, first: seq<Command>)
    ensures r.Failure? <==> !ctx.wrapped
    ensures r.Failure? ==> r.error == NotWrapped && first == []
    ensures r.Success? ==>
              fresh(r.value) && fresh(r.value.springs) && r.value.Valid()
              && r.value.units == SplitUnits(item.children)
              && r.value.active == ctx.active && r.value.charDelay == ctx.charDelay
              && r.value.lineDelay == ctx.lineDelay
              && first == Commands(ctx.active, ctx.charDelay, ctx.lineDelay, |r.value.units|)
    ensures r.Success? ==>
              forall k :: 0 <= k < r.value.springs.Length ==>
                r.value.springs[k] == Spring(Target(ctx.active), Some(UnitDelay(ctx.charDelay, k, ctx.lineDelay)),
                                             EffectiveCurve(item.springConfig, ctx.springConfig))
  {
    if !ctx.wrapped {
      return Failure(NotWrapped), [];
    }
    var a := new LineAnimator(item, ctx);
    first := a.SetActive(ctx.active);
    r := Success(a);
  }

  /** Toggling `active` true, false, true reissues, every time, the delays the context gave at mount. */
  method ToggleScenario(item: ItemElement, ctx: Context)
    requires ctx.wrapped
  {
    var r, first := Mount(item, ctx);
    var a := r.value;
    var shown := a.SetActive(true);
    var hidden := a.SetActive(false);
    var again := a.SetActive(true);
    assert shown == again == Commands(true, ctx.charDelay, ctx.lineDelay, |a.units|);
    assert hidden == Commands(false, ctx.charDelay, ctx.lineDelay, |a.units|);
    forall k | 0 <= k < |shown|
      ensures shown[k].delay == hidden[k].delay && shown[k].target == Visible && hidden[k].target == Hidden
    {
      DelaysIgnoreDirection(ctx.charDelay, ctx.lineDelay, |a.units|, k);
    }
  }

  /** An item rendered without `LiftUp` sees the context's default value, which is not wrapped, so it fails. */
  method MountStandalone(item: ItemElement) returns (r: Result<LineAnimator, UsageError>, first: seq<Command>)
    ensures r == Failure(NotWrapped) && first == []
  {
    r, first := Mount(item, DefaultContext);
  }
}
