/**
 * The scroll-driven wallet stack of `WalletContainer`: each card's entry
 * window on the scroll progress, the clamped piecewise-linear targets for its
 * vertical offset, scale and opacity, its stacking order, the override for the
 * active card, and the one-slot selection toggled by tapping a card.
 *
 * Progress is a `real` in [0, 1]; every constant of the source is an exact
 * rational, so `real` arithmetic is exact here. The spring smoothing that the
 * source puts after the offset and scale targets is not modelled: the poses
 * below are the targets the springs chase.
 */
module WalletStack {
  import opened JsValues

  /** Offset of a card before its entry window opens. */
  const OffStageY: real := 1000.0
  /** Vertical gap between resting cards. */
  const RestGapY: real := 60.0
  /** Width of every entry window. */
  const WindowWidth: real := 0.4
  /** Width of the fade-in slice at the start of the entry window. */
  const FadeWidth: real := 0.1
  /** Stacking order of the active card. */
  const ActiveZIndex: int := 100

  /** A card's visual placement: the motion targets handed to the renderer. */
  datatype Pose = Pose(y: real, z: real, scale: real, opacity: real, zIndex: int)

  /**
   * A linear map from [lo, hi] onto [from, to], clamped outside the range:
   * the default behaviour of the transform the source applies to the progress.
   */
  function Interpolate(p: real, lo: real, hi: real, from: real, to: real): (r: real)
    requires lo < hi
    ensures p <= lo ==> r == from
    ensures p >= hi ==> r == to
    ensures from <= to ==> from <= r <= to
    ensures to <= from ==> to <= r <= from
    ensures lo < p < hi && from < to ==> from < r < to
    ensures lo < p < hi && to < from ==> to < r < from
    ensures lo <= p <= hi ==> (r - from) * (hi - lo) == (p - lo) * (to - from)
  {
    if p <= lo then from
    else if p >= hi then to
    else
      var t := (p - lo) / (hi - lo);
      assert 0.0 < t < 1.0 by { DivStrictlyBetween(p - lo, hi - lo); }
      MixBetween(from, to, t);
      assert Mul(t, to - from) * (hi - lo) == (p - lo) * (to - from) by {
        assert t * (hi - lo) == p - lo;
      }
      from + Mul(t, to - from)
  }

  lemma DivStrictlyBetween(a: real, b: real)
    requires 0.0 < a < b
    ensures 0.0 < a / b < 1.0
  {
    var q := a / b;
    assert q * b == a;
    if q >= 1.0 {
      ScaleBelow(1.0, q, b);
    }
  }

  /** The product of two reals as one term, so that bounds on it combine linearly. */
  function Mul(a: real, b: real): real {
    a * b
  }

  lemma ScaleBelow(t: real, u: real, c: real)
    requires t <= u && 0.0 <= c
    ensures Mul(t, c) <= Mul(u, c)
  {
    assert u * c - t * c == (u - t) * c;
  }

  /** A fraction of a non-negative amount lies between nothing and the whole amount. */
  lemma FractionOf(t: real, c: real)
    requires 0.0 <= t <= 1.0 && 0.0 <= c
    ensures 0.0 <= Mul(t, c) <= c
    ensures 0.0 < t < 1.0 && 0.0 < c ==> 0.0 < Mul(t, c) < c
  {
    assert c - t * c == (1.0 - t) * c;
  }

  /** A step of a fraction `t` from `from` towards `to` stays between the two. */
  lemma MixBetween(from: real, to: real, t: real)
    requires 0.0 <= t <= 1.0
    ensures from <= to ==> from <= from + Mul(t, to - from) <= to
    ensures to <= from ==> to <= from + Mul(t, to - from) <= from
    ensures 0.0 < t < 1.0 && from < to ==> from < from + Mul(t, to - from) < to
    ensures 0.0 < t < 1.0 && to < from ==> to < from + Mul(t, to - from) < from
  {
    if from <= to {
      FractionOf(t, to - from);
    }
    if to <= from {
      FractionOf(t, from - to);
      assert Mul(t, to - from) == -Mul(t, from - to);
    }
  }

  /** The clamped interpolation never decreases as the progress grows, for a rising range. */
  lemma InterpolateMonotone(p: real, q: real, lo: real, hi: real, from: real, to: real)
    requires lo < hi && p <= q && from <= to
    ensures Interpolate(p, lo, hi, from, to) <= Interpolate(q, lo, hi, from, to)
  {
    if lo < p && q < hi {
      var d := hi - lo;
      assert (p - lo) / d <= (q - lo) / d by {
        assert (q - lo) / d - (p - lo) / d == (q - p) / d;
      }
      ScaleBelow((p - lo) / d, (q - lo) / d, to - from);
    }
  }

  /** Start of card `index`'s entry window: half of its share of the progress. */
  function WindowStart(index: nat, total: nat): (s: real)
    requires index < total
    ensures 0.0 <= s < 0.5
    ensures s == 0.5 * index as real / total as real
  {
    var step := 1.0 / total as real;
    assert index as real * step < 1.0 by {
      assert index as real * step == index as real / total as real;
    }
    index as real * step * 0.5
  }

  /** End of card `index`'s entry window. */
  function WindowEnd(index: nat, total: nat): (e: real)
    requires index < total
    ensures e - WindowStart(index, total) == WindowWidth
    ensures WindowWidth <= e < 0.9
  {
    WindowStart(index, total) + WindowWidth
  }

  /** Consecutive cards' windows are staggered by half a share: starts strictly increase with the index. */
  lemma WindowsStaggered(index: nat, total: nat)
    requires index + 1 < total
    ensures WindowStart(index + 1, total) - WindowStart(index, total) == 0.5 / total as real
    ensures WindowStart(index, total) < WindowStart(index + 1, total)
    ensures WindowEnd(index, total) < WindowEnd(index + 1, total)
  {
    var n := total as real;
    calc {
      WindowStart(index + 1, total) - WindowStart(index, total);
      0.5 * (index as real + 1.0) / n - 0.5 * index as real / n;
      0.5 / n;
    }
  }

  /** Target vertical offset: 1000 before the window, `index`·60 after it. */
  function RawY(p: real, index: nat, total: nat): (y: real)
    requires index < total
    ensures p <= WindowStart(index, total) ==> y == OffStageY
    ensures p >= WindowEnd(index, total) ==> y == RestGapY * index as real
    ensures index <= 16 ==> RestGapY * index as real <= y <= OffStageY
    ensures index > 16 ==> OffStageY <= y <= RestGapY * index as real
  {
    Interpolate(p, WindowStart(index, total), WindowEnd(index, total), OffStageY, RestGapY * index as real)
  }

  /** Target scale: 0.9 before the window, 1 after it. */
  function RawScale(p: real, index: nat, total: nat): (s: real)
    requires index < total
    ensures p <= WindowStart(index, total) ==> s == 0.9
    ensures p >= WindowEnd(index, total) ==> s == 1.0
    ensures 0.9 <= s <= 1.0
  {
    Interpolate(p, WindowStart(index, total), WindowEnd(index, total), 0.9, 1.0)
  }

  /** Opacity: fades from 0 to 1 over the first tenth of progress after the window opens. */
  function Opacity(p: real, index: nat, total: nat): (o: real)
    requires index < total
    ensures p <= WindowStart(index, total) ==> o == 0.0
    ensures p >= WindowStart(index, total) + FadeWidth ==> o == 1.0
    ensures 0.0 <= o <= 1.0
  {
    var start := WindowStart(index, total);
    Interpolate(p, start, start + FadeWidth, 0.0, 1.0)
  }

  /** Stacking order: the active card at 100, the others ascending from 10 by index. */
  function ZIndex(index: nat, isActive: bool): (z: int)
    ensures isActive ==> z == ActiveZIndex
    ensures !isActive ==> z - index == 10
  {
    if isActive then ActiveZIndex else 10 + index
  }

  /** The pose of card `index` of `total` at progress `p`. */
  function CardPose(p: real, index: nat, total: nat, isActive: bool): (pose: Pose)
    requires index < total
    ensures pose.opacity == Opacity(p, index, total)
    ensures pose.zIndex == ZIndex(index, isActive)
    ensures isActive ==> pose.y == 0.0 && pose.z == 100.0 && pose.scale == 1.05
    ensures !isActive ==> pose.y == RawY(p, index, total) && pose.z == 40.0 * index as real
                          && pose.scale == RawScale(p, index, total)
  {
    Pose(
      if isActive then 0.0 else RawY(p, index, total),
      if isActive then 100.0 else index as real * 40.0,
      if isActive then 1.05 else RawScale(p, index, total),
      Opacity(p, index, total),
      ZIndex(index, isActive))
  }

  /** Before its window opens an inactive card is off stage: low, small and invisible. */
  lemma OffStageBeforeWindow(p: real, index: nat, total: nat)
    requires index < total && p <= WindowStart(index, total)
    ensures CardPose(p, index, total, false)
            == Pose(OffStageY, 40.0 * index as real, 0.9, 0.0, 10 + index)
  {
  }

  /** After its window closes an inactive card rests in its slot, full size and fully visible. */
  lemma AtRestAfterWindow(p: real, index: nat, total: nat)
    requires index < total && p >= WindowEnd(index, total)
    ensures CardPose(p, index, total, false)
            == Pose(RestGapY * index as real, 40.0 * index as real, 1.0, 1.0, 10 + index)
  {
  }

  /**
   * The fade-in finishes strictly inside the entry window: a card is fully
   * visible at progress where its offset and scale are still on their way.
   */
  lemma OpaqueBeforeRest(p: real, index: nat, total: nat)
    requires index < total
    requires WindowStart(index, total) + FadeWidth <= p < WindowEnd(index, total)
    ensures Opacity(p, index, total) == 1.0
    ensures RawScale(p, index, total) < 1.0
    ensures index <= 16 ==> RestGapY * index as real < RawY(p, index, total)
  {
  }

  /** The whole stack at progress `p` with selection `active`, one pose per card in card order. */
  function Layout(p: real, total: nat, active: Option<nat>): (poses: seq<Pose>)
    ensures |poses| == total
    ensures forall i :: 0 <= i < total ==> poses[i] == CardPose(p, i, total, active == Some(i))
  {
    seq(total, i requires 0 <= i < total => CardPose(p, i, total, active == Some(i)))
  }

  /**
   * Stacking in a layout: inactive cards are strictly ascending by index,
   * and as long as there are at most 90 cards (the wallet shows six) the
   * active card is above every other card.
   */
  lemma {:induction false} LayoutStacking(p: real, total: nat, active: Option<nat>)
    ensures forall i, j :: 0 <= i < j < total && active != Some(i) && active != Some(j)
              ==> Layout(p, total, active)[i].zIndex < Layout(p, total, active)[j].zIndex
    ensures total <= 90 ==>
              forall i, j :: 0 <= i < total && 0 <= j < total && i != j && active == Some(i)
                ==> Layout(p, total, active)[j].zIndex < Layout(p, total, active)[i].zIndex
  {
    var poses := Layout(p, total, active);
    if total <= 90 {
      forall i, j | 0 <= i < total && 0 <= j < total && i != j && active == Some(i)
        ensures poses[j].zIndex < poses[i].zIndex
      {
        assert poses[j].zIndex == 10 + j;
      }
    }
  }

  /**
   * At most one card of a layout is pinned at the active scale 1.05: an
   * inactive card's scale never leaves [0.9, 1].
   */
  lemma AtMostOneActive(p: real, total: nat, active: Option<nat>)
    ensures |set i | 0 <= i < total && Layout(p, total, active)[i].scale == 1.05| <= 1
  {
    var poses := Layout(p, total, active);
    var pinned := set i | 0 <= i < total && poses[i].scale == 1.05;
    if active.Some? && active.value < total {
      forall i | 0 <= i < total && poses[i].scale == 1.05
        ensures i == active.value
      {
      }
      assert poses[active.value].scale == 1.05;
      assert pinned == {active.value};
    } else {
      forall i | 0 <= i < total
        ensures poses[i].scale != 1.05
      {
        assert poses[i].scale == RawScale(p, i, total);
      }
      assert pinned == {};
    }
  }

  /** The selection after tapping card `index`: tapping the selected card clears the selection. */
  function Toggle(selection: Option<nat>, index: nat): (r: Option<nat>)
    ensures r == None <==> selection == Some(index)
    ensures r != None ==> r == Some(index)
  {
    if selection == Some(index) then None else Some(index)
  }

  /** Tapping the same card twice from no selection returns to no selection. */
  lemma TapTwiceClears(index: nat)
    ensures Toggle(Toggle(None, index), index) == None
  {
  }

  /** The wallet screen: the card count and the selected card. */
  class WalletContainer {
    const total: nat
    var activeIndex: Option<nat>

    ghost predicate Valid()
      reads this
    {
      activeIndex.Some? ==> activeIndex.value < total
    }

    constructor (total: nat)
      ensures Valid()
      ensures this.total == total && activeIndex == None
    {
      this.total := total;
      activeIndex := None;
    }

    /** Whether card `index` is the active card. */
    predicate IsActive(index: nat)
      reads this
    {
      activeIndex == Some(index)
    }

    /** Tap on card `index`. */
    method HandleCardClick(index: nat)
      requires Valid() && index < total
      modifies this
      ensures Valid()
      ensures activeIndex == Toggle(old(activeIndex), index)
      ensures old(IsActive(index)) ==> forall i :: !IsActive(i)
      ensures !old(IsActive(index)) ==> IsActive(index) && forall i :: IsActive(i) ==> i == index
    {
      activeIndex := if activeIndex == Some(index) then None else Some(index);
    }
  }
}
