/**
 * The full-screen card page: a flip/zoom reveal driven by delayed callbacks.
 *
 * The page holds an animation state (`idle`, `flipping`, `flipped`,
 * `resetting`) and a zoom flag. Tapping the card back schedules a zoom-in
 * after 900 ms and the `flipped` state after 1200 ms; flipping back clears the
 * zoom at once and schedules `resetting` after 300 ms, whose callback in turn
 * schedules `idle` 1200 ms later. Neither handler looks at the current state
 * and no callback is ever cancelled.
 *
 * Time is a natural number of milliseconds. The browser's timer list is a
 * queue of pending callbacks ordered by due time; a callback scheduled later
 * is queued after every callback due at the same time or earlier, so callbacks
 * due together run in the order they were scheduled. Each callback runs at
 * exactly its due time.
 */
module CardReveal {

  const ZoomInDelay: nat := 900
  const FlipDuration: nat := 1200
  const ZoomOutDelay: nat := 300

  datatype AnimState = Idle | Flipping | Flipped | Resetting

  /** The body of a pending callback. */
  datatype Action =
    | ZoomIn          // zoom flag on
    | EnterFlipped    // state `flipped`
    | EnterResetting  // state `resetting`, then schedule EnterIdle
    | EnterIdle       // state `idle`

  datatype Timer = Timer(fireAt: nat, action: Action)

  /** Everything the page holds: its two state variables, the clock and the pending callbacks. */
  datatype Screen = Screen(anim: AnimState, zoomed: bool, now: nat, pending: seq<Timer>)

  const Initial: Screen := Screen(Idle, false, 0, [])

  predicate Sorted(q: seq<Timer>) {
    forall i, j :: 0 <= i < j < |q| ==> q[i].fireAt <= q[j].fireAt
  }

  /** Pending callbacks are ordered by due time and none is overdue. */
  predicate WellFormed(s: Screen) {
    Sorted(s.pending) && forall i :: 0 <= i < |s.pending| ==> s.now <= s.pending[i].fireAt
  }

  /** Where a callback due at `at` joins the queue: after every leading callback due no later. */
  function SlotFor(q: seq<Timer>, at: nat): (k: nat)
    ensures k <= |q|
    ensures forall i :: 0 <= i < k ==> q[i].fireAt <= at
    ensures k < |q| ==> at < q[k].fireAt
  {
    if q == [] || at < q[0].fireAt then 0 else 1 + SlotFor(q[1..], at)
  }

  /** The queue `q` with `tm` inserted at position `k`, read element by element. */
  lemma InsertAt(q: seq<Timer>, k: nat, tm: Timer)
    requires k <= |q|
    ensures |q[..k] + [tm] + q[k..]| == |q| + 1
    ensures forall i :: 0 <= i < k ==> (q[..k] + [tm] + q[k..])[i] == q[i]
    ensures (q[..k] + [tm] + q[k..])[k] == tm
    ensures forall i :: k < i <= |q| ==> (q[..k] + [tm] + q[k..])[i] == q[i - 1]
  {
  }

  /** Inserting at the slot a sorted queue leaves for `tm` keeps it sorted. */
  lemma InsertKeepsSorted(q: seq<Timer>, k: nat, tm: Timer)
    requires Sorted(q) && k <= |q|
    requires forall i :: 0 <= i < k ==> q[i].fireAt <= tm.fireAt
    requires k < |q| ==> tm.fireAt < q[k].fireAt
    ensures Sorted(q[..k] + [tm] + q[k..])
  {
    var r := q[..k] + [tm] + q[k..];
    InsertAt(q, k, tm);
    forall i, j | 0 <= i < j < |r| ensures r[i].fireAt <= r[j].fireAt {
      if k < i {
        assert r[i] == q[i - 1] && r[j] == q[j - 1];
      } else if k == i {
        assert q[k].fireAt <= q[j - 1].fireAt;
      } else if k < j {
        assert r[j] == q[j - 1];
      }
    }
  }

  /** `setTimeout`: queue a callback behind every callback due no later than it. */
  function Schedule(q: seq<Timer>, tm: Timer): (r: seq<Timer>)
    ensures |r| == |q| + 1
  {
    var k := SlotFor(q, tm.fireAt);
    q[..k] + [tm] + q[k..]
  }

  /** Scheduling into an ordered queue keeps it ordered. */
  lemma ScheduleKeepsSorted(q: seq<Timer>, tm: Timer)
    requires Sorted(q)
    ensures Sorted(Schedule(q, tm))
  {
    InsertKeepsSorted(q, SlotFor(q, tm.fireAt), tm);
  }

  /**
   * Callbacks due at the same time run in the order they were scheduled: the
   * new callback lands after every queued callback due no later than it and,
   * in an ordered queue, before every callback due later; the queue is
   * otherwise unchanged.
   */
  lemma ScheduleAfterEqualDue(q: seq<Timer>, tm: Timer)
    ensures var k := SlotFor(q, tm.fireAt);
      && Schedule(q, tm)[..k] == q[..k]
      && Schedule(q, tm)[k] == tm
      && Schedule(q, tm)[k + 1..] == q[k..]
      && (forall i :: 0 <= i < k ==> q[i].fireAt <= tm.fireAt)
      && (Sorted(q) ==> forall i :: k <= i < |q| ==> tm.fireAt < q[i].fireAt)
  {
    var k := SlotFor(q, tm.fireAt);
    var r := Schedule(q, tm);
    assert r == q[..k] + [tm] + q[k..];
    assert r[..k] == q[..k];
    assert r[k + 1..] == q[k..];
    if Sorted(q) {
      forall i | k <= i < |q| ensures tm.fireAt < q[i].fireAt {
        assert q[k].fireAt <= q[i].fireAt;
      }
    }
  }

  /** Scheduling adds exactly the new callback and loses none. */
  lemma SchedulePermutes(q: seq<Timer>, tm: Timer)
    ensures multiset(Schedule(q, tm)) == multiset(q) + multiset{tm}
  {
    var k := SlotFor(q, tm.fireAt);
    assert Schedule(q, tm) == q[..k] + [tm] + q[k..];
    assert q == q[..k] + q[k..];
  }

  /** A callback due no earlier than everything queued goes to the back. */
  lemma {:induction false} ScheduleAtBack(q: seq<Timer>, tm: Timer)
    requires forall i :: 0 <= i < |q| ==> q[i].fireAt <= tm.fireAt
    ensures Schedule(q, tm) == q + [tm]
  {
    SlotAtEnd(q, tm.fireAt);
    assert q[..|q|] == q;
  }

  lemma {:induction false} SlotAtEnd(q: seq<Timer>, at: nat)
    requires forall i :: 0 <= i < |q| ==> q[i].fireAt <= at
    ensures SlotFor(q, at) == |q|
  {
    if q != [] {
      SlotAtEnd(q[1..], at);
    }
  }

  /** A callback due before the head of the queue goes to the front. */
  lemma ScheduleAtFront(q: seq<Timer>, tm: Timer)
    requires q == [] || tm.fireAt < q[0].fireAt
    ensures Schedule(q, tm) == [tm] + q
  {
    assert SlotFor(q, tm.fireAt) == 0;
  }

  /** Queuing a callback due no earlier than `lo` keeps every pending callback due no earlier than `lo`. */
  lemma ScheduleNotBefore(q: seq<Timer>, tm: Timer, lo: nat)
    requires lo <= tm.fireAt && forall i :: 0 <= i < |q| ==> lo <= q[i].fireAt
    ensures forall i :: 0 <= i < |Schedule(q, tm)| ==> lo <= Schedule(q, tm)[i].fireAt
  {
    var k := SlotFor(q, tm.fireAt);
    var r := Schedule(q, tm);
    InsertAt(q, k, tm);
    assert r == q[..k] + [tm] + q[k..];
    forall i | k < i < |r| ensures lo <= r[i].fireAt {
      assert r[i] == q[i - 1];
    }
  }

  /** Cost of a callback for termination: `resetting` schedules one more callback. */
  function ActionWeight(a: Action): nat {
    if a == EnterResetting then 2 else 1
  }

  function Weight(q: seq<Timer>): nat {
    if q == [] then 0 else ActionWeight(q[0].action) + Weight(q[1..])
  }

  lemma {:induction false} WeightAppend(a: seq<Timer>, b: seq<Timer>)
    ensures Weight(a + b) == Weight(a) + Weight(b)
  {
    if a != [] {
      assert (a + b)[1..] == a[1..] + b;
      WeightAppend(a[1..], b);
    } else {
      assert a + b == b;
    }
  }

  lemma WeightSchedule(q: seq<Timer>, tm: Timer)
    ensures Weight(Schedule(q, tm)) == Weight(q) + ActionWeight(tm.action)
  {
    var k := SlotFor(q, tm.fireAt);
    assert Schedule(q, tm) == q[..k] + [tm] + q[k..];
    WeightAppend(q[..k] + [tm], q[k..]);
    WeightAppend(q[..k], [tm]);
    WeightAppend(q[..k], q[k..]);
    assert q == q[..k] + q[k..];
  }

  /** Run one callback at its due time, on a screen whose queue no longer holds it. */
  function Fire(s: Screen, tm: Timer): (r: Screen)
    requires WellFormed(s) && s.now <= tm.fireAt
    requires forall i :: 0 <= i < |s.pending| ==> tm.fireAt <= s.pending[i].fireAt
    ensures WellFormed(r) && r.now == tm.fireAt
    ensures Weight(r.pending) + 1 == Weight(s.pending) + ActionWeight(tm.action)
    ensures r.zoomed == (s.zoomed || tm.action == ZoomIn)
    ensures tm.action != EnterResetting ==> r.pending == s.pending
    ensures tm.action == EnterResetting ==>
      r.anim == Resetting && r.pending == Schedule(s.pending, Timer(tm.fireAt + FlipDuration, EnterIdle))
  {
    match tm.action
    case ZoomIn => s.(now := tm.fireAt, zoomed := true)
    case EnterFlipped => s.(now := tm.fireAt, anim := Flipped)
    case EnterIdle => s.(now := tm.fireAt, anim := Idle)
    case EnterResetting =>
      var next := Timer(tm.fireAt + FlipDuration, EnterIdle);
      var q := Schedule(s.pending, next);
      WeightSchedule(s.pending, next);
      ScheduleKeepsSorted(s.pending, next);
      ScheduleNotBefore(s.pending, next, tm.fireAt);
      s.(now := tm.fireAt, anim := Resetting, pending := q)
  }

  /** Run the first pending callback. */
  function Step(s: Screen): (r: Screen)
    requires WellFormed(s) && s.pending != []
    ensures WellFormed(r) && r.now == s.pending[0].fireAt
    ensures Weight(r.pending) < Weight(s.pending)
  {
    assert forall i :: 1 <= i < |s.pending| ==> s.pending[0].fireAt <= s.pending[i].fireAt;
    Fire(s.(pending := s.pending[1..]), s.pending[0])
  }

  /**
   * Let the clock run to `t`: every callback due by `t` runs in queue order,
   * including callbacks that those callbacks schedule.
   */
  function RunUntil(s: Screen, t: nat): (r: Screen)
    requires WellFormed(s) && s.now <= t
    ensures WellFormed(r) && r.now == t
    ensures forall i :: 0 <= i < |r.pending| ==> t < r.pending[i].fireAt
    decreases Weight(s.pending)
  {
    if s.pending != [] && s.pending[0].fireAt <= t then
      RunUntil(Step(s), t)
    else
      assert forall i :: 0 <= i < |s.pending| ==> s.pending[0].fireAt <= s.pending[i].fireAt;
      s.(now := t)
  }

  /** Letting the clock run in two stretches is the same as letting it run once. */
  lemma {:induction false} RunUntilSplit(s: Screen, t1: nat, t2: nat)
    requires WellFormed(s) && s.now <= t1 <= t2
    ensures RunUntil(RunUntil(s, t1), t2) == RunUntil(s, t2)
    decreases Weight(s.pending)
  {
    if s.pending != [] && s.pending[0].fireAt <= t1 {
      RunUntilSplit(Step(s), t1, t2);
    } else if s.pending != [] && s.pending[0].fireAt <= t2 {
      var mid := s.(now := t1);
      assert Step(mid) == Step(s);
    }
  }

  /** One step of letting the clock run: the first callback is due. */
  lemma RunUntilFires(s: Screen, t: nat)
    requires WellFormed(s) && s.now <= t && s.pending != [] && s.pending[0].fireAt <= t
    ensures RunUntil(s, t) == RunUntil(Step(s), t)
  {
  }

  /** Letting the clock run when nothing falls due only moves the clock. */
  lemma RunUntilQuiet(s: Screen, t: nat)
    requires WellFormed(s) && s.now <= t && (s.pending == [] || t < s.pending[0].fireAt)
    ensures RunUntil(s, t) == s.(now := t)
  {
  }

  /** What running a due zoom-in callback does. */
  lemma StepZoomIn(s: Screen)
    requires WellFormed(s) && s.pending != [] && s.pending[0].action == ZoomIn
    ensures Step(s) == s.(now := s.pending[0].fireAt, zoomed := true, pending := s.pending[1..])
  {
  }

  /** What running a due `flipped` callback does. */
  lemma StepFlipped(s: Screen)
    requires WellFormed(s) && s.pending != [] && s.pending[0].action == EnterFlipped
    ensures Step(s) == s.(now := s.pending[0].fireAt, anim := Flipped, pending := s.pending[1..])
  {
  }

  /** What running a due `idle` callback does. */
  lemma StepIdle(s: Screen)
    requires WellFormed(s) && s.pending != [] && s.pending[0].action == EnterIdle
    ensures Step(s) == s.(now := s.pending[0].fireAt, anim := Idle, pending := s.pending[1..])
  {
  }

  /** What running a due `resetting` callback does: it also queues the `idle` callback 1200 ms on. */
  lemma StepResetting(s: Screen)
    requires WellFormed(s) && s.pending != [] && s.pending[0].action == EnterResetting
    ensures Step(s) == s.(now := s.pending[0].fireAt, anim := Resetting,
                          pending := Schedule(s.pending[1..], Timer(s.pending[0].fireAt + FlipDuration, EnterIdle)))
  {
    var r := Step(s);
    assert r.pending == Schedule(s.pending[1..], Timer(s.pending[0].fireAt + FlipDuration, EnterIdle));
    assert r.anim == Resetting && r.zoomed == s.zoomed;
  }

  /** Tap on the card back: `flipping` now, zoom-in after 900 ms, `flipped` after 1200 ms. */
  function Reveal(s: Screen): (r: Screen)
    requires WellFormed(s)
    ensures WellFormed(r) && r.now == s.now
    ensures r.anim == Flipping && r.zoomed == s.zoomed
    ensures r.pending == Schedule(Schedule(s.pending, Timer(s.now + ZoomInDelay, ZoomIn)), Timer(s.now + FlipDuration, EnterFlipped))
  {
    var q1 := Schedule(s.pending, Timer(s.now + ZoomInDelay, ZoomIn));
    ScheduleKeepsSorted(s.pending, Timer(s.now + ZoomInDelay, ZoomIn));
    ScheduleNotBefore(s.pending, Timer(s.now + ZoomInDelay, ZoomIn), s.now);
    var q := Schedule(q1, Timer(s.now + FlipDuration, EnterFlipped));
    ScheduleKeepsSorted(q1, Timer(s.now + FlipDuration, EnterFlipped));
    ScheduleNotBefore(q1, Timer(s.now + FlipDuration, EnterFlipped), s.now);
    s.(anim := Flipping, pending := q)
  }

  /** Tap on the card front: zoom off now, `resetting` after 300 ms. */
  function FlipBack(s: Screen): (r: Screen)
    requires WellFormed(s)
    ensures WellFormed(r) && r.now == s.now
    ensures r.anim == s.anim && !r.zoomed
    ensures r.pending == Schedule(s.pending, Timer(s.now + ZoomOutDelay, EnterResetting))
  {
    var q := Schedule(s.pending, Timer(s.now + ZoomOutDelay, EnterResetting));
    ScheduleKeepsSorted(s.pending, Timer(s.now + ZoomOutDelay, EnterResetting));
    ScheduleNotBefore(s.pending, Timer(s.now + ZoomOutDelay, EnterResetting), s.now);
    s.(zoomed := false, pending := q)
  }

  /** A reveal from a quiet page at time t0: still flipping and unzoomed up to t0 + 899. */
  lemma RevealBeforeZoom(s: Screen)
    requires WellFormed(s) && s.pending == []
    ensures RunUntil(Reveal(s), s.now + ZoomInDelay - 1) == Reveal(s).(now := s.now + ZoomInDelay - 1)
  {
    RevealOnQuietPage(s);
    RunUntilQuiet(Reveal(s), s.now + ZoomInDelay - 1);
  }

  /** ... zoomed from t0 + 900, while the `flipped` callback is still pending. */
  lemma RevealZoomIn(s: Screen)
    requires WellFormed(s) && s.pending == []
    ensures RunUntil(Reveal(s), s.now + ZoomInDelay)
         == Screen(Flipping, true, s.now + ZoomInDelay, [Timer(s.now + FlipDuration, EnterFlipped)])
  {
    var a := Screen(Flipping, true, s.now + ZoomInDelay, [Timer(s.now + FlipDuration, EnterFlipped)]);
    RevealOnQuietPage(s);
    assert Step(Reveal(s)) == a;
    RunUntilFires(Reveal(s), s.now + ZoomInDelay);
    RunUntilQuiet(a, s.now + ZoomInDelay);
  }

  /** ... and `flipped`, zoomed, with nothing pending from t0 + 1200. */
  lemma RevealFlipped(s: Screen)
    requires WellFormed(s) && s.pending == []
    ensures RunUntil(Reveal(s), s.now + FlipDuration) == Screen(Flipped, true, s.now + FlipDuration, [])
  {
    var a := Screen(Flipping, true, s.now + ZoomInDelay, [Timer(s.now + FlipDuration, EnterFlipped)]);
    var b := Screen(Flipped, true, s.now + FlipDuration, []);
    RevealOnQuietPage(s);
    assert Step(Reveal(s)) == a;
    assert Step(a) == b;
    RunUntilFires(Reveal(s), s.now + FlipDuration);
    RunUntilFires(a, s.now + FlipDuration);
    RunUntilQuiet(b, s.now + FlipDuration);
  }

  /** On a page with nothing pending, a reveal queues the zoom-in and then the `flipped` callback. */
  lemma RevealOnQuietPage(s: Screen)
    requires WellFormed(s) && s.pending == []
    ensures Reveal(s)
      == Screen(Flipping, s.zoomed, s.now, [Timer(s.now + ZoomInDelay, ZoomIn), Timer(s.now + FlipDuration, EnterFlipped)])
  {
    var zoom, flip := Timer(s.now + ZoomInDelay, ZoomIn), Timer(s.now + FlipDuration, EnterFlipped);
    var r := Reveal(s);
    ScheduleTwoIntoEmpty(zoom, flip);
    assert r.pending == [zoom, flip];
    assert r.anim == Flipping && r.zoomed == s.zoomed && r.now == s.now;
  }

  /** Two callbacks scheduled into an empty queue, the earlier first, end up in that order. */
  lemma ScheduleTwoIntoEmpty(first: Timer, second: Timer)
    requires first.fireAt <= second.fireAt
    ensures Schedule(Schedule([], first), second) == [first, second]
  {
    ScheduleAtFront([], first);
    ScheduleAtBack([first], second);
  }

  /** A flip-back on a quiet page at time t0: unzoomed at once, state untouched up to t0 + 299. */
  lemma FlipBackBeforeReset(s: Screen)
    requires WellFormed(s) && s.pending == []
    ensures FlipBack(s) == Screen(s.anim, false, s.now, [Timer(s.now + ZoomOutDelay, EnterResetting)])
    ensures RunUntil(FlipBack(s), s.now + ZoomOutDelay - 1)
         == Screen(s.anim, false, s.now + ZoomOutDelay - 1, [Timer(s.now + ZoomOutDelay, EnterResetting)])
  {
    ScheduleAtFront([], Timer(s.now + ZoomOutDelay, EnterResetting));
    RunUntilQuiet(FlipBack(s), s.now + ZoomOutDelay - 1);
  }

  /** ... `resetting` from t0 + 300, with the `idle` callback queued for t0 + 1500. */
  lemma FlipBackResetting(s: Screen)
    requires WellFormed(s) && s.pending == []
    ensures RunUntil(FlipBack(s), s.now + ZoomOutDelay)
         == Screen(Resetting, false, s.now + ZoomOutDelay, [Timer(s.now + ZoomOutDelay + FlipDuration, EnterIdle)])
  {
    var a := Screen(Resetting, false, s.now + ZoomOutDelay, [Timer(s.now + ZoomOutDelay + FlipDuration, EnterIdle)]);
    FlipBackBeforeReset(s);
    ScheduleAtFront([], Timer(s.now + ZoomOutDelay + FlipDuration, EnterIdle));
    assert Step(FlipBack(s)) == a;
    RunUntilFires(FlipBack(s), s.now + ZoomOutDelay);
    RunUntilQuiet(a, s.now + ZoomOutDelay);
  }

  /** ... and `idle` with nothing pending from t0 + 1500. */
  lemma FlipBackIdle(s: Screen)
    requires WellFormed(s) && s.pending == []
    ensures RunUntil(FlipBack(s), s.now + ZoomOutDelay + FlipDuration)
         == Screen(Idle, false, s.now + ZoomOutDelay + FlipDuration, [])
  {
    var t := s.now + ZoomOutDelay + FlipDuration;
    var a := Screen(Resetting, false, s.now + ZoomOutDelay, [Timer(t, EnterIdle)]);
    var b := Screen(Idle, false, t, []);
    FlipBackBeforeReset(s);
    ScheduleAtFront([], Timer(t, EnterIdle));
    assert Step(FlipBack(s)) == a;
    assert Step(a) == b;
    RunUntilFires(FlipBack(s), t);
    RunUntilFires(a, t);
    RunUntilQuiet(b, t);
  }

  /** A reveal at 0 on a fresh page leaves it `flipped` and zoomed, with nothing pending, at 1200. */
  lemma RevealFromStart()
    ensures RunUntil(Reveal(Initial), 1200) == Screen(Flipped, true, 1200, [])
  {
    RevealFlipped(Initial);
  }

  /** The page after a reveal at 0 and a flip-back at 100, while still flipping. */
  function EarlyFlipBack(): (s: Screen)
    ensures WellFormed(s) && s.now == 100 && !s.zoomed
  {
    FlipBack(RunUntil(Reveal(Initial), 100))
  }

  /** At 100 a fresh page revealed at 0 is still flipping, with both reveal callbacks queued. */
  lemma RevealFromStartAt100()
    ensures RunUntil(Reveal(Initial), 100) == Screen(Flipping, false, 100, [Timer(900, ZoomIn), Timer(1200, EnterFlipped)])
  {
    RevealOnQuietPage(Initial);
    RunUntilQuiet(Reveal(Initial), 100);
  }

  /** An early flip-back leaves the reveal's zoom-in and `flipped` callbacks queued behind `resetting`. */
  lemma EarlyFlipBackQueue()
    ensures EarlyFlipBack()
         == Screen(Flipping, false, 100, [Timer(400, EnterResetting), Timer(900, ZoomIn), Timer(1200, EnterFlipped)])
  {
    RevealFromStartAt100();
    ScheduleAtFront([Timer(900, ZoomIn), Timer(1200, EnterFlipped)], Timer(400, EnterResetting));
  }

  /** At 400 the page starts resetting and queues `idle` for 1600, behind the stale callbacks. */
  lemma EarlyFlipBackResets()
    ensures Step(Screen(Flipping, false, 100, [Timer(400, EnterResetting), Timer(900, ZoomIn), Timer(1200, EnterFlipped)]))
         == Screen(Resetting, false, 400, [Timer(900, ZoomIn), Timer(1200, EnterFlipped), Timer(1600, EnterIdle)])
  {
    var zoom, flip := Timer(900, ZoomIn), Timer(1200, EnterFlipped);
    StepResetting(Screen(Flipping, false, 100, [Timer(400, EnterResetting), zoom, flip]));
    assert [Timer(400, EnterResetting), zoom, flip][1..] == [zoom, flip];
    ScheduleAtBack([zoom, flip], Timer(1600, EnterIdle));
  }

  /**
   * Flipping back while still flipping does not stop the reveal: the
   * `resetting` callback runs at 400, yet the stale zoom-in still runs at 900
   * and the stale `flipped` at 1200, and the page comes to rest `idle` but
   * zoomed at 1600.
   */
  lemma StaleTimersAfterEarlyFlipBack()
    ensures RunUntil(EarlyFlipBack(), 400) == Screen(Resetting, false, 400, [Timer(900, ZoomIn), Timer(1200, EnterFlipped), Timer(1600, EnterIdle)])
    ensures RunUntil(EarlyFlipBack(), 900) == Screen(Resetting, true, 900, [Timer(1200, EnterFlipped), Timer(1600, EnterIdle)])
    ensures RunUntil(EarlyFlipBack(), 1200) == Screen(Flipped, true, 1200, [Timer(1600, EnterIdle)])
    ensures RunUntil(EarlyFlipBack(), 1600) == Screen(Idle, true, 1600, [])
  {
    var zoom, flip, idle := Timer(900, ZoomIn), Timer(1200, EnterFlipped), Timer(1600, EnterIdle);
    var e := Screen(Flipping, false, 100, [Timer(400, EnterResetting), zoom, flip]);
    var a := Screen(Resetting, false, 400, [zoom, flip, idle]);
    var b := Screen(Resetting, true, 900, [flip, idle]);
    var c := Screen(Flipped, true, 1200, [idle]);
    var d := Screen(Idle, true, 1600, []);
    EarlyFlipBackQueue();
    EarlyFlipBackResets();
    StepZoomIn(a);
    assert Step(a) == b;
    StepFlipped(b);
    assert Step(b) == c;
    StepIdle(c);
    assert Step(c) == d;
    RunUntilQuiet(d, 1600);
    RunUntilFires(c, 1600);
    RunUntilQuiet(c, 1200);
    RunUntilFires(b, 1200);
    RunUntilFires(b, 1600);
    RunUntilQuiet(b, 900);
    RunUntilFires(a, 900);
    RunUntilFires(a, 1200);
    RunUntilFires(a, 1600);
    RunUntilQuiet(a, 400);
    RunUntilFires(e, 400);
    RunUntilFires(e, 900);
    RunUntilFires(e, 1200);
    RunUntilFires(e, 1600);
  }

  const FloatClass := "animate-float"
  const RevealClass := "animate-flip-reveal"
  const ResetClass := "animate-flip-reset"

  /** The card's animation class: floating when idle, the reveal while flipping or flipped, the reset while resetting. */
  function AnimationClass(a: AnimState): (c: string)
    ensures c == FloatClass <==> a == Idle
    ensures c == RevealClass <==> a == Flipping || a == Flipped
    ensures c == ResetClass <==> a == Resetting
  {
    assert |FloatClass| == 13 && |RevealClass| == 19 && |ResetClass| == 18;
    assert FloatClass != RevealClass && RevealClass != ResetClass && FloatClass != ResetClass;
    match a
    case Idle => FloatClass
    case Flipping | Flipped => RevealClass
    case Resetting => ResetClass
  }

  const FullStage := "w-full h-[calc(100vh-2rem)] max-w-lg"
  const SmallStage := "w-[300px] h-[520px] sm:w-[320px] sm:h-[560px]"

  /** The stage's size classes: full size exactly when zoomed. */
  function StageClass(zoomed: bool): (c: string)
    ensures c == FullStage <==> zoomed
    ensures c == SmallStage <==> !zoomed
  {
    if zoomed then FullStage else SmallStage
  }

  const HiddenShadow := "opacity-0 scale-150 translate-y-20"
  const FlipShadow := "opacity-20 scale-50"
  const RestShadow := "opacity-20 scale-75 animate-pulse"

  /** The shadow's classes: hidden when zoomed, shrunk while flipping or flipped, pulsing otherwise. */
  function ShadowClass(zoomed: bool, a: AnimState): (c: string)
    ensures c == HiddenShadow <==> zoomed
    ensures c == FlipShadow <==> !zoomed && (a == Flipping || a == Flipped)
    ensures c == RestShadow <==> !zoomed && (a == Idle || a == Resetting)
  {
    assert |HiddenShadow| == 34 && |FlipShadow| == 19 && |RestShadow| == 33;
    assert HiddenShadow != FlipShadow && FlipShadow != RestShadow && HiddenShadow != RestShadow;
    if zoomed then HiddenShadow
    else match a
      case Flipping | Flipped => FlipShadow
      case Idle | Resetting => RestShadow
  }

  /** The card page with its state variables, clock and pending callbacks. */
  class CardPage {
    var animState: AnimState
    var isZoomed: bool
    var now: nat
    var pending: seq<Timer>

    function Snapshot(): Screen
      reads this
    {
      Screen(animState, isZoomed, now, pending)
    }

    ghost predicate Valid()
      reads this
    {
      WellFormed(Snapshot())
    }

    constructor ()
      ensures Valid() && Snapshot() == Initial
    {
      animState, isZoomed, now, pending := Idle, false, 0, [];
    }

    method HandleReveal()
      requires Valid()
      modifies this
      ensures Valid() && Snapshot() == Reveal(old(Snapshot()))
    {
      ghost var s := Snapshot();
      var q := Schedule(pending, Timer(now + ZoomInDelay, ZoomIn));
      q := Schedule(q, Timer(now + FlipDuration, EnterFlipped));
      assert q == Reveal(s).pending;
      animState, pending := Flipping, q;
    }

    method HandleFlipBack()
      requires Valid()
      modifies this
      ensures Valid() && Snapshot() == FlipBack(old(Snapshot()))
    {
      isZoomed := false;
      pending := Schedule(pending, Timer(now + ZoomOutDelay, EnterResetting));
    }

    /** The timer of the first pending callback fires: take it off the queue and run it. */
    method RunNext()
      requires Valid() && pending != []
      modifies this
      ensures Valid() && Snapshot() == Step(old(Snapshot()))
    {
      ghost var before := Snapshot();
      var tm := pending[0];
      pending, now := pending[1..], tm.fireAt;
      match tm.action {
        case ZoomIn =>
          isZoomed := true;
          StepZoomIn(before);
        case EnterFlipped =>
          animState := Flipped;
          StepFlipped(before);
        case EnterIdle =>
          animState := Idle;
          StepIdle(before);
        case EnterResetting =>
          StepResetting(before);
          animState := Resetting;
          pending := Schedule(pending, Timer(tm.fireAt + FlipDuration, EnterIdle));
          assert pending == Step(before).pending;
      }
    }

    /** Let the clock run to `t`, running every callback that falls due on the way. */
    method AdvanceTo(t: nat)
      requires Valid() && now <= t
      modifies this
      ensures Valid() && Snapshot() == RunUntil(old(Snapshot()), t)
    {
      while pending != [] && pending[0].fireAt <= t
        invariant Valid() && now <= t
        invariant RunUntil(Snapshot(), t) == RunUntil(old(Snapshot()), t)
        decreases Weight(pending)
      {
        RunUntilFires(Snapshot(), t);
        RunNext();
      }
      RunUntilQuiet(Snapshot(), t);
      now := t;
    }
  }
}
