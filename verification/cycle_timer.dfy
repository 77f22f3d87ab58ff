/**
 * The persisted cycle countdown of src/pages/Dashboard.js: two effects that
 * detect rising edges of `ciclo_iniciar` and `ciclo_finalizado` between
 * consecutive snapshots and write or clear the saved cycle in local
 * storage, and the `tick` that derives the remaining minutes from the
 * saved start and the wall clock.
 *
 * The clock is an integer count of milliseconds; local storage is a map
 * from keys to the integers written as text.
 */
module CycleTimer {
  import opened JsValues
  import opened TagApi
  import opened DashboardView

  type Store = map<string, int>

  const StartKey := "cycle_start_epoch_ms"
  const TotalKey := "cycle_total_minutes"
  const MsPerMinute := 60000

  /**
   * What the component keeps between renders: the previous start and finish
   * bits (`prevStartRef`, `prevFinishRef`), local storage, and the
   * displayed remaining minutes (`remainingMin`).
   */
  datatype Engine = Engine(prevStart: int, prevFinish: int, store: Store, remaining: int)

  /** A freshly mounted page (also after a reload): both previous bits 0, storage as it was. */
  function Mount(store: Store, totalMinutes: int): (e: Engine)
    ensures e.prevStart == 0 && e.prevFinish == 0 && e.store == store
    ensures e.remaining == totalMinutes
  {
    Engine(0, 0, store, totalMinutes)
  }

  /** The 0/1 bit an effect derives from a tag (`tags[key] ? 1 : 0`). */
  function Bit(tags: Tags, key: string): (b: int)
    ensures b == 1 <==> Truthy(Lookup(tags, key))
    ensures b == 0 || b == 1
  {
    if Truthy(Lookup(tags, key)) then 1 else 0
  }

  /** `ciclo_iniciar` rises: it is set now and was not 1 before. */
  predicate StartRises(e: Engine, tags: Tags) {
    e.prevStart != 1 && Bit(tags, "ciclo_iniciar") == 1
  }

  /** `ciclo_finalizado` rises. */
  predicate FinishRises(e: Engine, tags: Tags) {
    e.prevFinish != 1 && Bit(tags, "ciclo_finalizado") == 1
  }

  /** Effect 1: on a rising start, save the start time and the configured length. */
  function StartEffect(e: Engine, tags: Tags, now: int, totalMinutes: int): (r: Engine)
    ensures r.prevStart == Bit(tags, "ciclo_iniciar")
    ensures r.prevFinish == e.prevFinish && r.remaining == e.remaining
    ensures StartRises(e, tags) ==>
      StartKey in r.store && r.store[StartKey] == now && TotalKey in r.store && r.store[TotalKey] == totalMinutes
    ensures !StartRises(e, tags) ==> r.store == e.store
    ensures OtherKeysKept(e.store, r.store)
  {
    var store := if StartRises(e, tags) then e.store[StartKey := now][TotalKey := totalMinutes] else e.store;
    e.(prevStart := Bit(tags, "ciclo_iniciar"), store := store)
  }

  /** Effect 2: on a rising finish, forget the saved cycle and show the full length. */
  function FinishEffect(e: Engine, tags: Tags, totalMinutes: int): (r: Engine)
    ensures r.prevFinish == Bit(tags, "ciclo_finalizado")
    ensures r.prevStart == e.prevStart
    ensures FinishRises(e, tags) ==> StartKey !in r.store && TotalKey !in r.store && r.remaining == totalMinutes
    ensures !FinishRises(e, tags) ==> r.store == e.store && r.remaining == e.remaining
    ensures OtherKeysKept(e.store, r.store)
  {
    if FinishRises(e, tags) then
      e.(prevFinish := 1, store := e.store - {StartKey, TotalKey}, remaining := totalMinutes)
    else
      e.(prevFinish := Bit(tags, "ciclo_finalizado"))
  }

  /** Storage agrees with `before` on every key other than the two cycle keys. */
  ghost predicate OtherKeysKept(before: Store, after: Store) {
    forall k :: k != StartKey && k != TotalKey ==>
      (k in after <==> k in before) && (k in before ==> after[k] == before[k])
  }

  /** Both effects, start first, for one new snapshot. */
  function Step(e: Engine, tags: Tags, now: int, totalMinutes: int): (r: Engine)
    ensures r.prevStart == Bit(tags, "ciclo_iniciar") && r.prevFinish == Bit(tags, "ciclo_finalizado")
    ensures OtherKeysKept(e.store, r.store)
    ensures FinishRises(e, tags) ==> StartKey !in r.store && TotalKey !in r.store && r.remaining == totalMinutes
    ensures StartRises(e, tags) && !FinishRises(e, tags) ==>
      StartKey in r.store && r.store[StartKey] == now && TotalKey in r.store && r.store[TotalKey] == totalMinutes
    ensures !StartRises(e, tags) && !FinishRises(e, tags) ==> r.store == e.store
    ensures !FinishRises(e, tags) ==> r.remaining == e.remaining
  {
    FinishEffect(StartEffect(e, tags, now, totalMinutes), tags, totalMinutes)
  }

  /** The saved length as `tick` reads it (`Math.max(1, Math.floor(Number(saved) || totalMinutes))`). */
  function SavedTotal(saved: int, totalMinutes: int): (t: int)
    ensures t >= 1
    ensures saved >= 1 ==> t == saved
  {
    var v := if saved != 0 then saved else totalMinutes;
    if v >= 1 then v else 1
  }

  /** Whole minutes elapsed since `start` (`Math.floor((now - start) / 60000)`). */
  function ElapsedMinutes(start: int, now: int): int {
    (now - start) / MsPerMinute
  }

  /** `tick()`: the remaining minutes of the saved cycle, or the configured length when none is saved. */
  function Tick(store: Store, now: int, totalMinutes: int): (r: int)
    ensures StartKey !in store || TotalKey !in store ==> r == totalMinutes
    ensures StartKey in store && TotalKey in store ==>
      var left := SavedTotal(store[TotalKey], totalMinutes) - ElapsedMinutes(store[StartKey], now);
      r >= 0 && r >= left && (r == 0 || r == left)
  {
    if StartKey !in store || TotalKey !in store then totalMinutes
    else
      var remaining := SavedTotal(store[TotalKey], totalMinutes) - ElapsedMinutes(store[StartKey], now);
      if remaining >= 0 then remaining else 0
  }

  /** A tick updates the displayed minutes and nothing else. */
  function TickEngine(e: Engine, now: int, totalMinutes: int): (r: Engine)
    ensures r.store == e.store && r.prevStart == e.prevStart && r.prevFinish == e.prevFinish
    ensures r.remaining == Tick(e.store, now, totalMinutes)
  {
    e.(remaining := Tick(e.store, now, totalMinutes))
  }

  /** Seeing the same snapshot again changes neither storage nor the previous bits. */
  lemma StepIdempotent(e: Engine, tags: Tags, now1: int, now2: int, t1: int, t2: int)
    ensures var e1 := Step(e, tags, now1, t1);
      Step(e1, tags, now2, t2) == e1
  {
  }

  /** A snapshot where both bits rise ends with no saved cycle: the finish effect runs last. */
  lemma BothEdgesClear(e: Engine, tags: Tags, now: int, t: int)
    requires StartRises(e, tags) && FinishRises(e, tags)
    ensures Step(e, tags, now, t).store == e.store - {StartKey, TotalKey}
  {
  }

  /** Once saved, the length does not follow later changes of `Timer` while the start bit stays up. */
  lemma SavedTotalIgnoresTimer(e: Engine, tags: Tags, now: int, t: int)
    requires TotalKey in e.store && e.prevStart == 1 && !FinishRises(e, tags)
    ensures TotalKey in Step(e, tags, now, t).store
    ensures Step(e, tags, now, t).store[TotalKey] == e.store[TotalKey]
  {
  }

  /** The first render after mounting sees no tags and so no edge. */
  lemma MountSeesNoEdge(store: Store, t: int, now: int)
    ensures Step(Mount(store, t), map[], now, t).store == store
  {
    assert Lookup(map[], "ciclo_iniciar") == Undefined;
    assert Lookup(map[], "ciclo_finalizado") == Undefined;
  }

  /**
   * After a reload, the first snapshot with the start bit up is a rising edge:
   * the saved start is overwritten with the current time, so the countdown
   * restarts from the configured length.
   */
  lemma ReloadRestartsCountdown(store: Store, t0: int, tags: Tags, now: int, t: int)
    requires Truthy(Lookup(tags, "ciclo_iniciar")) && !Truthy(Lookup(tags, "ciclo_finalizado"))
    requires t >= 1
    ensures var e := Step(Mount(store, t0), tags, now, t);
      && StartKey in e.store && e.store[StartKey] == now
      && Tick(e.store, now, t) == t
  {
    var e := Step(Mount(store, t0), tags, now, t);
    assert ElapsedMinutes(now, now) == 0;
  }

  /** At the saved start the countdown shows the saved length. */
  lemma TickAtStart(store: Store, t: int)
    requires StartKey in store && TotalKey in store
    ensures Tick(store, store[StartKey], t) == SavedTotal(store[TotalKey], t)
  {
    assert ElapsedMinutes(store[StartKey], store[StartKey]) == 0;
  }

  /** Floor division by a positive constant is monotone. */
  lemma DivMonotone(a: int, b: int)
    requires a <= b
    ensures a / MsPerMinute <= b / MsPerMinute
  {
  }

  /** The countdown never goes up as the clock advances. */
  lemma TickNonIncreasing(store: Store, now1: int, now2: int, t: int)
    requires now1 <= now2
    ensures Tick(store, now2, t) <= Tick(store, now1, t)
  {
    if StartKey in store && TotalKey in store {
      DivMonotone(now1 - store[StartKey], now2 - store[StartKey]);
    }
  }

  /** A clock behind the saved start shows more than the saved length. */
  lemma ClockBeforeStartInflates(store: Store, now: int, t: int)
    requires StartKey in store && TotalKey in store && now < store[StartKey]
    ensures Tick(store, now, t) > SavedTotal(store[TotalKey], t)
  {
    assert ElapsedMinutes(store[StartKey], now) <= -1 by {
      DivMonotone(now - store[StartKey], -1);
      assert -1 / MsPerMinute == -1;
    }
  }

  /**
   * 720 minutes configured, started at t0: five minutes later 715 remain;
   * a later finish clears the cycle and the display returns to 720.
   */
  lemma CountdownScenario(e: Engine, started: Tags, finished: Tags, t0: int, later: int)
    requires StartRises(e, started) && !FinishRises(e, started)
    requires Bit(finished, "ciclo_finalizado") == 1 && Bit(started, "ciclo_finalizado") == 0
    ensures var e1 := Step(e, started, t0, 720);
      && Tick(e1.store, t0 + 5 * MsPerMinute, 720) == 715
      && Tick(Step(e1, finished, later, 720).store, later, 720) == 720
  {
    var e1 := Step(e, started, t0, 720);
    assert ElapsedMinutes(t0, t0 + 5 * MsPerMinute) == 5;
    assert FinishRises(e1, finished);
  }

  /** One poll: a snapshot of tags and the wall-clock time it is applied at. */
  datatype Poll = Poll(tags: Tags, now: int)

  /** Applies polls in arrival order; each uses the `Timer` of its own snapshot. */
  function Run(e: Engine, polls: seq<Poll>): (r: Engine)
    ensures |polls| == 0 ==> r == e
    ensures |polls| > 0 ==> r.prevStart == Bit(polls[|polls| - 1].tags, "ciclo_iniciar")
    ensures |polls| > 0 ==> r.prevFinish == Bit(polls[|polls| - 1].tags, "ciclo_finalizado")
    ensures OtherKeysKept(e.store, r.store)
    decreases |polls|
  {
    if |polls| == 0 then e
    else Run(Step(e, polls[0].tags, polls[0].now, TotalMinutes(polls[0].tags)), polls[1..])
  }

  /** How many polls of a run save a new start. */
  function Creations(e: Engine, polls: seq<Poll>): nat
    decreases |polls|
  {
    if |polls| == 0 then 0
    else
      var next := Step(e, polls[0].tags, polls[0].now, TotalMinutes(polls[0].tags));
      (if StartRises(e, polls[0].tags) then 1 else 0) + Creations(next, polls[1..])
  }

  /** How many polls of a run clear the saved cycle. */
  function Clearings(e: Engine, polls: seq<Poll>): nat
    decreases |polls|
  {
    if |polls| == 0 then 0
    else
      var next := Step(e, polls[0].tags, polls[0].now, TotalMinutes(polls[0].tags));
      (if FinishRises(e, polls[0].tags) then 1 else 0) + Clearings(next, polls[1..])
  }

  /** The same snapshot polled at each of the given times. */
  function Repeated(tags: Tags, times: seq<int>): (polls: seq<Poll>)
    ensures |polls| == |times|
    ensures forall i :: 0 <= i < |times| ==> polls[i] == Poll(tags, times[i])
  {
    seq(|times|, i requires 0 <= i < |times| => Poll(tags, times[i]))
  }

  /**
   * Polling one snapshot any number of times has the effect of polling it
   * once: repeats create and clear nothing.
   */
  lemma {:induction false} RepeatedSnapshot(e: Engine, tags: Tags, times: seq<int>)
    requires |times| >= 1
    ensures var once := Step(e, tags, times[0], TotalMinutes(tags));
      && Run(e, Repeated(tags, times)) == once
      && Creations(once, Repeated(tags, times[1..])) == 0
      && Clearings(once, Repeated(tags, times[1..])) == 0
    decreases |times|
  {
    var polls := Repeated(tags, times);
    var once := Step(e, tags, times[0], TotalMinutes(tags));
    assert polls[1..] == Repeated(tags, times[1..]);
    if |times| > 1 {
      RepeatedSnapshot(once, tags, times[1..]);
      StepIdempotent(e, tags, times[0], times[1], TotalMinutes(tags), TotalMinutes(tags));
      assert Repeated(tags, times[1..])[1..] == Repeated(tags, times[2..]);
    }
  }

  /** Snapshots with the given start and finish coils, as the API normalises them. */
  function Bits(started: bool, finished: bool): Tags {
    map["ciclo_iniciar" := Coil(started), "ciclo_finalizado" := Coil(finished)]
  }

  /** One poll of a run: its step, and whether it saves or clears the cycle. */
  lemma RunFirst(e: Engine, polls: seq<Poll>)
    requires |polls| > 0
    ensures var next := Step(e, polls[0].tags, polls[0].now, TotalMinutes(polls[0].tags));
      && Run(e, polls) == Run(next, polls[1..])
      && Creations(e, polls) == (if StartRises(e, polls[0].tags) then 1 else 0) + Creations(next, polls[1..])
      && Clearings(e, polls) == (if FinishRises(e, polls[0].tags) then 1 else 0) + Clearings(next, polls[1..])
  {
  }

  /**
   * The sequence off, started, started, finished produces exactly one saved
   * start, at the time of the first started snapshot, and exactly one clearing.
   */
  lemma StartStopRun(store: Store, t: int, a: int, b: int, c: int, d: int)
    ensures var polls := [Poll(Bits(false, false), a), Poll(Bits(true, false), b), Poll(Bits(true, false), c), Poll(Bits(true, true), d)];
      && Creations(Mount(store, t), polls) == 1
      && Clearings(Mount(store, t), polls) == 1
      && StartKey !in Run(Mount(store, t), polls).store
      && TotalKey !in Run(Mount(store, t), polls).store
  {
    var off, started, finished := Bits(false, false), Bits(true, false), Bits(true, true);
    var polls := [Poll(off, a), Poll(started, b), Poll(started, c), Poll(finished, d)];
    assert Bit(off, "ciclo_iniciar") == 0 && Bit(off, "ciclo_finalizado") == 0;
    assert Bit(started, "ciclo_iniciar") == 1 && Bit(started, "ciclo_finalizado") == 0;
    assert Bit(finished, "ciclo_finalizado") == 1;
    var p1, p2, p3 := polls[1..], polls[2..], polls[3..];
    assert p1[0] == Poll(started, b) && p2[0] == Poll(started, c) && p3[0] == Poll(finished, d);
    assert p1[1..] == p2 && p2[1..] == p3 && p3[1..] == [];
    var e0 := Mount(store, t);
    var e1 := Step(e0, off, a, TotalMinutes(off));
    var e2 := Step(e1, started, b, TotalMinutes(started));
    var e3 := Step(e2, started, c, TotalMinutes(started));
    var e4 := Step(e3, finished, d, TotalMinutes(finished));
    RunFirst(e0, polls);
    RunFirst(e1, p1);
    RunFirst(e2, p2);
    RunFirst(e3, p3);
    assert StartKey !in e4.store && TotalKey !in e4.store;
  }
}
