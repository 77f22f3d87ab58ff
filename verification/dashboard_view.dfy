/**
 * The stateless helpers of src/pages/Dashboard.js that turn the normalised
 * tag values into what the page shows: motor, ozone and cycle indicators,
 * tank levels, the configured cycle length, the HH:MM countdown text and
 * the enablement of the pause/resume buttons.
 */
module DashboardView {
  import opened Wrappers
  import opened JsValues
  import opened Decimal
  import opened TagApi
  import opened Clock
  import Normalize

  /** The normalised tag values the page holds (`tags`). */
  type Tags = map<string, TagValue>

  /** A normalised value as a JavaScript value. */
  function ToJs(v: TagValue): JsVal {
    match v
    case Missing => Undefined
    case Coil(b) => Bool(b)
    case Reading(x) => Number(Finite(x))
  }

  /** `tags[key]`: undefined for an absent key as for a BAD tag. */
  function Lookup(tags: Tags, key: string): JsVal {
    if key in tags then ToJs(tags[key]) else Undefined
  }

  /** A status indicator: CSS class and caption. */
  datatype Indicator = Indicator(cls: string, caption: string)

  const Failed := Indicator("state-err", "Em falha")
  const On := Indicator("state-ok", "Ligado")
  const Off := Indicator("state-off", "Desligado")
  const Finished := Indicator("state-info", "Finalizado")
  const Initialized := Indicator("state-ok", "Inicializado")
  const Stopped := Indicator("state-off", "Parado")

  /** `motorStatusBool(run, fault)`: a fault shows even while the motor runs. */
  function MotorStatus(run: JsVal, fault: JsVal): (r: Indicator)
    ensures r == Failed <==> Truthy(fault)
    ensures r == On <==> !Truthy(fault) && Truthy(run)
    ensures r == Off <==> !Truthy(fault) && !Truthy(run)
  {
    if Truthy(fault) then Failed
    else if Truthy(run) then On
    else Off
  }

  /** `onOff(b)`. */
  function OnOff(b: JsVal): (r: Indicator)
    ensures r == On <==> Truthy(b)
    ensures r == Off <==> !Truthy(b)
  {
    if Truthy(b) then On else Off
  }

  /** `cycleFromBits(start, finished)`; the page passes `ciclo_parado` as a third argument, which is ignored. */
  function CycleStatus(start: JsVal, finished: JsVal, stopped: JsVal): (r: Indicator)
    ensures r == Finished <==> Truthy(finished)
    ensures r == Initialized <==> !Truthy(finished) && Truthy(start)
    ensures r == Stopped <==> !Truthy(finished) && !Truthy(start)
  {
    if Truthy(finished) then Finished
    else if Truthy(start) then Initialized
    else Stopped
  }

  /** Without a fault, a motor indicator is the plain on/off indicator of its run bit. */
  lemma MotorWithoutFaultIsOnOff(run: JsVal, fault: JsVal)
    requires !Truthy(fault)
    ensures MotorStatus(run, fault) == OnOff(run)
  {
  }

  /** The third argument of `cycleFromBits` never changes the result. */
  lemma CycleIgnoresStopped(start: JsVal, finished: JsVal, s1: JsVal, s2: JsVal)
    ensures CycleStatus(start, finished, s1) == CycleStatus(start, finished, s2)
  {
  }

  /** The page's indicators: ozone, the two motors and the cycle. */
  function OzoneIndicator(tags: Tags): (r: Indicator)
    ensures r == On <==> Truthy(Lookup(tags, "ozonio_equipamento"))
    ensures r == On || r == Off
  {
    OnOff(Lookup(tags, "ozonio_equipamento"))
  }

  /** The indicator of motor `unit` ("1" or "2"), from its `motor_<unit>_run` and `motor_<unit>_fault` tags. */
  function MotorIndicator(tags: Tags, unit: string): (r: Indicator)
    ensures r == Failed <==> Truthy(Lookup(tags, "motor_" + unit + "_fault"))
    ensures r == On <==> !Truthy(Lookup(tags, "motor_" + unit + "_fault")) && Truthy(Lookup(tags, "motor_" + unit + "_run"))
    ensures r == Off <==> !Truthy(Lookup(tags, "motor_" + unit + "_fault")) && !Truthy(Lookup(tags, "motor_" + unit + "_run"))
  {
    MotorStatus(Lookup(tags, "motor_" + unit + "_run"), Lookup(tags, "motor_" + unit + "_fault"))
  }

  function CycleIndicator(tags: Tags): (r: Indicator)
    ensures r == Finished <==> Truthy(Lookup(tags, "ciclo_finalizado"))
    ensures r == Initialized <==> !Truthy(Lookup(tags, "ciclo_finalizado")) && Truthy(Lookup(tags, "ciclo_iniciar"))
    ensures r == Stopped <==> !Truthy(Lookup(tags, "ciclo_finalizado")) && !Truthy(Lookup(tags, "ciclo_iniciar"))
  {
    CycleStatus(Lookup(tags, "ciclo_iniciar"), Lookup(tags, "ciclo_finalizado"), Lookup(tags, "ciclo_parado"))
  }

  /**
   * A GOOD tag that is not a coil is read by truthiness: any non-zero
   * reading shows "Ligado", even one a coil threshold would call off.
   */
  lemma NumericTagReadByTruthiness(tags: map<string, RawTag>, key: string)
    requires key in tags && tags[key].quality == "GOOD" && !IsCoil(key)
    ensures OnOff(Lookup(NormalizeValues(tags), key)) == On <==> tags[key].value != 0.0
  {
    assert NormalizeValues(tags)[key] == Reading(tags[key].value);
  }

  /** The ozone status bit is such a tag. */
  lemma OzoneReadByTruthiness(tags: map<string, RawTag>)
    requires "ozonio_equipamento" in tags && tags["ozonio_equipamento"].quality == "GOOD"
    ensures OzoneIndicator(NormalizeValues(tags)) == On <==> tags["ozonio_equipamento"].value != 0.0
  {
    OzoneIsNotCoil(tags["ozonio_equipamento"]);
    NumericTagReadByTruthiness(tags, "ozonio_equipamento");
  }

  /** `num(v, fallback)`: the coerced number when it is finite, else the fallback. */
  function Num(v: JsVal, fallback: real): (r: real)
    ensures ToNumber(v).Finite? ==> r == ToNumber(v).r
    ensures ToNumber(v).NaN? ==> r == fallback
  {
    if ToNumber(v).Finite? then ToNumber(v).r else fallback
  }

  /** Unlike `toNum`, `num` turns null into 0 and keeps the fallback for undefined only. */
  lemma NumOfNullish(d: real)
    ensures Num(Null, d) == 0.0
    ensures Num(Undefined, d) == d
  {
  }

  /** `num` and `toNum` agree on every value except null, which `num` reads as 0 and `toNum` as the fallback. */
  lemma NumVersusToNum(v: JsVal, d: real)
    ensures v != Null ==> Num(v, d) == Normalize.ToNum(v, d)
    ensures v == Null ==> Num(v, d) == 0.0 && Normalize.ToNum(v, d) == d
  {
  }

  /** A tank capacity: its own tag, else `capTotal`, else the built-in litres. */
  function Capacity(tags: Tags, key: string, litres: real): (r: real)
    ensures key in tags && !tags[key].Missing? ==> r == Num(Lookup(tags, key), litres)
    ensures (key !in tags || tags[key].Missing?) ==> r == Num(Lookup(tags, "capTotal"), litres)
  {
    Num(Coalesce(Lookup(tags, key), Lookup(tags, "capTotal")), litres)
  }

  /** The three tank capacities the page draws, with their built-in litres. */
  function EffluentCapacity(tags: Tags): (r: real)
    ensures "cap_total_ef" !in tags && "capTotal" !in tags ==> r == 2670.0
  {
    Capacity(tags, "cap_total_ef", 2670.0)
  }

  function TreatedCapacity(tags: Tags): (r: real)
    ensures "cap_total_trat" !in tags && "capTotal" !in tags ==> r == 1100.0
  {
    Capacity(tags, "cap_total_trat", 1100.0)
  }

  function EvaporatorCapacity(tags: Tags): (r: real)
    ensures "cap_total_evap" !in tags && "capTotal" !in tags ==> r == 13570.0
  {
    Capacity(tags, "cap_total_evap", 13570.0)
  }

  /** The treated tank's minimum: its own tag, else `capMin`, else 150 L. */
  function TreatedMinimum(tags: Tags): (r: real)
    ensures "cap_min_trat" in tags && !tags["cap_min_trat"].Missing? ==> r == Num(Lookup(tags, "cap_min_trat"), 150.0)
    ensures ("cap_min_trat" !in tags || tags["cap_min_trat"].Missing?) ==> r == Num(Lookup(tags, "capMin"), 150.0)
    ensures "cap_min_trat" !in tags && "capMin" !in tags ==> r == 150.0
  {
    Num(Coalesce(Lookup(tags, "cap_min_trat"), Lookup(tags, "capMin")), 150.0)
  }

  /** With neither tag present the built-in capacity is used. */
  lemma CapacityDefaults(tags: Tags, key: string, litres: real)
    requires key !in tags && "capTotal" !in tags
    ensures Capacity(tags, key, litres) == litres
  {
  }

  /** A tank level as the page draws it. */
  datatype Level = Level(atual: real, total: real, pct: int, h: string, isFull: bool)

  /** The fill ratio in percent, before clamping. */
  function RawPercent(atual: real, total: real): real
    requires total > 0.0
  {
    atual / total * 100.0
  }

  /** `buildLevel(atualL, totalL)`. */
  function BuildLevel(atualL: JsVal, totalL: JsVal): (r: Level)
    ensures r.total >= 1.0 && r.atual >= 0.0
    ensures 0 <= r.pct <= 100
    ensures r.h == IntToString(r.pct) + "%"
    ensures r.isFull <==> r.atual >= r.total || RawPercent(r.atual, r.total) >= 99.5
    ensures ToNumber(atualL).Finite? && ToNumber(atualL).r >= 0.0 ==> r.atual == ToNumber(atualL).r
    ensures !(ToNumber(atualL).Finite? && ToNumber(atualL).r >= 0.0) ==> r.atual == 0.0
    ensures ToNumber(totalL).Finite? && ToNumber(totalL).r >= 1.0 ==> r.total == ToNumber(totalL).r
    ensures !(ToNumber(totalL).Finite? && ToNumber(totalL).r >= 1.0) ==> r.total == 1.0
    // pct is the nearest integer to the ratio capped at 100, halves rounded up
    ensures var c := Min(100.0, RawPercent(r.atual, r.total)); r.pct as real <= c + 0.5 < r.pct as real + 1.0
  {
    var total := Max(1.0, Num(totalL, 1.0));
    var atual := Max(0.0, Num(atualL, 0.0));
    var rawPct := RawPercent(atual, total);
    assert rawPct >= 0.0;
    var pct := Round(Min(100.0, Max(0.0, rawPct)));
    var isFull := atual >= total || rawPct >= 99.5;
    Level(atual, total, pct, IntToString(pct) + "%", isFull)
  }

  /** A quantity at least its positive capacity fills at least 100 %. */
  lemma RatioAtLeastOne(a: real, b: real)
    requires b > 0.0 && a >= b
    ensures RawPercent(a, b) >= 100.0
  {
    var q := a / b;
    assert (q - 1.0) * b == a - b;
  }

  /** Under exact arithmetic a tank is full exactly when its rounded percentage is 100. */
  lemma FullIffHundred(atualL: JsVal, totalL: JsVal)
    ensures BuildLevel(atualL, totalL).isFull <==> BuildLevel(atualL, totalL).pct == 100
  {
    var r := BuildLevel(atualL, totalL);
    var raw := RawPercent(r.atual, r.total);
    assert raw >= 0.0;
    if r.atual >= r.total {
      RatioAtLeastOne(r.atual, r.total);
    }
  }

  /** The level shown never exceeds the capacity nor goes below zero, whatever the sensor says. */
  lemma LevelClamps(reading: real, capacity: real)
    requires capacity >= 1.0
    ensures reading < 0.0 ==> BuildLevel(Number(Finite(reading)), Number(Finite(capacity))).atual == 0.0
    ensures reading >= capacity ==> BuildLevel(Number(Finite(reading)), Number(Finite(capacity))).pct == 100
  {
    FullIffHundred(Number(Finite(reading)), Number(Finite(capacity)));
  }

  /** 2670 L of 2670 L is full; 2656 L (99.48 %) is not; a negative reading shows 0 L. */
  lemma LevelExamples()
    ensures BuildLevel(Number(Finite(2670.0)), Number(Finite(2670.0))).pct == 100
    ensures BuildLevel(Number(Finite(2670.0)), Number(Finite(2670.0))).isFull
    ensures !BuildLevel(Number(Finite(2656.0)), Number(Finite(2670.0))).isFull
    ensures BuildLevel(Number(Finite(2656.0)), Number(Finite(2670.0))).pct == 99
    ensures BuildLevel(Number(Finite(-5.0)), Number(Finite(100.0))).atual == 0.0
  {
    assert RawPercent(2656.0, 2670.0) < 99.5;
    assert RawPercent(2656.0, 2670.0) >= 99.0;
  }

  /** `Math.max(0, Math.floor(Number(v) || 0))`: whole minutes, never negative. */
  function WholeMinutes(v: JsVal): (m: nat)
    ensures ToNumber(v).Finite? && ToNumber(v).r >= 0.0 ==> m == ToNumber(v).r.Floor
    ensures ToNumber(v).NaN? || ToNumber(v).r < 0.0 ==> m == 0
  {
    var f := OrNumber(ToNumber(v), 0.0).Floor;
    if f >= 0 then f else 0
  }

  /** The default cycle length, 12 hours. */
  const DefaultCycleMinutes := 12 * 60

  /** `totalMinutes`: the `Timer` tag in whole minutes when positive, else 720. */
  function TotalMinutes(tags: Tags): (t: int)
    ensures t >= 1
    ensures WholeMinutes(Lookup(tags, "Timer")) > 0 ==> t == WholeMinutes(Lookup(tags, "Timer"))
    ensures WholeMinutes(Lookup(tags, "Timer")) == 0 ==> t == DefaultCycleMinutes
  {
    var fromClp := WholeMinutes(Lookup(tags, "Timer"));
    if fromClp > 0 then fromClp else DefaultCycleMinutes
  }

  /** An absent, unreadable, or below-one-minute `Timer` gives the 720-minute default. */
  lemma TotalMinutesFallback(tags: Tags)
    ensures "Timer" !in tags ==> TotalMinutes(tags) == 720
    ensures "Timer" in tags && tags["Timer"].Missing? ==> TotalMinutes(tags) == 720
    ensures "Timer" in tags && tags["Timer"].Reading? && tags["Timer"].x < 1.0 ==> TotalMinutes(tags) == 720
    ensures "Timer" in tags && tags["Timer"].Reading? && tags["Timer"].x >= 1.0 ==> TotalMinutes(tags) == tags["Timer"].x.Floor
  {
  }

  /** `minutesToHHMM(min)`. */
  function MinutesToHHMM(v: JsVal): (s: string)
    ensures ParseHHMM(s) == Some(WholeMinutes(v))
    ensures |s| >= 4 && s[|s| - 3] == ':' && 0 <= ParseDigits(s[|s| - 2..]) <= 59
  {
    ClockTextRoundTrip(WholeMinutes(v));
    ClockText(WholeMinutes(v))
  }

  /** `Boolean(tags.ciclo_iniciar)`. */
  predicate IsRunning(tags: Tags) {
    Truthy(Lookup(tags, "ciclo_iniciar"))
  }

  /** `Boolean(tags.ciclo_pausado)`. */
  predicate IsPaused(tags: Tags) {
    Truthy(Lookup(tags, "ciclo_pausado"))
  }

  /** `canPause`: enables the pause button. */
  predicate CanPause(tags: Tags, busyPause: bool, busyResume: bool) {
    IsRunning(tags) && !IsPaused(tags) && !busyPause && !busyResume
  }

  /** `canResume`: enables the resume button. */
  predicate CanResume(tags: Tags, busyPause: bool, busyResume: bool) {
    IsRunning(tags) && IsPaused(tags) && !busyPause && !busyResume
  }

  /** Pause and resume are never offered together, and neither while stopped or busy. */
  lemma PauseResumeExclusive(tags: Tags, busyPause: bool, busyResume: bool)
    ensures !(CanPause(tags, busyPause, busyResume) && CanResume(tags, busyPause, busyResume))
    ensures !IsRunning(tags) || busyPause || busyResume ==>
      !CanPause(tags, busyPause, busyResume) && !CanResume(tags, busyPause, busyResume)
    ensures IsRunning(tags) && !busyPause && !busyResume ==>
      CanPause(tags, busyPause, busyResume) || CanResume(tags, busyPause, busyResume)
  {
  }
}
