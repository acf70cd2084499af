// The simulated device's state machine, for arbitrary random draws: lengths of
// spike and drift episodes, how far a drift moves the baseline, and the battery
// cycle. Readings are reals.
module Simulator {

  datatype Mode = Normal | InSpike | InDrift

  datatype Device = Device(
    mode: Mode,
    ticksLeft: int,
    spikeHigh: bool,
    baseline: real,
    battery: real)

  /** The random numbers a tick may draw. Float64 lies in [0, 1), Intn(5) in 0..4,
      Intn(21) in 0..20. */
  datatype Draws = Draws(choice: real, spikeTicks: int, high: real, driftTicks: int, nudge: real, drain: real) {
    predicate InRange() {
      && 0.0 <= choice < 1.0 && 0.0 <= high < 1.0 && 0.0 <= nudge < 1.0 && 0.0 <= drain < 1.0
      && 0 <= spikeTicks < 5 && 0 <= driftTicks < 21
    }
  }

  function Advance(d: Device, r: Draws): Device {
    match d.mode
    case Normal =>
      if r.choice < 0.02 then d.(mode := InSpike, ticksLeft := 3 + r.spikeTicks, spikeHigh := r.high < 0.7)
      else if r.choice < 0.03 then d.(mode := InDrift, ticksLeft := 20 + r.driftTicks)
      else d
    case _ =>
      var left := d.ticksLeft - 1;
      var mode := if left <= 0 then Normal else d.mode;
      d.(ticksLeft := left, mode := mode,
         baseline := if mode == InDrift then d.baseline + (r.nudge - 0.5) * 0.5 else d.baseline)
  }

  function Drain(d: Device, r: Draws): Device {
    var level := d.battery - (0.01 + r.drain * 0.02);
    d.(battery := if level < 0.0 then 100.0 else level)
  }

  function Tick(d: Device, r: Draws): Device {
    Drain(Advance(d, r), r)
  }

  /** A new device, whatever its random baseline and charge. */
  predicate New(d: Device) {
    d.mode == Normal && 20.0 <= d.baseline < 60.0 && 60.0 <= d.battery < 100.0
  }

  predicate AllInRange(rs: seq<Draws>) {
    forall i :: 0 <= i < |rs| ==> rs[i].InRange()
  }

  /** t is a new device before the first tick and after each of them. */
  predicate IsTrace(t: seq<Device>, rs: seq<Draws>) {
    && |t| == |rs| + 1 && New(t[0]) && AllInRange(rs)
    && forall i :: 0 <= i < |rs| ==> t[i + 1] == Tick(t[i], rs[i])
  }

  // ---- episodes ----

  /** Ticks i, ..., j - 1 are a maximal block in the mode, over by the end. */
  predicate Episode(t: seq<Device>, mode: Mode, i: nat, j: nat) {
    && 0 < i < j < |t|
    && (forall k :: i <= k < j ==> t[k].mode == mode)
    && t[i - 1].mode != mode && t[j].mode != mode
  }

  function Shortest(mode: Mode): int {
    if mode == InSpike then 3 else 20
  }

  function Longest(mode: Mode): int {
    if mode == InSpike then 7 else 40
  }

  /** In an episode the remaining ticks are at least one. */
  lemma {:induction false} ModesOk(t: seq<Device>, rs: seq<Draws>, i: nat)
    requires IsTrace(t, rs) && i < |t|
    ensures t[i].mode != Normal ==> t[i].ticksLeft >= 1
  {
    if i == 0 {
    } else {
      ModesOk(t, rs, i - 1);
      assert t[i] == Tick(t[i - 1], rs[i - 1]);
    }
  }

  /** An episode is entered from the normal mode, with its length drawn. */
  lemma EntersFromNormal(t: seq<Device>, rs: seq<Draws>, mode: Mode, i: nat)
    requires IsTrace(t, rs) && 0 < i < |t| && mode != Normal
    requires t[i].mode == mode && t[i - 1].mode != mode
    ensures t[i - 1].mode == Normal
    ensures Shortest(mode) <= t[i].ticksLeft <= Longest(mode)
    ensures t[i].baseline == t[i - 1].baseline
  {
    assert t[i] == Tick(t[i - 1], rs[i - 1]) && rs[i - 1].InRange();
  }

  lemma {:induction false} Countdown(t: seq<Device>, rs: seq<Draws>, mode: Mode, i: nat, k: nat)
    requires IsTrace(t, rs) && i <= k < |t| && mode != Normal
    requires forall n :: i <= n <= k ==> t[n].mode == mode
    ensures t[k].ticksLeft == t[i].ticksLeft - (k - i)
    ensures mode == InDrift ==>
      -0.25 * (k - i) as real <= t[k].baseline - t[i].baseline <= 0.25 * (k - i) as real
    ensures mode == InSpike ==> t[k].baseline == t[i].baseline
    decreases k
  {
    if i == k {
    } else {
      Countdown(t, rs, mode, i, k - 1);
      assert t[k] == Tick(t[k - 1], rs[k - 1]) && rs[k - 1].InRange();
    }
  }

  /** Every completed spike lasts 3 to 7 ticks and every completed drift 20 to 40,
      and there is a normal tick before it and one after it: no two episodes touch. */
  lemma EpisodesAreBounded(t: seq<Device>, rs: seq<Draws>, mode: Mode, i: nat, j: nat)
    requires IsTrace(t, rs) && mode != Normal && Episode(t, mode, i, j)
    ensures Shortest(mode) <= j - i <= Longest(mode)
    ensures t[i - 1].mode == Normal && t[j].mode == Normal
  {
    EntersFromNormal(t, rs, mode, i);
    Countdown(t, rs, mode, i, j - 1);
    ModesOk(t, rs, j - 1);
    assert t[j] == Tick(t[j - 1], rs[j - 1]);
  }

  /** One drift moves the baseline by at most 9.75 degrees, and no other mode moves it. */
  lemma DriftIsBounded(t: seq<Device>, rs: seq<Draws>, mode: Mode, i: nat, j: nat)
    requires IsTrace(t, rs) && mode != Normal && Episode(t, mode, i, j)
    ensures mode == InDrift ==> -9.75 <= t[j].baseline - t[i - 1].baseline <= 9.75
    ensures mode == InSpike ==> t[j].baseline == t[i - 1].baseline
  {
    EpisodesAreBounded(t, rs, mode, i, j);
    EntersFromNormal(t, rs, mode, i);
    Countdown(t, rs, mode, i, j - 1);
    assert t[j] == Tick(t[j - 1], rs[j - 1]);
    assert (j - 1 - i) as real <= 39.0;
  }

  /** An episode still under way never outlasts its bound either. */
  lemma UnfinishedEpisodesAreBounded(t: seq<Device>, rs: seq<Draws>, mode: Mode, i: nat, k: nat)
    requires IsTrace(t, rs) && mode != Normal && 0 < i <= k < |t| && t[i - 1].mode != mode
    requires forall n :: i <= n <= k ==> t[n].mode == mode
    ensures k - i + 1 <= Longest(mode)
  {
    EntersFromNormal(t, rs, mode, i);
    Countdown(t, rs, mode, i, k);
    ModesOk(t, rs, k);
  }

  /** The sum of the nudges drawn by ticks i + 1, ..., k. */
  function Nudges(rs: seq<Draws>, i: nat, k: nat): real
    requires i <= k <= |rs|
    decreases k
  {
    if i == k then 0.0 else Nudges(rs, i, k - 1) + rs[k - 1].nudge
  }

  /** When a normal tick starts an episode, which one, and how long it is drawn. */
  lemma EpisodeStarts(t: seq<Device>, rs: seq<Draws>, i: nat)
    requires IsTrace(t, rs) && 0 < i < |t| && t[i - 1].mode == Normal
    ensures var choice := rs[i - 1].choice * 100.0;
      && (t[i].mode == InSpike <==> choice < 2.0)
      && (t[i].mode == InDrift <==> 2.0 <= choice < 3.0)
    ensures t[i].mode == InSpike ==> t[i].ticksLeft == 3 + rs[i - 1].spikeTicks
    ensures t[i].mode == InSpike ==> (t[i].spikeHigh <==> rs[i - 1].high * 10.0 < 7.0)
    ensures t[i].mode == InDrift ==> t[i].ticksLeft == 20 + rs[i - 1].driftTicks
  {
    assert t[i] == Tick(t[i - 1], rs[i - 1]);
  }

  lemma {:induction false} DriftAddsUp(t: seq<Device>, rs: seq<Draws>, i: nat, k: nat)
    requires IsTrace(t, rs) && i <= k < |t|
    requires forall n :: i <= n <= k ==> t[n].mode == InDrift
    ensures t[k].baseline - t[i].baseline == 0.5 * Nudges(rs, i, k) - 0.25 * (k - i) as real
    decreases k
  {
    if i == k {
    } else {
      DriftAddsUp(t, rs, i, k - 1);
      assert t[k] == Tick(t[k - 1], rs[k - 1]);
    }
  }

  /** A completed episode lasts exactly as long as its first tick drew, keeps its
      direction, and a drift moves the baseline by half of what its ticks drew
      around 0.5: all but the first and the last one's. */
  lemma EpisodeIsAsDrawn(t: seq<Device>, rs: seq<Draws>, mode: Mode, i: nat, j: nat)
    requires IsTrace(t, rs) && mode != Normal && Episode(t, mode, i, j)
    ensures j - i == if mode == InSpike then 3 + rs[i - 1].spikeTicks else 20 + rs[i - 1].driftTicks
    ensures mode == InSpike ==> forall k :: i <= k < j ==> (t[k].spikeHigh <==> rs[i - 1].high * 10.0 < 7.0)
    ensures mode == InDrift ==>
      t[j].baseline - t[i - 1].baseline == 0.5 * Nudges(rs, i, j - 1) - 0.25 * (j - 1 - i) as real
  {
    EntersFromNormal(t, rs, mode, i);
    EpisodeStarts(t, rs, i);
    Countdown(t, rs, mode, i, j - 1);
    ModesOk(t, rs, j - 1);
    assert t[j] == Tick(t[j - 1], rs[j - 1]);
    if mode == InDrift {
      DriftAddsUp(t, rs, i, j - 1);
    }
    forall k | i <= k < j
      ensures t[k].spikeHigh == t[i].spikeHigh
    {
      DirectionStays(t, rs, mode, i, k);
    }
  }

  lemma {:induction false} DirectionStays(t: seq<Device>, rs: seq<Draws>, mode: Mode, i: nat, k: nat)
    requires IsTrace(t, rs) && i <= k < |t| && mode != Normal
    requires forall n :: i <= n <= k ==> t[n].mode == mode
    ensures t[k].spikeHigh == t[i].spikeHigh
    decreases k
  {
    if i == k {
    } else {
      DirectionStays(t, rs, mode, i, k - 1);
      assert t[k] == Tick(t[k - 1], rs[k - 1]);
    }
  }

  /** Outside drifts the baseline stays. */
  lemma OnlyDriftsMoveBaseline(t: seq<Device>, rs: seq<Draws>, i: nat)
    requires IsTrace(t, rs) && 0 < i < |t| && !(t[i].mode == InDrift && t[i - 1].mode == InDrift)
    ensures t[i].baseline == t[i - 1].baseline
  {
    assert t[i] == Tick(t[i - 1], rs[i - 1]);
  }

  // ---- battery ----

  /** The battery stays between 0 and 100 percent. */
  lemma {:induction false} BatteryInRange(t: seq<Device>, rs: seq<Draws>, i: nat)
    requires IsTrace(t, rs) && i < |t|
    ensures 0.0 <= t[i].battery <= 100.0
  {
    if i == 0 {
    } else {
      BatteryInRange(t, rs, i - 1);
      assert t[i] == Tick(t[i - 1], rs[i - 1]) && rs[i - 1].InRange();
    }
  }

  /** Tick i recharged the battery. */
  predicate Recharge(t: seq<Device>, i: nat) {
    0 < i < |t| && t[i].battery > t[i - 1].battery
  }

  lemma RechargeFills(t: seq<Device>, rs: seq<Draws>, i: nat)
    requires IsTrace(t, rs) && 0 < i < |t|
    ensures Recharge(t, i) <==> t[i].battery == 100.0
    ensures Recharge(t, i) ==> t[i - 1].battery < 0.03
    ensures !Recharge(t, i) ==> 0.01 <= t[i - 1].battery - t[i].battery < 0.03
  {
    BatteryInRange(t, rs, i - 1);
    assert t[i] == Tick(t[i - 1], rs[i - 1]) && rs[i - 1].InRange();
  }

  /** A tick drains what it drew, and recharges exactly when that is not left. */
  lemma DrainsAsDrawn(t: seq<Device>, rs: seq<Draws>, i: nat)
    requires IsTrace(t, rs) && 0 < i < |t|
    ensures Recharge(t, i) <==> t[i - 1].battery * 100.0 < 1.0 + 2.0 * rs[i - 1].drain
    ensures !Recharge(t, i) ==> (t[i - 1].battery - t[i].battery) * 100.0 == 1.0 + 2.0 * rs[i - 1].drain
  {
    RechargeFills(t, rs, i);
    assert t[i] == Tick(t[i - 1], rs[i - 1]) && rs[i - 1].InRange();
  }

  lemma {:induction false} Discharge(t: seq<Device>, rs: seq<Draws>, i: nat, k: nat)
    requires IsTrace(t, rs) && i <= k < |t|
    requires forall n :: i < n <= k ==> !Recharge(t, n)
    ensures 0.01 * (k - i) as real <= t[i].battery - t[k].battery <= 0.03 * (k - i) as real
    decreases k
  {
    if i == k {
    } else {
      Discharge(t, rs, i, k - 1);
      RechargeFills(t, rs, k);
    }
  }

  /** Two consecutive recharges are 3334 to 10001 ticks apart. */
  lemma RechargesAreSpaced(t: seq<Device>, rs: seq<Draws>, i: nat, j: nat)
    requires IsTrace(t, rs) && i < j && Recharge(t, i) && Recharge(t, j)
    requires forall n :: i < n < j ==> !Recharge(t, n)
    ensures 3334 <= j - i <= 10001
  {
    RechargeFills(t, rs, i);
    RechargeFills(t, rs, j);
    Discharge(t, rs, i, j - 1);
    BatteryInRange(t, rs, j - 1);
    var n := (j - 1 - i) as real;
    assert 0.01 * n <= 100.0;
    assert 100.0 - 0.03 < 0.03 * n;
  }

  // ---- the device ----

  class SimulatedDevice {
    var state: Mode
    var stateTicksLeft: int
    var spikeHigh: bool
    var baselineTemp: real
    var batteryLevel: real

    ghost function View(): Device
      reads this
    {
      Device(state, stateTicksLeft, spikeHigh, baselineTemp, batteryLevel)
    }

    constructor (base: real, charge: real)
      requires 0.0 <= base < 1.0 && 0.0 <= charge < 1.0
      ensures New(View())
      ensures baselineTemp == 20.0 + 40.0 * base && batteryLevel == 60.0 + 40.0 * charge
    {
      state, stateTicksLeft, spikeHigh := Normal, 0, false;
      baselineTemp, batteryLevel := 20.0 + base * 40.0, 60.0 + charge * 40.0;
    }

    method DoTick(r: Draws)
      modifies this
      ensures View() == Tick(old(View()), r)
    {
      AdvanceState(r);
      DrainBattery(r);
    }

    method AdvanceState(r: Draws)
      modifies this
      ensures View() == Advance(old(View()), r)
    {
      if state == Normal {
        if r.choice < 0.02 {
          state, stateTicksLeft, spikeHigh := InSpike, 3 + r.spikeTicks, r.high < 0.7;
        } else if r.choice < 0.03 {
          state, stateTicksLeft := InDrift, 20 + r.driftTicks;
        }
      } else {
        stateTicksLeft := stateTicksLeft - 1;
        if stateTicksLeft <= 0 {
          state := Normal;
        }
        if state == InDrift {
          baselineTemp := baselineTemp + (r.nudge - 0.5) * 0.5;
        }
      }
    }

    method DrainBattery(r: Draws)
      modifies this
      ensures View() == Drain(old(View()), r)
    {
      batteryLevel := batteryLevel - (0.01 + r.drain * 0.02);
      if batteryLevel < 0.0 {
        batteryLevel := 100.0;
      }
    }

    /** Any number of ticks keeps the trace a trace of a new device. */
    method RunTicks(rs: seq<Draws>) returns (ghost t: seq<Device>)
      requires New(View()) && AllInRange(rs)
      modifies this
      ensures IsTrace(t, rs) && t[0] == old(View()) && t[|rs|] == View()
    {
      t := [View()];
      var i := 0;
      while i < |rs|
        invariant 0 <= i <= |rs| && |t| == i + 1 && t[0] == old(View()) && t[i] == View()
        invariant forall k :: 0 <= k < i ==> t[k + 1] == Tick(t[k], rs[k])
      {
        DoTick(rs[i]);
        t := t + [View()];
        i := i + 1;
      }
    }
  }
}
