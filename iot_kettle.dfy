/**
 * The heating state machine of the IoT_Kettle sketch. The loop dispatches on
 * the current state (here a `match` instead of the handler table); the start
 * button, the two interlock switches and the start-delay timer change the
 * state between ticks. Time is the 32-bit `millis()` counter, and the
 * measured temperature is an input of each tick.
 */
module IoTKettle {

  /** Values of the `unsigned long` millisecond counter. */
  const WORD: int := 0x1_0000_0000
  type Millis = x: int | 0 <= x < 0x1_0000_0000

  /** Interval of the one-shot start timer. */
  const START_DELAY: int := 2000
  /** MAXHEATINGTIME: longest time the relay may stay on before a fault. */
  const MAX_HEATING_TIME: int := 5000
  /** COOLDOWNTIME: time after heating before the start button is re-armed. */
  const COOLDOWN_TIME: int := 100000
  /** kettleTargetTemprature. */
  const TARGET_TEMPERATURE: real := 70.0

  const MSG_NO_MUG: string := "No Mug Present"
  const MSG_NO_WATER: string := "No water in the kettle"
  const MSG_TOO_LONG: string := "Heating too long somethings wrong!"
  const MSG_MUG_MOVED: string := "Mug Moved!"
  const MSG_WATER_LOST: string := "No water in system!"

  /** `millis() - since` on unsigned long: subtraction modulo 2^32. */
  function Elapsed(now: Millis, since: Millis): (d: Millis)
    ensures now >= since ==> d == now - since
    ensures now < since ==> d == WORD - since + now
  {
    (now - since) % WORD
  }

  /** Across a wrap of the counter the elapsed time is still the distance travelled. */
  lemma ElapsedAcrossWrap(since: Millis, d: Millis)
    ensures Elapsed(((since + d) % WORD) as Millis, since) == d
  {
  }

  datatype KettleState = Idle | PreInit | PostInit | Heating | PostHeat | Error

  /** The last triple written by rgbHandle. */
  datatype Rgb = Rgb(red: int, green: int, blue: int)

  const LED_OFF: Rgb := Rgb(0, 0, 0)
  const LED_IDLE: Rgb := Rgb(0, 255, 255)
  const LED_HEATING: Rgb := Rgb(0, 255, 0)
  const LED_COOLING: Rgb := Rgb(255, 128, 0)
  const LED_ERROR: Rgb := Rgb(255, 0, 0)

  /**
   * The sketch's global state: the state variable, the two timestamps, the
   * error message, the relay level, the LED, which interrupts are attached,
   * the start timer, and what was printed on the serial line.
   */
  datatype Kettle = Kettle(
    state: KettleState,
    heatingTime: Millis,
    coolingTime: Millis,
    errorMessage: string,
    relayHigh: bool,
    led: Rgb,
    startIsr: bool,
    interlockIsrs: bool,
    timerRunning: bool,
    timerStart: Millis,
    serial: seq<string>)

  /** The state after setup(): IDLE, relay low, only the start button's interrupt attached. */
  const BOOT: Kettle := Kettle(Idle, 0, 0, "", false, LED_OFF, true, false, false, 0, [])

  /**
   * Two states drive the hardware alike: same relay level, same LED, same
   * interrupts attached, same serial output.
   */
  ghost predicate SameOutputs(a: Kettle, b: Kettle)
  {
    a.relayHigh == b.relayHigh && a.led == b.led && a.startIsr == b.startIsr
    && a.interlockIsrs == b.interlockIsrs && a.serial == b.serial
  }

  // ----- interrupt and timer callbacks -----

  /** onStartPressISR: only the state moves, to PRE_INIT. */
  function Pressed(k: Kettle): (r: Kettle)
    ensures r.state == PreInit && SameOutputs(k, r)
    ensures r.timerRunning == k.timerRunning && r.errorMessage == k.errorMessage
  {
    k.(state := PreInit)
  }

  /** onStartTimer: only the state moves, to POST_INIT. */
  function TimerExpired(k: Kettle): (r: Kettle)
    ensures r.state == PostInit && SameOutputs(k, r)
    ensures r.timerRunning == k.timerRunning && r.errorMessage == k.errorMessage
  {
    k.(state := PostInit)
  }

  /**
   * errorState, which the sketch declares but does not define: enter ERROR
   * with a message, leaving the relay and the interrupts to the ERROR tick.
   */
  function Faulted(k: Kettle, msg: string): (r: Kettle)
    ensures r.state == Error && r.errorMessage == msg && SameOutputs(k, r)
  {
    k.(state := Error, errorMessage := msg)
  }

  /** errorMug. */
  function MugMoved(k: Kettle): (r: Kettle)
    ensures r.state == Error && r.errorMessage == MSG_MUG_MOVED && SameOutputs(k, r)
  {
    Faulted(k, MSG_MUG_MOVED)
  }

  /** errorWater. */
  function WaterLost(k: Kettle): (r: Kettle)
    ensures r.state == Error && r.errorMessage == MSG_WATER_LOST && SameOutputs(k, r)
  {
    Faulted(k, MSG_WATER_LOST)
  }

  // ----- state handlers -----

  /** idleHandle: let the start timer fire if it is due, then show the idle colour. */
  function IdleStep(k: Kettle, now: Millis): (r: Kettle)
    ensures r.led == LED_IDLE
    ensures r.relayHigh == k.relayHigh && r.startIsr == k.startIsr
    ensures r.interlockIsrs == k.interlockIsrs && r.serial == k.serial
    ensures k.timerRunning && Elapsed(now, k.timerStart) >= START_DELAY ==> r.state == PostInit && !r.timerRunning
    ensures r.state != k.state ==> r.state == PostInit && k.timerRunning && Elapsed(now, k.timerStart) >= START_DELAY
    ensures r.timerRunning ==> k.timerRunning && r.timerStart == k.timerStart
  {
    var k' := if k.timerRunning && Elapsed(now, k.timerStart) >= START_DELAY
              then TimerExpired(k.(timerRunning := false))
              else k;
    k'.(led := LED_IDLE)
  }

  /** preInitHandle: (re)start the timer and go back to IDLE to wait for it. */
  function PreInitStep(k: Kettle, now: Millis): (r: Kettle)
    ensures r.state == Idle && r.timerRunning && r.timerStart == now
    ensures SameOutputs(k, r)
  {
    k.(timerRunning := true, timerStart := now, state := Idle)
  }

  /** postInitHandle: mug first, then water; only with both does heating start. */
  function PostInitStep(k: Kettle, now: Millis, mug: bool, water: bool): (r: Kettle)
    ensures r.state == Heating <==> mug && water
    ensures r.state != Heating ==> r.state == Error && SameOutputs(k, r)
    ensures r.state == Error ==> r.errorMessage == (if !mug then MSG_NO_MUG else MSG_NO_WATER)
    ensures r.state == Heating ==> r.relayHigh && r.interlockIsrs && r.heatingTime == now && r.led == LED_HEATING
  {
    if !mug then Faulted(k, MSG_NO_MUG)
    else if !water then Faulted(k, MSG_NO_WATER)
    else k.(state := Heating, led := LED_HEATING, interlockIsrs := true,
            heatingTime := now, relayHigh := true)
  }

  /** heatingHandle: target reached, else timed out, else keep heating. */
  function HeatingStep(k: Kettle, now: Millis, temperature: real): (r: Kettle)
    ensures r.state == PostHeat <==> temperature >= TARGET_TEMPERATURE
    ensures r.state == Error <==> temperature < TARGET_TEMPERATURE && Elapsed(now, k.heatingTime) > MAX_HEATING_TIME
    ensures r.state == Heating || r.state == PostHeat || r.state == Error
    ensures r.relayHigh <==> r.state == Heating || (r.state == Error && k.relayHigh)
    ensures r.state == Error ==> SameOutputs(k, r) && r.errorMessage == MSG_TOO_LONG
    ensures r.state == PostHeat ==> !r.startIsr && r.coolingTime == now
    ensures r.interlockIsrs == k.interlockIsrs && r.serial == k.serial
  {
    if temperature >= TARGET_TEMPERATURE then
      k.(state := PostHeat, relayHigh := false, startIsr := false,
         led := LED_COOLING, coolingTime := now)
    else if Elapsed(now, k.heatingTime) > MAX_HEATING_TIME then
      k.(state := Error, errorMessage := MSG_TOO_LONG)
    else
      k.(state := Heating, relayHigh := true)
  }

  /** postHeatingHandle: after the cooldown, back to IDLE with the start button re-armed. */
  function PostHeatStep(k: Kettle, now: Millis): (r: Kettle)
    ensures r != k ==> Elapsed(now, k.coolingTime) > COOLDOWN_TIME && r.state == Idle && r.startIsr
    ensures Elapsed(now, k.coolingTime) > COOLDOWN_TIME ==> r.state == Idle && r.startIsr
    ensures r.relayHigh == k.relayHigh && r.interlockIsrs == k.interlockIsrs && r.serial == k.serial
  {
    if Elapsed(now, k.coolingTime) > COOLDOWN_TIME then k.(state := Idle, startIsr := true)
    else k
  }

  /** errorHandle: print the message, relay off, red LED, back to IDLE. */
  function ErrorStep(k: Kettle): (r: Kettle)
    ensures r.state == Idle && !r.relayHigh && r.led == LED_ERROR
    ensures r.serial == k.serial + [k.errorMessage] && r.errorMessage == k.errorMessage
    ensures r.startIsr == k.startIsr && r.interlockIsrs == k.interlockIsrs
  {
    k.(serial := k.serial + [k.errorMessage], relayHigh := false, led := LED_ERROR, state := Idle)
  }

  /** One pass of loop(): the handler of the current state. */
  function Step(k: Kettle, now: Millis, mug: bool, water: bool, temperature: real): (r: Kettle)
    ensures r.state == Heating ==> r.relayHigh
    ensures !k.relayHigh && r.relayHigh ==> r.state == Heating
    ensures k.state == Error ==> !r.relayHigh && r.serial == k.serial + [k.errorMessage]
    ensures k.state != Error ==> r.serial == k.serial
    ensures k.interlockIsrs ==> r.interlockIsrs
  {
    match k.state
    case Idle => IdleStep(k, now)
    case PreInit => PreInitStep(k, now)
    case PostInit => PostInitStep(k, now, mug, water)
    case Heating => HeatingStep(k, now, temperature)
    case PostHeat => PostHeatStep(k, now)
    case Error => ErrorStep(k)
  }

  /** What can happen between two checks of the world: an edge on a switch or one loop pass. */
  datatype Event =
    | StartRising
    | MugFalling
    | WaterFalling
    | Tick(now: Millis, mug: bool, water: bool, temperature: real)

  /** An edge only reaches its handler while that handler is attached. */
  function Apply(k: Kettle, e: Event): (r: Kettle)
    ensures !e.Tick? ==> SameOutputs(k, r)
    ensures e == StartRising ==> r == k || (k.startIsr && r.state == PreInit)
    ensures (e == MugFalling || e == WaterFalling) ==> r == k || (k.interlockIsrs && r.state == Error)
    ensures k.interlockIsrs ==> r.interlockIsrs
    ensures k.serial <= r.serial
  {
    match e
    case StartRising => if k.startIsr then Pressed(k) else k
    case MugFalling => if k.interlockIsrs then MugMoved(k) else k
    case WaterFalling => if k.interlockIsrs then WaterLost(k) else k
    case Tick(now, mug, water, t) => Step(k, now, mug, water, t)
  }

  function Run(k: Kettle, es: seq<Event>): (r: Kettle)
    ensures k.interlockIsrs ==> r.interlockIsrs
    ensures k.serial <= r.serial
    decreases |es|
  {
    if es == [] then k else Run(Apply(k, es[0]), es[1..])
  }

  /** Running two traces one after the other is running their concatenation. */
  lemma {:induction false} RunAppend(k: Kettle, xs: seq<Event>, ys: seq<Event>)
    ensures Run(k, xs + ys) == Run(Run(k, xs), ys)
    decreases |xs|
  {
    if xs == [] {
      assert xs + ys == ys;
    } else {
      assert (xs + ys)[1..] == xs[1..] + ys;
      RunAppend(Apply(k, xs[0]), xs[1..], ys);
    }
  }

  /**
   * The safety invariant: the relay is only ever high while the mug and water
   * interrupts are attached (so a removal is caught), HEATING and POST_HEAT
   * only occur with them attached, and POST_HEAT has the relay low and the
   * start button disarmed.
   */
  ghost predicate Safe(k: Kettle)
  {
    && (k.relayHigh ==> k.interlockIsrs)
    && (k.state == Heating ==> k.interlockIsrs)
    && (k.state == PostHeat ==> k.interlockIsrs && !k.relayHigh && !k.startIsr)
  }

  lemma BootIsSafe()
    ensures Safe(BOOT) && BOOT.state == Idle && !BOOT.relayHigh
  {
  }

  lemma ApplyKeepsSafe(k: Kettle, e: Event)
    requires Safe(k)
    ensures Safe(Apply(k, e))
  {
  }

  /** Every sequence of edges and ticks keeps the safety invariant. */
  lemma {:induction false} RunKeepsSafe(k: Kettle, es: seq<Event>)
    requires Safe(k)
    ensures Safe(Run(k, es))
    decreases |es|
  {
    if es != [] {
      ApplyKeepsSafe(k, es[0]);
      RunKeepsSafe(Apply(k, es[0]), es[1..]);
    }
  }

  /**
   * The relay is switched on only by a POST_INIT tick that saw both mug and
   * water, or by a HEATING tick below the target and within the time limit.
   */
  lemma RelayRaisedOnlyByHeating(k: Kettle, e: Event)
    requires !k.relayHigh && Apply(k, e).relayHigh
    ensures e.Tick?
    ensures (k.state == PostInit && e.mug && e.water)
         || (k.state == Heating && e.temperature < TARGET_TEMPERATURE
             && Elapsed(e.now, k.heatingTime) <= MAX_HEATING_TIME)
  {
  }

  /** The start button moves an armed kettle to PRE_INIT; a PRE_INIT tick arms the timer and returns to IDLE. */
  lemma StartSequence(k: Kettle, now: Millis, mug: bool, water: bool, t: real)
    requires k.startIsr
    ensures Apply(k, StartRising).state == PreInit
    ensures var k1 := Step(Apply(k, StartRising), now, mug, water, t);
      k1.state == Idle && k1.timerRunning && k1.timerStart == now && k1.relayHigh == k.relayHigh
  {
  }

  /** The timer fires in an IDLE tick exactly when 2000 ms have passed since it was started, and only once. */
  lemma TimerFiresOnce(k: Kettle, now: Millis, mug: bool, water: bool, t: real)
    requires k.state == Idle && k.timerRunning
    ensures var k1 := Step(k, now, mug, water, t);
      && (k1.state == PostInit <==> Elapsed(now, k.timerStart) >= START_DELAY)
      && (k1.state == PostInit ==> !k1.timerRunning)
      && (k1.state != PostInit ==> k1 == k.(led := LED_IDLE))
  {
  }

  /** POST_INIT checks the mug before the water, and neither fault touches the relay. */
  lemma PostInitChecks(k: Kettle, now: Millis, mug: bool, water: bool, t: real)
    requires k.state == PostInit
    ensures var k1 := Step(k, now, mug, water, t);
      && (!mug ==> k1.state == Error && k1.errorMessage == MSG_NO_MUG && k1.relayHigh == k.relayHigh)
      && (mug && !water ==> k1.state == Error && k1.errorMessage == MSG_NO_WATER && k1.relayHigh == k.relayHigh)
      && (mug && water ==> k1.state == Heating && k1.relayHigh && k1.heatingTime == now && k1.interlockIsrs)
  {
  }

  /** In HEATING, reaching the target wins over the time limit: relay off, start disarmed, cooldown starts. */
  lemma TargetWins(k: Kettle, now: Millis, mug: bool, water: bool, t: real)
    requires k.state == Heating && t >= TARGET_TEMPERATURE
    ensures var k1 := Step(k, now, mug, water, t);
      k1.state == PostHeat && !k1.relayHigh && !k1.startIsr && k1.coolingTime == now
  {
  }

  /** Below the target, running past the time limit is a fault; the relay is left as it was on that tick. */
  lemma HeatingTimeout(k: Kettle, now: Millis, mug: bool, water: bool, t: real)
    requires k.state == Heating && t < TARGET_TEMPERATURE
    ensures var k1 := Step(k, now, mug, water, t);
      && (Elapsed(now, k.heatingTime) > MAX_HEATING_TIME ==>
            k1.state == Error && k1.errorMessage == MSG_TOO_LONG && k1.relayHigh == k.relayHigh)
      && (Elapsed(now, k.heatingTime) <= MAX_HEATING_TIME ==>
            k1.state == Heating && k1.relayHigh && k1.heatingTime == k.heatingTime)
  {
  }

  /** POST_HEAT leaves only once the cooldown has strictly passed; before that nothing changes. */
  lemma CooldownStrict(k: Kettle, now: Millis, mug: bool, water: bool, t: real)
    requires k.state == PostHeat
    ensures var k1 := Step(k, now, mug, water, t);
      && (Elapsed(now, k.coolingTime) > COOLDOWN_TIME ==> k1.state == Idle && k1.startIsr)
      && (Elapsed(now, k.coolingTime) <= COOLDOWN_TIME ==> k1 == k)
  {
  }

  /** An ERROR tick always drains to IDLE in one step, relay low, LED red, the message printed once. */
  lemma ErrorDrains(k: Kettle, now: Millis, mug: bool, water: bool, t: real)
    requires k.state == Error
    ensures var k1 := Step(k, now, mug, water, t);
      k1.state == Idle && !k1.relayHigh && k1.led == LED_ERROR && k1.serial == k.serial + [k.errorMessage]
  {
  }

  /**
   * A mug or water edge while the interlocks are attached faults the kettle
   * whatever its state, and the next tick switches the relay off.
   */
  lemma InterlockFaultStopsRelay(k: Kettle, e: Event, now: Millis, mug: bool, water: bool, t: real)
    requires e == MugFalling || e == WaterFalling
    requires k.interlockIsrs
    ensures var k1 := Apply(k, e);
      && k1.state == Error
      && k1.errorMessage == (if e == MugFalling then MSG_MUG_MOVED else MSG_WATER_LOST)
      && var k2 := Step(k1, now, mug, water, t);
         k2.state == Idle && !k2.relayHigh && k2.serial == k.serial + [k1.errorMessage]
  {
  }

  /**
   * A full heating cycle from an armed, idle kettle: button, timer, both
   * checks passing, target reached, cooldown elapsed. The relay is on only
   * in HEATING, and the kettle ends IDLE with the button re-armed.
   */
  lemma HeatingCycle(k: Kettle, t0: Millis, t1: Millis, t2: Millis, t3: Millis, t4: Millis,
                     cold: real, hot: real)
    requires k.state == Idle && k.startIsr && !k.relayHigh
    requires Elapsed(t1, t0) >= START_DELAY
    requires cold < TARGET_TEMPERATURE <= hot
    requires Elapsed(t3, t2) <= MAX_HEATING_TIME
    requires Elapsed(t4, t3) > COOLDOWN_TIME
    ensures var heating := Run(k, [StartRising, Tick(t0, true, true, cold), Tick(t1, true, true, cold),
                                   Tick(t2, true, true, cold), Tick(t3, true, true, cold)]);
      heating.state == Heating && heating.relayHigh
    ensures var cooling := Run(k, [StartRising, Tick(t0, true, true, cold), Tick(t1, true, true, cold),
                                   Tick(t2, true, true, cold), Tick(t3, true, true, hot)]);
      cooling.state == PostHeat && !cooling.relayHigh && cooling.coolingTime == t3
    ensures var done := Run(k, [StartRising, Tick(t0, true, true, cold), Tick(t1, true, true, cold),
                                Tick(t2, true, true, cold), Tick(t3, true, true, hot), Tick(t4, true, true, cold)]);
      done.state == Idle && !done.relayHigh && done.startIsr
  {
    var start := [StartRising, Tick(t0, true, true, cold), Tick(t1, true, true, cold),
                  Tick(t2, true, true, cold)];
    var k1 := Apply(k, StartRising);
    var k2 := Step(k1, t0, true, true, cold);
    var k3 := Step(k2, t1, true, true, cold);
    assert k3.state == PostInit;
    var k4 := Step(k3, t2, true, true, cold);
    assert k4.state == Heating && k4.heatingTime == t2 && k4.relayHigh;
    var s1 := start[1..];
    var s2 := s1[1..];
    var s3 := s2[1..];
    assert s3 == [Tick(t2, true, true, cold)] && s3[1..] == [];
    assert Run(k3, s3) == k4;
    assert Run(k2, s2) == Run(k3, s3);
    assert Run(k1, s1) == Run(k2, s2);
    assert Run(k, start) == Run(k1, s1);
    var hot3, cold3 := Tick(t3, true, true, hot), Tick(t3, true, true, cold);
    RunAppend(k, start, [cold3]);
    assert start + [cold3] == [StartRising, Tick(t0, true, true, cold), Tick(t1, true, true, cold),
                               Tick(t2, true, true, cold), cold3];
    RunAppend(k, start, [hot3]);
    assert start + [hot3] == [StartRising, Tick(t0, true, true, cold), Tick(t1, true, true, cold),
                              Tick(t2, true, true, cold), hot3];
    var k5 := Step(k4, t3, true, true, hot);
    assert [hot3][1..] == [];
    assert Run(k, start + [hot3]) == k5;
    RunAppend(k, start + [hot3], [Tick(t4, true, true, cold)]);
    assert [Tick(t4, true, true, cold)][1..] == [];
    assert start + [hot3] + [Tick(t4, true, true, cold)]
        == [StartRising, Tick(t0, true, true, cold), Tick(t1, true, true, cold),
            Tick(t2, true, true, cold), hot3, Tick(t4, true, true, cold)];
  }

  /**
   * As written, a mug or water fault during POST_HEAT ends in IDLE with the
   * start button still detached: later presses are ignored until a reboot.
   */
  lemma PostHeatFaultDisarmsStart(k: Kettle, e: Event, now: Millis, mug: bool, water: bool, t: real)
    requires Safe(k) && k.state == PostHeat
    requires e == MugFalling || e == WaterFalling
    ensures var k2 := Step(Apply(k, e), now, mug, water, t);
      k2.state == Idle && !k2.startIsr && Apply(k2, StartRising) == k2
  {
  }

  /**
   * As written, the start button stays attached during HEATING: a press
   * restarts the sequence while the relay stays on through PRE_INIT and IDLE.
   */
  lemma PressDuringHeatingKeepsRelay(k: Kettle, now: Millis, mug: bool, water: bool, t: real)
    requires k.state == Heating && k.relayHigh && k.startIsr
    ensures var k2 := Step(Apply(k, StartRising), now, mug, water, t);
      k2.state == Idle && k2.relayHigh
  {
  }

  /** The sketch's globals, updated in place by the loop, the interrupts and the timer. */
  class Controller {
    var state: KettleState
    var heatingTime: Millis
    var coolingTime: Millis
    var errorMessage: string
    var relayHigh: bool
    var led: Rgb
    var startIsr: bool
    var interlockIsrs: bool
    var timerRunning: bool
    var timerStart: Millis
    var serial: seq<string>

    function Snapshot(): Kettle
      reads this
    {
      Kettle(state, heatingTime, coolingTime, errorMessage, relayHigh, led,
             startIsr, interlockIsrs, timerRunning, timerStart, serial)
    }

    ghost predicate Valid()
      reads this
    {
      Safe(Snapshot())
    }

    /** setup(): globals at their initial values and the start interrupt attached. */
    constructor Setup()
      ensures Valid() && Snapshot() == BOOT
    {
      state, heatingTime, coolingTime, errorMessage := Idle, 0, 0, "";
      relayHigh, led, startIsr, interlockIsrs := false, LED_OFF, true, false;
      timerRunning, timerStart, serial := false, 0, [];
    }

    /** loop(): dispatch on the state. */
    method Tick(now: Millis, mug: bool, water: bool, temperature: real)
      requires Valid()
      modifies this
      ensures Valid()
      ensures Snapshot() == Step(old(Snapshot()), now, mug, water, temperature)
    {
      ApplyKeepsSafe(Snapshot(), Event.Tick(now, mug, water, temperature));
      match state
      case Idle => IdleHandle(now);
      case PreInit => PreInitHandle(now);
      case PostInit => PostInitHandle(now, mug, water);
      case Heating => HeatingHandle(now, temperature);
      case PostHeat => PostHeatingHandle(now);
      case Error => ErrorHandle();
    }

    method IdleHandle(now: Millis)
      modifies this
      ensures Snapshot() == IdleStep(old(Snapshot()), now)
    {
      // startTimer.update(): a due one-shot timer stops and runs its callback
      if timerRunning && Elapsed(now, timerStart) >= START_DELAY {
        timerRunning := false;
        OnStartTimer();
      }
      led := LED_IDLE;
    }

    method PreInitHandle(now: Millis)
      modifies this
      ensures Snapshot() == PreInitStep(old(Snapshot()), now)
    {
      timerRunning, timerStart := true, now;
      state := Idle;
    }

    method OnStartPressISR()
      modifies this
      ensures Snapshot() == Pressed(old(Snapshot()))
    {
      state := PreInit;
    }

    method OnStartTimer()
      modifies this
      ensures Snapshot() == TimerExpired(old(Snapshot()))
    {
      state := PostInit;
    }

    method PostInitHandle(now: Millis, mug: bool, water: bool)
      modifies this
      ensures Snapshot() == PostInitStep(old(Snapshot()), now, mug, water)
    {
      if !mug {
        ErrorState(MSG_NO_MUG);
        return;
      }
      if !water {
        ErrorState(MSG_NO_WATER);
        return;
      }
      state := Heating;
      led := LED_HEATING;
      interlockIsrs := true;
      heatingTime := now;
      relayHigh := true;
    }

    method HeatingHandle(now: Millis, temperature: real)
      modifies this
      ensures Snapshot() == HeatingStep(old(Snapshot()), now, temperature)
    {
      if temperature >= TARGET_TEMPERATURE {
        state := PostHeat;
        relayHigh := false;
        startIsr := false;
        led := LED_COOLING;
        coolingTime := now;
      } else if Elapsed(now, heatingTime) > MAX_HEATING_TIME {
        state := Error;
        errorMessage := MSG_TOO_LONG;
      } else {
        state := Heating;
        relayHigh := true;
      }
    }

    method PostHeatingHandle(now: Millis)
      modifies this
      ensures Snapshot() == PostHeatStep(old(Snapshot()), now)
    {
      if Elapsed(now, coolingTime) > COOLDOWN_TIME {
        state := Idle;
        startIsr := true;
      }
    }

    method ErrorHandle()
      modifies this
      ensures Snapshot() == ErrorStep(old(Snapshot()))
    {
      serial := serial + [errorMessage];
      relayHigh := false;
      led := LED_ERROR;
      state := Idle;
    }

    method ErrorState(msg: string)
      modifies this
      ensures Snapshot() == Faulted(old(Snapshot()), msg)
    {
      state := Error;
      errorMessage := msg;
    }

    method ErrorMug()
      modifies this
      ensures Snapshot() == MugMoved(old(Snapshot()))
    {
      state := Error;
      errorMessage := MSG_MUG_MOVED;
    }

    method ErrorWater()
      modifies this
      ensures Snapshot() == WaterLost(old(Snapshot()))
    {
      state := Error;
      errorMessage := MSG_WATER_LOST;
    }

    /** A rising edge on the start button; it reaches onStartPressISR only while attached. */
    method StartButtonRising()
      requires Valid()
      modifies this
      ensures Valid()
      ensures Snapshot() == Apply(old(Snapshot()), StartRising)
    {
      ApplyKeepsSafe(Snapshot(), StartRising);
      if startIsr { OnStartPressISR(); }
    }

    /** A falling edge on the mug switch; it reaches errorMug only while attached. */
    method MugSwitchFalling()
      requires Valid()
      modifies this
      ensures Valid()
      ensures Snapshot() == Apply(old(Snapshot()), MugFalling)
    {
      ApplyKeepsSafe(Snapshot(), MugFalling);
      if interlockIsrs { ErrorMug(); }
    }

    /** A falling edge on the water switch; it reaches errorWater only while attached. */
    method WaterSwitchFalling()
      requires Valid()
      modifies this
      ensures Valid()
      ensures Snapshot() == Apply(old(Snapshot()), WaterFalling)
    {
      ApplyKeepsSafe(Snapshot(), WaterFalling);
      if interlockIsrs { ErrorWater(); }
    }
  }
}
