/** The joystick-to-keyboard/mouse translator: the state the program keeps in
    globals and in `main`'s locals, as one object, and one pass of `main`'s loop
    as `Tick`. Every keyboard or mouse call is appended to `events`. */
module Translator {
  import opened Events
  import opened Decoder
  import opened Names
  import opened Pwm
  import opened Mouse

  /** Every name the configuration uses appears in the device's name tables
      (the program raises a KeyError on its first tick otherwise). */
  predicate NamesFit(cfg: Config, axisMap: seq<string>, buttonMap: seq<string>)
  {
    (forall i | 0 <= i < |cfg.pwm| :: cfg.pwm[i].axis in axisMap) &&
    (forall i | 0 <= i < |cfg.mouse| :: (cfg.mouse[i].target == MouseX || cfg.mouse[i].target == MouseY) ==> cfg.mouse[i].axis in axisMap) &&
    (forall i | 0 <= i < |cfg.buttons| :: cfg.buttons[i].button in buttonMap)
  }

  /** The PWM channels after one pass over all mappings, and the key events of
      the pass in mapping order. */
  datatype PwmResult = PwmResult(channels: seq<Channel>, out: seq<Output>)

  function PwmAll(cs: seq<Channel>, ms: seq<PwmMapping>, axes: map<string, real>,
                  d: real, tmax: real, deadzone: real): (r: PwmResult)
    requires |cs| == |ms|
    requires forall i | 0 <= i < |ms| :: ms[i].axis in axes
    ensures |r.channels| == |cs|
    ensures |r.out| <= 2 * |cs|
    decreases |cs|
  {
    if cs == [] then PwmResult([], [])
    else
      var n := |cs| - 1;
      var prev := PwmAll(cs[..n], ms[..n], axes, d, tmax, deadzone);
      var s := ChannelStep(cs[n], axes[ms[n].axis], d, tmax, deadzone, ms[n].keys);
      PwmResult(prev.channels + [s.next], prev.out + s.out)
  }

  /** Channel `i` of a pass is that channel stepped with its own axis value. */
  lemma {:induction false} PwmAllChannels(cs: seq<Channel>, ms: seq<PwmMapping>, axes: map<string, real>,
                                          d: real, tmax: real, deadzone: real)
    requires |cs| == |ms|
    requires forall i | 0 <= i < |ms| :: ms[i].axis in axes
    ensures forall i | 0 <= i < |cs| ::
      PwmAll(cs, ms, axes, d, tmax, deadzone).channels[i] ==
      ChannelStep(cs[i], axes[ms[i].axis], d, tmax, deadzone, ms[i].keys).next
    decreases |cs|
  {
    if cs != [] {
      var n := |cs| - 1;
      PwmAllChannels(cs[..n], ms[..n], axes, d, tmax, deadzone);
    }
  }

  /** Extending a pass by one more channel appends that channel's step. */
  lemma PwmAllSnoc(cs: seq<Channel>, ms: seq<PwmMapping>, axes: map<string, real>,
                   d: real, tmax: real, deadzone: real, i: nat)
    requires |cs| == |ms| && i < |cs|
    requires forall j | 0 <= j < |ms| :: ms[j].axis in axes
    ensures var prev, s := PwmAll(cs[..i], ms[..i], axes, d, tmax, deadzone),
                          ChannelStep(cs[i], axes[ms[i].axis], d, tmax, deadzone, ms[i].keys);
      PwmAll(cs[..i + 1], ms[..i + 1], axes, d, tmax, deadzone) == PwmResult(prev.channels + [s.next], prev.out + s.out)
  {
    assert cs[..i + 1][..i] == cs[..i];
    assert ms[..i + 1][..i] == ms[..i];
  }

  /** One iteration of the PWM loop: stepping channel `i` of a state that holds
      the first `i` channels stepped and the rest untouched gives the state with
      the first `i + 1` stepped. */
  lemma PwmLoopStep(cs: seq<Channel>, ms: seq<PwmMapping>, axes: map<string, real>,
                    d: real, tmax: real, deadzone: real, i: nat,
                    r: PwmResult, chans: seq<Channel>, s: Step)
    requires |cs| == |ms| && i < |cs|
    requires forall j | 0 <= j < |ms| :: ms[j].axis in axes
    requires r == PwmAll(cs[..i], ms[..i], axes, d, tmax, deadzone)
    requires chans == r.channels + cs[i..]
    requires s == ChannelStep(chans[i], axes[ms[i].axis], d, tmax, deadzone, ms[i].keys)
    ensures PwmAll(cs[..i + 1], ms[..i + 1], axes, d, tmax, deadzone) == PwmResult(r.channels + [s.next], r.out + s.out)
    ensures chans[i := s.next] == r.channels + [s.next] + cs[i + 1..]
  {
    PwmAllSnoc(cs, ms, axes, d, tmax, deadzone, i);
    assert cs[i..] == [cs[i]] + cs[i + 1..];
  }

  /** A pass over channels whose axes are all inside the deadzone presses no key. */
  lemma {:induction false} PwmAllDeadzoneNoPress(cs: seq<Channel>, ms: seq<PwmMapping>, axes: map<string, real>,
                                                 d: real, tmax: real, deadzone: real, k: Key)
    requires |cs| == |ms|
    requires forall i | 0 <= i < |ms| :: ms[i].axis in axes && Abs(axes[ms[i].axis]) <= deadzone
    ensures KeyPress(k) !in PwmAll(cs, ms, axes, d, tmax, deadzone).out
    decreases |cs|
  {
    if cs != [] {
      var n := |cs| - 1;
      PwmAllDeadzoneNoPress(cs[..n], ms[..n], axes, d, tmax, deadzone, k);
      DeadzoneNoPress(cs[n], axes[ms[n].axis], d, tmax, deadzone, ms[n].keys, k);
    }
  }

  /** The pass-through event of one button: press while its state is non-zero,
      release otherwise. */
  function ButtonEvent(b: ButtonMapping, states: map<string, int>): (o: Output)
    requires b.button in states
    ensures (o.MousePress? || o.MouseRelease?) && o.button == b.mouseButton
    ensures o.MousePress? <==> states[b.button] != 0
  {
    if states[b.button] != 0 then MousePress(b.mouseButton) else MouseRelease(b.mouseButton)
  }

  /** Exactly one event per mapped button per tick, in mapping order. */
  function ButtonEvents(bs: seq<ButtonMapping>, states: map<string, int>): (out: seq<Output>)
    requires forall i | 0 <= i < |bs| :: bs[i].button in states
    ensures |out| == |bs|
    ensures forall i | 0 <= i < |bs| ::
      (out[i] == MousePress(bs[i].mouseButton) <==> states[bs[i].button] != 0) &&
      (out[i] == MouseRelease(bs[i].mouseButton) <==> states[bs[i].button] == 0)
    decreases |bs|
  {
    if bs == [] then [] else ButtonEvents(bs[..|bs| - 1], states) + [ButtonEvent(bs[|bs| - 1], states)]
  }

  /** Axes that read zero add nothing to a mouse accumulator. */
  lemma {:induction false} IncrementOfRest(ms: seq<MouseMapping>, target: string, axes: map<string, real>)
    requires forall i | 0 <= i < |ms| :: ms[i].target == target ==> ms[i].axis in axes && axes[ms[i].axis] == 0.0
    ensures Increment(ms, target, axes) == 0.0
    decreases |ms|
  {
    if ms != [] {
      IncrementOfRest(ms[..|ms| - 1], target, axes);
    }
  }

  /** A tick at rest (every mapped axis and button at zero, with a non-negative
      deadzone) presses no key and moves no mouse, and releases every mapped mouse
      button: the pass-through emits its release on every tick. */
  lemma QuietTick(cfg: Config, cs: seq<Channel>, axes: map<string, real>, buttons: map<string, int>,
                  dx: real, dy: real, d: real, tmax: real, k: Key)
    requires |cs| == |cfg.pwm| && cfg.deadzone >= 0.0
    requires forall i | 0 <= i < |cfg.pwm| :: cfg.pwm[i].axis in axes && axes[cfg.pwm[i].axis] == 0.0
    requires forall i | 0 <= i < |cfg.mouse| :: (cfg.mouse[i].target == MouseX || cfg.mouse[i].target == MouseY) ==> cfg.mouse[i].axis in axes && axes[cfg.mouse[i].axis] == 0.0
    requires forall i | 0 <= i < |cfg.buttons| :: cfg.buttons[i].button in buttons && buttons[cfg.buttons[i].button] == 0
    requires -1.0 < dx < 1.0 && -1.0 < dy < 1.0
    ensures KeyPress(k) !in PwmAll(cs, cfg.pwm, axes, d, tmax, cfg.deadzone).out
    ensures MouseStep(dx, dy, Increment(cfg.mouse, MouseX, axes), Increment(cfg.mouse, MouseY, axes)).out == []
    ensures forall i | 0 <= i < |cfg.buttons| :: ButtonEvents(cfg.buttons, buttons)[i] == MouseRelease(cfg.buttons[i].mouseButton)
  {
    PwmAllDeadzoneNoPress(cs, cfg.pwm, axes, d, tmax, cfg.deadzone, k);
    IncrementOfRest(cfg.mouse, MouseX, axes);
    IncrementOfRest(cfg.mouse, MouseY, axes);
    MouseStepSpec(dx, dy, 0.0, 0.0);
  }

  /** One tick of one PWM channel with axis value `v`: count the delta, roll over
      at the end of the period, then the press rule and the release rule; `out`
      holds the keyboard calls made, in order. */
  method StepChannel(c: Channel, v: real, d: real, tmax: real, deadzone: real, keys: KeyPair)
    returns (next: Channel, out: seq<Output>)
    ensures next == ChannelStep(c, v, d, tmax, deadzone, keys).next
    ensures out == ChannelStep(c, v, d, tmax, deadzone, keys).out
  {
    out := [];
    var elapsed := c.elapsed + d;
    var phase := c.phase;
    if elapsed >= tmax {
      phase := Idle;
      elapsed := 0.0;
    }
    if phase == Idle && Abs(v) > deadzone {
      if v < 0.0 {
        out := out + [KeyPress(keys.negative)];
      } else {
        out := out + [KeyPress(keys.positive)];
      }
      phase := Pressed;
    }
    if phase == Pressed {
      if elapsed > Abs(v * tmax) {
        if v < 0.0 {
          out := out + [KeyRelease(keys.negative)];
        } else {
          out := out + [KeyRelease(keys.positive)];
        }
        phase := Released;
      }
    }
    next := Channel(elapsed, phase);
  }

  /** The loop of the PWM pass over the mappings `ms`, in order, on the channels
      `cs`: the channels it leaves and the keyboard calls it makes are those of
      `PwmAll`. */
  method StepChannels(cs: seq<Channel>, ms: seq<PwmMapping>, axes: map<string, real>,
                      d: real, tmax: real, deadzone: real)
    returns (chans: seq<Channel>, out: seq<Output>)
    requires |cs| == |ms|
    requires forall i | 0 <= i < |ms| :: ms[i].axis in axes
    ensures PwmResult(chans, out) == PwmAll(cs, ms, axes, d, tmax, deadzone)
  {
    chans, out := cs, [];
    ghost var r := PwmResult([], []);
    for i := 0 to |cs|
      invariant r == PwmAll(cs[..i], ms[..i], axes, d, tmax, deadzone)
      invariant chans == r.channels + cs[i..]
      invariant out == r.out
    {
      var next, o := StepChannel(chans[i], axes[ms[i].axis], d, tmax, deadzone, ms[i].keys);
      PwmLoopStep(cs, ms, axes, d, tmax, deadzone, i, r, chans, ChannelStep(chans[i], axes[ms[i].axis], d, tmax, deadzone, ms[i].keys));
      chans := chans[i := next];
      out := out + o;
      r := PwmResult(r.channels + [next], r.out + o);
    }
    assert cs[..|cs|] == cs && ms[..|cs|] == ms && cs[|cs|..] == [];
  }

  /** The loop of the button pass: press the mouse button of every mapped
      button that reads non-zero, release it otherwise, in mapping order. */
  method ButtonCalls(bs: seq<ButtonMapping>, states: map<string, int>) returns (out: seq<Output>)
    requires forall i | 0 <= i < |bs| :: bs[i].button in states
    ensures out == ButtonEvents(bs, states)
  {
    out := [];
    for i := 0 to |bs|
      invariant out == ButtonEvents(bs[..i], states)
    {
      var b := bs[i];
      assert bs[..i + 1][..i] == bs[..i];
      if states[b.button] != 0 {
        out := out + [MousePress(b.mouseButton)];
      } else {
        out := out + [MouseRelease(b.mouseButton)];
      }
    }
    assert bs[..|bs|] == bs;
  }

  /** The accumulation loop of the mouse pass: every mapping adds its axis value
      times its gain into the accumulator it targets, in mapping order; a mapping
      with any other target is skipped without reading its axis. */
  method Accumulate(ms: seq<MouseMapping>, axes: map<string, real>, dx: real, dy: real)
    returns (x: real, y: real)
    requires forall i | 0 <= i < |ms| :: ms[i].target == MouseX ==> ms[i].axis in axes
    requires forall i | 0 <= i < |ms| :: ms[i].target == MouseY ==> ms[i].axis in axes
    ensures x == dx + Increment(ms, MouseX, axes)
    ensures y == dy + Increment(ms, MouseY, axes)
  {
    x, y := dx, dy;
    for i := 0 to |ms|
      invariant x == dx + Increment(ms[..i], MouseX, axes)
      invariant y == dy + Increment(ms[..i], MouseY, axes)
    {
      var m := ms[i];
      IncrementSnoc(ms, i, MouseX, axes);
      IncrementSnoc(ms, i, MouseY, axes);
      if m.target == MouseX {
        x := x + Share(m, axes);
      }
      if m.target == MouseY {
        y := y + Share(m, axes);
      }
    }
    assert ms[..|ms|] == ms;
  }

  /** Entering one more name with the initial value keeps the state dictionary
      keyed by exactly the names so far. */
  lemma EnterName<V>(names: seq<string>, name: string, zero: V)
    ensures (map n | n in names :: zero)[name := zero] == map n | n in names + [name] :: zero
  {
  }

  /** Builds a name table from a device buffer, entering each name with its
      initial value into the state dictionary (`joy_init`'s two loops). */
  method CollectNames<V>(codes: seq<nat>, count: nat, table: map<nat, string>, width: nat, zero: V)
    returns (names: seq<string>, states: map<string, V>)
    ensures names == NameTable(codes, count, table, width)
    ensures states == map n | n in names :: zero
  {
    names, states := [], map[];
    var n := if count < |codes| then count else |codes|;
    for i := 0 to n
      invariant names == NameTable(codes, i, table, width)
      invariant states == map n | n in names :: zero
    {
      var name := NameOf(table, codes[i], width);
      NameTableSnoc(codes, i, table, width);
      EnterName(names, name, zero);
      names := names + [name];
      states := states[name := zero];
    }
  }

  class PwmJoy {
    const cfg: Config
    /** The PWM period, 1 / frequency. */
    const tmax: real
    /** Axis and button names by device index. */
    const axisMap: seq<string>
    const buttonMap: seq<string>

    /** Latest normalised value of each axis, latest raw value of each button. */
    var axisStates: map<string, real>
    var buttonStates: map<string, int>
    /** One channel per PWM mapping, in mapping order. */
    var channels: seq<Channel>
    /** Mouse accumulators and the integer parts moved out of them. */
    var dx: real
    var dy: real
    var x: int
    var y: int
    /** Every keyboard and mouse call made so far. */
    var events: seq<Output>

    /** The state between two ticks: the dictionaries hold exactly the device's
        names, the configuration's names are among them, stored axis values are
        normalised, elapsed times lie inside the period, the remainders are below
        1 in magnitude and the integer parts have been emitted. */
    ghost predicate Valid()
      reads this`axisStates, this`buttonStates, this`channels, this`dx, this`dy, this`x, this`y
    {
      cfg.freq > 0.0 && tmax > 0.0 &&
      (forall n :: n in axisStates <==> n in axisMap) &&
      (forall n :: n in buttonStates <==> n in buttonMap) &&
      NamesFit(cfg, axisMap, buttonMap) &&
      InRange(States(axisStates, buttonStates)) &&
      |channels| == |cfg.pwm| &&
      (forall i | 0 <= i < |channels| :: 0.0 <= channels[i].elapsed < tmax) &&
      -1.0 < dx < 1.0 && -1.0 < dy < 1.0 && x == 0 && y == 0
    }

    /** Opening the device: the name tables built from the device's axis and
        button code buffers through the given code tables, every state at zero,
        every channel Idle at the start of a period, empty accumulators. */
    constructor (cfg: Config, axisTable: map<nat, string>, axisCodes: seq<nat>, numAxes: nat,
                 buttonTable: map<nat, string>, buttonCodes: seq<nat>, numButtons: nat)
      requires cfg.freq > 0.0
      requires NamesFit(cfg, NameTable(axisCodes, numAxes, axisTable, AxisWidth),
                        NameTable(buttonCodes, numButtons, buttonTable, ButtonWidth))
      ensures Valid()
      ensures this.cfg == cfg && tmax == Period(cfg)
      ensures axisMap == NameTable(axisCodes, numAxes, axisTable, AxisWidth)
      ensures buttonMap == NameTable(buttonCodes, numButtons, buttonTable, ButtonWidth)
      ensures axisStates == map n | n in axisMap :: 0.0
      ensures buttonStates == map n | n in buttonMap :: 0
      ensures channels == seq(|cfg.pwm|, _ => Start)
      ensures dx == 0.0 && dy == 0.0 && events == []
    {
      var axes, axisValues := CollectNames(axisCodes, numAxes, axisTable, AxisWidth, 0.0);
      var buttons, buttonValues := CollectNames(buttonCodes, numButtons, buttonTable, ButtonWidth, 0);
      this.cfg := cfg;
      tmax := Period(cfg);
      axisMap, buttonMap := axes, buttons;
      axisStates, buttonStates := axisValues, buttonValues;
      var start := seq(|cfg.pwm|, _ => Start);
      assert forall i | 0 <= i < |start| :: start[i] == Start;
      assert NamesFit(cfg, axes, buttons);
      assert forall n :: n in axisValues <==> n in axes;
      assert forall n :: n in buttonValues <==> n in buttons;
      assert InRange(States(axisValues, buttonValues));
      channels := start;
      dx, dy, x, y := 0.0, 0.0, 0, 0;
      events := [];
    }

    /** `scan_joy`: apply at most one record to the state dictionaries. */
    method ScanJoy(read: ReadResult)
      requires Valid() && Decodable(read, |axisMap|, |buttonMap|)
      modifies this`axisStates, this`buttonStates
      ensures Valid()
      ensures States(axisStates, buttonStates) ==
              Scan(read, axisMap, buttonMap, old(States(axisStates, buttonStates)))
    {
      ScanKeepsRange(read, axisMap, buttonMap, States(axisStates, buttonStates));
      if read.NoData? {
        return;
      }
      if read.data == [] {
        return;
      }
      var e := Unpack(read.data);
      // the 0x80 bit only changes what a debug build prints
      if IsButton(e.kind) {
        var button := buttonMap[e.number];
        if button != "" {
          buttonStates := buttonStates[button := e.value];
        }
      }
      if IsAxis(e.kind) {
        var axis := axisMap[e.number];
        if axis != "" {
          axisStates := axisStates[axis := Normalize(e.value)];
        }
      }
    }

    /** Advances every PWM channel by `d`, in mapping order. */
    method PwmPass(d: real)
      requires Valid() && d >= 0.0
      modifies this`channels, this`events
      ensures Valid()
      ensures var r := PwmAll(old(channels), cfg.pwm, axisStates, d, tmax, cfg.deadzone);
        channels == r.channels && events == old(events) + r.out
    {
      ghost var cs := channels;
      var chans, out := StepChannels(channels, cfg.pwm, axisStates, d, tmax, cfg.deadzone);
      channels := chans;
      events := events + out;
      PwmAllChannels(cs, cfg.pwm, axisStates, d, tmax, cfg.deadzone);
      forall j | 0 <= j < |channels|
        ensures 0.0 <= channels[j].elapsed < tmax
      {
        ElapsedBound(cs[j], axisStates[cfg.pwm[j].axis], d, tmax, cfg.deadzone, cfg.pwm[j].keys);
      }
    }

    /** Adds every mapped axis times its gain into its accumulator, moves the
        integer parts out, and emits them as one move if either is non-zero. */
    method MousePass()
      requires Valid()
      modifies this`dx, this`dy, this`x, this`y, this`events
      ensures Valid()
      ensures var t := MouseStep(old(dx), old(dy), Increment(cfg.mouse, MouseX, axisStates),
                                 Increment(cfg.mouse, MouseY, axisStates));
        dx == t.dx && dy == t.dy && events == old(events) + t.out
    {
      var sx, sy := Accumulate(cfg.mouse, axisStates, dx, dy);
      MouseStepOfSums(dx, dy, Increment(cfg.mouse, MouseX, axisStates),
                      Increment(cfg.mouse, MouseY, axisStates), sx, sy);
      dx, dy := sx, sy;
      EmitMove();
    }

    /** The carry of the mouse pass: move the integer parts out of the
        accumulators and emit them. */
    method EmitMove()
      requires x == 0 && y == 0
      modifies this`dx, this`dy, this`x, this`y, this`events
      ensures var cx, cy := Carry(old(dx)), Carry(old(dy));
        dx == cx.rest && dy == cy.rest && x == 0 && y == 0 &&
        events == old(events) + (if cx.whole != 0 || cy.whole != 0 then [MouseMove(cx.whole, cy.whole)] else [])
    {
      if Trunc(Abs(dx)) > 0 {
        x := x + Trunc(dx);
        dx := dx - Trunc(dx) as real;
      }
      if Trunc(Abs(dy)) > 0 {
        y := y + Trunc(dy);
        dy := dy - Trunc(dy) as real;
      }
      if x != 0 || y != 0 {
        events := events + [MouseMove(x, y)];
        x, y := 0, 0;
      }
    }

    /** Passes every mapped button through to its mouse button. */
    method ButtonPass()
      requires Valid()
      modifies this`events
      ensures Valid()
      ensures events == old(events) + ButtonEvents(cfg.buttons, buttonStates)
    {
      var out := ButtonCalls(cfg.buttons, buttonStates);
      events := events + out;
    }

    /** One pass of the main loop: read at most one record, then advance the PWM
        channels by the elapsed time `d`, the mouse integrator and the button
        pass-through, all reading the updated state. */
    method Tick(read: ReadResult, d: real)
      requires Valid() && d >= 0.0 && Decodable(read, |axisMap|, |buttonMap|)
      modifies this
      ensures Valid()
      ensures States(axisStates, buttonStates) ==
              Scan(read, axisMap, buttonMap, old(States(axisStates, buttonStates)))
      ensures var p := PwmAll(old(channels), cfg.pwm, axisStates, d, tmax, cfg.deadzone);
              var m := MouseStep(old(dx), old(dy), Increment(cfg.mouse, MouseX, axisStates),
                                 Increment(cfg.mouse, MouseY, axisStates));
        channels == p.channels && dx == m.dx && dy == m.dy &&
        events == old(events) + p.out + m.out + ButtonEvents(cfg.buttons, buttonStates)
    {
      ScanJoy(read);
      PwmPass(d);
      MousePass();
      ButtonPass();
    }
  }

  /** `joy_init`: opening the device with the code tables of linux/input.h. */
  method Open(cfg: Config, axisCodes: seq<nat>, numAxes: nat, buttonCodes: seq<nat>, numButtons: nat)
    returns (joy: PwmJoy)
    requires cfg.freq > 0.0
    requires NamesFit(cfg, NameTable(axisCodes, numAxes, AxisNames, AxisWidth),
                      NameTable(buttonCodes, numButtons, ButtonNames, ButtonWidth))
    ensures fresh(joy) && joy.Valid()
    ensures joy.cfg == cfg && joy.tmax == Period(cfg)
    ensures joy.axisMap == NameTable(axisCodes, numAxes, AxisNames, AxisWidth)
    ensures joy.buttonMap == NameTable(buttonCodes, numButtons, ButtonNames, ButtonWidth)
    ensures joy.axisStates == map n | n in joy.axisMap :: 0.0
    ensures joy.buttonStates == map n | n in joy.buttonMap :: 0
    ensures joy.channels == seq(|cfg.pwm|, _ => Start)
    ensures joy.dx == 0.0 && joy.dy == 0.0 && joy.events == []
  {
    joy := new PwmJoy(cfg, AxisNames, axisCodes, numAxes, ButtonNames, buttonCodes, numButtons);
  }
}
