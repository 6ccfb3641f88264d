/** The PWM key emulator: one state machine per axis mapped to a pair of keys.
    Within each period of length `tmax` a key is pressed while the axis is out of
    the deadzone and released once the elapsed time exceeds |v| * tmax, so the
    key is held for a fraction |v| of the period. */
module Pwm {
  import opened Events

  /** The phase of a channel; the program stores it as 0, 1 and 2. */
  datatype Phase =
    | Idle      // 0: nothing pressed in this period yet
    | Pressed   // 1: a key was pressed in this period and not yet released
    | Released  // 2: the key of this period was released; wait for the period to end

  /** The mutable slots of one channel: the time elapsed in the current period and the phase. */
  datatype Channel = Channel(elapsed: real, phase: Phase)

  const Start: Channel := Channel(0.0, Idle)

  /** The new channel and the key events of one step. */
  datatype Step = Step(next: Channel, out: seq<Output>)

  /** The key chosen by the sign of the axis value: `negative` below zero, else `positive`. */
  function KeyFor(keys: KeyPair, v: real): (k: Key)
    ensures k == keys.negative <==> v < 0.0 || keys.negative == keys.positive
  {
    if v < 0.0 then keys.negative else keys.positive
  }

  /** Adding the tick's delta, and starting a new period (elapsed 0, phase Idle)
      once the elapsed time reaches the period. */
  function Advance(c: Channel, d: real, tmax: real): (a: Channel)
    ensures 0.0 < tmax ==> a.elapsed < tmax
    ensures 0.0 <= c.elapsed + d ==> 0.0 <= a.elapsed
    ensures a.phase == Idle || a.phase == c.phase
    ensures a.elapsed != c.elapsed + d ==> a == Start
  {
    if c.elapsed + d >= tmax then Start else Channel(c.elapsed + d, c.phase)
  }

  /** Whether the step presses: the channel is Idle after the rollover check and
      the axis is outside the deadzone. */
  predicate Presses(c: Channel, v: real, d: real, tmax: real, deadzone: real)
  {
    Advance(c, d, tmax).phase == Idle && Abs(v) > deadzone
  }

  /** The phase once the press rule has run. */
  function PhaseAfterPress(c: Channel, v: real, d: real, tmax: real, deadzone: real): (p: Phase)
  {
    if Presses(c, v, d, tmax, deadzone) then Pressed else Advance(c, d, tmax).phase
  }

  /** Whether the step releases: the channel is Pressed after the press rule and
      the elapsed time exceeds |v * tmax|. */
  predicate Releases(c: Channel, v: real, d: real, tmax: real, deadzone: real)
  {
    PhaseAfterPress(c, v, d, tmax, deadzone) == Pressed && Advance(c, d, tmax).elapsed > Abs(v * tmax)
  }

  /** One tick of one channel: rollover, then the press rule, then the release rule.
      Both keys are chosen by the sign of the axis value at this tick. */
  function ChannelStep(c: Channel, v: real, d: real, tmax: real, deadzone: real, keys: KeyPair): (st: Step)
    ensures st.next.elapsed == Advance(c, d, tmax).elapsed
    ensures |st.out| <= 2
    ensures forall i | 0 <= i < |st.out| ::
      st.out[i] == KeyPress(KeyFor(keys, v)) || st.out[i] == KeyRelease(KeyFor(keys, v))
  {
    var a := Advance(c, d, tmax);
    var press := Presses(c, v, d, tmax, deadzone);
    var release := Releases(c, v, d, tmax, deadzone);
    var phase := if release then Released else PhaseAfterPress(c, v, d, tmax, deadzone);
    Step(Channel(a.elapsed, phase),
         (if press then [KeyPress(KeyFor(keys, v))] else []) +
         (if release then [KeyRelease(KeyFor(keys, v))] else []))
  }

  /** The elapsed time stays within the period: with a non-negative delta it is in
      [0, tmax) after every step, and a rollover sets it to 0 and the phase to Idle
      before the press rule runs. */
  lemma ElapsedBound(c: Channel, v: real, d: real, tmax: real, deadzone: real, keys: KeyPair)
    requires 0.0 <= c.elapsed && 0.0 <= d && 0.0 < tmax
    ensures var n := ChannelStep(c, v, d, tmax, deadzone, keys).next;
      0.0 <= n.elapsed < tmax &&
      (c.elapsed + d >= tmax ==> n.elapsed == 0.0 && Advance(c, d, tmax).phase == Idle) &&
      (c.elapsed + d < tmax ==> n.elapsed == c.elapsed + d)
  {
  }

  /** The press rule: a step emits a press exactly when the channel is Idle after
      the rollover check and |v| > deadzone; the key follows the sign of v and the
      channel leaves Idle. */
  lemma PressRule(c: Channel, v: real, d: real, tmax: real, deadzone: real, keys: KeyPair, k: Key)
    ensures var s := ChannelStep(c, v, d, tmax, deadzone, keys);
      (KeyPress(k) in s.out <==>
        Advance(c, d, tmax).phase == Idle && Abs(v) > deadzone && k == KeyFor(keys, v)) &&
      (Presses(c, v, d, tmax, deadzone) ==> s.next.phase != Idle)
  {
  }

  /** Inside the deadzone a step never presses. */
  lemma DeadzoneNoPress(c: Channel, v: real, d: real, tmax: real, deadzone: real, keys: KeyPair, k: Key)
    requires Abs(v) <= deadzone
    ensures KeyPress(k) !in ChannelStep(c, v, d, tmax, deadzone, keys).out
  {
  }

  /** The release rule: a step emits a release exactly when the channel is Pressed
      after the press rule and the elapsed time exceeds |v * tmax|; the key follows
      the sign of v at this tick (not at the press), and the phase becomes Released. */
  lemma ReleaseRule(c: Channel, v: real, d: real, tmax: real, deadzone: real, keys: KeyPair, k: Key)
    ensures var s := ChannelStep(c, v, d, tmax, deadzone, keys);
      (KeyRelease(k) in s.out <==>
        PhaseAfterPress(c, v, d, tmax, deadzone) == Pressed &&
        Advance(c, d, tmax).elapsed > Abs(v * tmax) && k == KeyFor(keys, v)) &&
      (Releases(c, v, d, tmax, deadzone) ==> s.next.phase == Released)
  {
  }

  /** A step emits at most one press and one release, the press first. */
  lemma StepOutputShape(c: Channel, v: real, d: real, tmax: real, deadzone: real, keys: KeyPair)
    ensures var s := ChannelStep(c, v, d, tmax, deadzone, keys);
      |s.out| <= 2 &&
      (forall i | 0 <= i < |s.out| :: s.out[i] in {KeyPress(KeyFor(keys, v)), KeyRelease(KeyFor(keys, v))}) &&
      (|s.out| == 2 ==> s.out == [KeyPress(KeyFor(keys, v)), KeyRelease(KeyFor(keys, v))])
  {
  }

  /** Released is left only through a rollover: until the period ends the channel
      only counts time and emits nothing. */
  lemma ReleasedWaits(c: Channel, v: real, d: real, tmax: real, deadzone: real, keys: KeyPair)
    requires c.phase == Released && c.elapsed + d < tmax
    ensures ChannelStep(c, v, d, tmax, deadzone, keys) == Step(Channel(c.elapsed + d, Released), [])
  {
  }

  /** A rollover while Pressed resets the phase without releasing the key: the step
      emits no release, and a press again if the axis is still out of the deadzone. */
  lemma RolloverKeepsKeyDown(c: Channel, v: real, d: real, tmax: real, deadzone: real, keys: KeyPair)
    requires c.phase == Pressed && c.elapsed + d >= tmax && 0.0 < tmax
    ensures var s := ChannelStep(c, v, d, tmax, deadzone, keys);
      s.out == (if Abs(v) > deadzone then [KeyPress(KeyFor(keys, v))] else []) &&
      s.next == (if Abs(v) > deadzone then Channel(0.0, Pressed) else Start)
  {
    assert !(0.0 > Abs(v * tmax));
  }

  lemma AtLeastPeriod(v: real, tmax: real)
    requires Abs(v) >= 1.0 && 0.0 < tmax
    ensures Abs(v * tmax) >= tmax
  {
    if v < 0.0 {
      assert v * tmax <= -1.0 * tmax;
    } else {
      assert v * tmax >= 1.0 * tmax;
    }
  }

  /** At full deflection the key is never released: the elapsed time cannot exceed
      |v| * tmax >= tmax within a period, so the key is pressed again every period. */
  lemma FullDeflectionNoRelease(c: Channel, v: real, d: real, tmax: real, deadzone: real, keys: KeyPair, k: Key)
    requires Abs(v) >= 1.0 && 0.0 < tmax && 0.0 <= d
    ensures KeyRelease(k) !in ChannelStep(c, v, d, tmax, deadzone, keys).out
  {
    var a := Advance(c, d, tmax);
    assert a.elapsed < tmax;
    AtLeastPeriod(v, tmax);
    assert !(a.elapsed > Abs(v * tmax));
  }

  // ---------------------------------------------------------------------------
  // Several ticks of one channel

  /** One tick's input to a channel: the axis value and the time delta. */
  datatype Sample = Sample(v: real, d: real)

  /** The channel driven through `samples` in order, with all key events emitted. */
  function Run(c: Channel, samples: seq<Sample>, tmax: real, deadzone: real, keys: KeyPair): (st: Step)
    decreases |samples|
  {
    if samples == [] then Step(c, [])
    else
      var s := ChannelStep(c, samples[0].v, samples[0].d, tmax, deadzone, keys);
      var rest := Run(s.next, samples[1..], tmax, deadzone, keys);
      Step(rest.next, s.out + rest.out)
  }

  /** Starting anywhere in [0, tmax), with non-negative deltas, the elapsed time is
      in [0, tmax) after any number of ticks. */
  lemma {:induction false} RunElapsedBound(c: Channel, samples: seq<Sample>, tmax: real, deadzone: real, keys: KeyPair)
    requires 0.0 <= c.elapsed < tmax
    requires forall i | 0 <= i < |samples| :: samples[i].d >= 0.0
    ensures var r := Run(c, samples, tmax, deadzone, keys).next; 0.0 <= r.elapsed < tmax
    decreases |samples|
  {
    if samples != [] {
      ElapsedBound(c, samples[0].v, samples[0].d, tmax, deadzone, keys);
      var s := ChannelStep(c, samples[0].v, samples[0].d, tmax, deadzone, keys);
      RunElapsedBound(s.next, samples[1..], tmax, deadzone, keys);
    }
  }

  /** An axis that stays inside the deadzone never presses a key, over any number
      of ticks. */
  lemma {:induction false} RunDeadzoneNoPress(c: Channel, samples: seq<Sample>, tmax: real, deadzone: real, keys: KeyPair, k: Key)
    requires forall i | 0 <= i < |samples| :: Abs(samples[i].v) <= deadzone
    ensures KeyPress(k) !in Run(c, samples, tmax, deadzone, keys).out
    decreases |samples|
  {
    if samples != [] {
      DeadzoneNoPress(c, samples[0].v, samples[0].d, tmax, deadzone, keys, k);
      var s := ChannelStep(c, samples[0].v, samples[0].d, tmax, deadzone, keys);
      RunDeadzoneNoPress(s.next, samples[1..], tmax, deadzone, keys, k);
    }
  }

  /** At full deflection no key is ever released, over any number of ticks. */
  lemma {:induction false} RunFullDeflectionNoRelease(c: Channel, samples: seq<Sample>, tmax: real, deadzone: real, keys: KeyPair, k: Key)
    requires 0.0 < tmax
    requires forall i | 0 <= i < |samples| :: Abs(samples[i].v) >= 1.0 && samples[i].d >= 0.0
    ensures KeyRelease(k) !in Run(c, samples, tmax, deadzone, keys).out
    decreases |samples|
  {
    if samples != [] {
      FullDeflectionNoRelease(c, samples[0].v, samples[0].d, tmax, deadzone, keys, k);
      var s := ChannelStep(c, samples[0].v, samples[0].d, tmax, deadzone, keys);
      RunFullDeflectionNoRelease(s.next, samples[1..], tmax, deadzone, keys, k);
    }
  }

  /** The time a run of samples covers: the sum of its deltas. */
  function Total(samples: seq<Sample>): (t: real)
    ensures (forall i | 0 <= i < |samples| :: samples[i].d >= 0.0) ==> t >= 0.0
    decreases |samples|
  {
    if samples == [] then 0.0 else samples[0].d + Total(samples[1..])
  }

  /** A steady axis: every sample has value `v` and a non-negative delta. */
  predicate Steady(samples: seq<Sample>, v: real)
  {
    forall i | 0 <= i < |samples| :: samples[i].v == v && samples[i].d >= 0.0
  }

  /** A released channel stays quiet until its period ends: it only counts time. */
  lemma {:induction false} ReleasedQuiet(e: real, samples: seq<Sample>, tmax: real, deadzone: real, keys: KeyPair)
    requires forall i | 0 <= i < |samples| :: samples[i].d >= 0.0
    requires e + Total(samples) < tmax
    ensures Run(Channel(e, Released), samples, tmax, deadzone, keys) == Step(Channel(e + Total(samples), Released), [])
    decreases |samples|
  {
    if samples != [] {
      var rest := samples[1..];
      assert forall i | 0 <= i < |rest| :: rest[i].d >= 0.0 by {
        forall i | 0 <= i < |rest| ensures rest[i].d >= 0.0 {
          assert rest[i] == samples[i + 1];
        }
      }
      var e' := e + samples[0].d;
      ReleasedWaits(Channel(e, Released), samples[0].v, samples[0].d, tmax, deadzone, keys);
      ReleasedQuiet(e', rest, tmax, deadzone, keys);
    }
  }

  /** The duty cycle, from a key already down: at a steady axis value `v`, within
      one period, the key is released exactly once the elapsed time exceeds
      |v * tmax|, and nothing else is emitted. */
  lemma {:induction false} PressedDuty(e: real, samples: seq<Sample>, v: real, tmax: real, deadzone: real, keys: KeyPair)
    requires 0.0 <= e <= Abs(v * tmax)
    requires Steady(samples, v)
    requires e + Total(samples) < tmax
    ensures Run(Channel(e, Pressed), samples, tmax, deadzone, keys).out ==
            if e + Total(samples) > Abs(v * tmax) then [KeyRelease(KeyFor(keys, v))] else []
    decreases |samples|
  {
    if samples != [] {
      var rest := samples[1..];
      assert Steady(rest, v) by {
        forall i | 0 <= i < |rest| ensures rest[i].v == v && rest[i].d >= 0.0 {
          assert rest[i] == samples[i + 1];
        }
      }
      var d := samples[0].d;
      var e' := e + d;
      var s := ChannelStep(Channel(e, Pressed), v, d, tmax, deadzone, keys);
      assert samples[0].v == v && d >= 0.0;
      assert Total(rest) >= 0.0;
      assert e' < tmax;
      if e' > Abs(v * tmax) {
        assert s == Step(Channel(e', Released), [KeyRelease(KeyFor(keys, v))]);
        ReleasedQuiet(e', rest, tmax, deadzone, keys);
      } else {
        assert s == Step(Channel(e', Pressed), []);
        PressedDuty(e', rest, v, tmax, deadzone, keys);
      }
    }
  }

  /** The duty cycle over a period from its start: at a steady axis value out of
      the deadzone the first tick presses the key for the sign of `v`, and the
      same key is released exactly once the elapsed time exceeds |v * tmax|, so
      it is down for a fraction |v| of the period. */
  lemma StartDuty(samples: seq<Sample>, v: real, tmax: real, deadzone: real, keys: KeyPair)
    requires samples != [] && Steady(samples, v) && Total(samples) < tmax
    requires Abs(v) > deadzone
    ensures Run(Start, samples, tmax, deadzone, keys).out ==
            [KeyPress(KeyFor(keys, v))] +
            (if Total(samples) > Abs(v * tmax) then [KeyRelease(KeyFor(keys, v))] else [])
  {
    var rest := samples[1..];
    assert Steady(rest, v) by {
      forall i | 0 <= i < |rest| ensures rest[i].v == v && rest[i].d >= 0.0 {
        assert rest[i] == samples[i + 1];
      }
    }
    var d := samples[0].d;
    var s := ChannelStep(Start, v, d, tmax, deadzone, keys);
    assert samples[0].v == v && d >= 0.0;
    assert Total(rest) >= 0.0;
    assert d < tmax;
    if d > Abs(v * tmax) {
      assert s == Step(Channel(d, Released), [KeyPress(KeyFor(keys, v)), KeyRelease(KeyFor(keys, v))]);
      ReleasedQuiet(d, rest, tmax, deadzone, keys);
    } else {
      assert s == Step(Channel(d, Pressed), [KeyPress(KeyFor(keys, v))]);
      PressedDuty(d, rest, v, tmax, deadzone, keys);
    }
  }

  /** The release key follows the sign at release time: with the shipped period
      (0.1 s), deadzone (0.15) and keys ("a", "d"), an axis at 0.5 presses "d",
      and when it swings to -0.5 before the release the channel releases "a",
      leaving "d" held. */
  lemma SignFlipReleasesOtherKey()
    ensures Run(Start, [Sample(0.5, 0.0), Sample(-0.5, 0.06)], 0.1, 0.15, KeyPair("a", "d")).out
      == [KeyPress("d"), KeyRelease("a")]
  {
    var keys := KeyPair("a", "d");
    var s1 := ChannelStep(Start, 0.5, 0.0, 0.1, 0.15, keys);
    assert s1 == Step(Channel(0.0, Pressed), [KeyPress("d")]);
    var s2 := ChannelStep(s1.next, -0.5, 0.06, 0.1, 0.15, keys);
    assert s2 == Step(Channel(0.06, Released), [KeyRelease("a")]);
  }

  /** A rollover while a key is held can press the other key: "d" is pressed at
      0.5, the period ends before the release, and at -0.5 "a" is pressed with
      "d" still down. */
  lemma RolloverPressesSecondKey()
    ensures Run(Start, [Sample(0.5, 0.0), Sample(-0.5, 0.1)], 0.1, 0.15, KeyPair("a", "d")).out
      == [KeyPress("d"), KeyPress("a")]
  {
    var keys := KeyPair("a", "d");
    var s1 := ChannelStep(Start, 0.5, 0.0, 0.1, 0.15, keys);
    assert s1 == Step(Channel(0.0, Pressed), [KeyPress("d")]);
    var s2 := ChannelStep(s1.next, -0.5, 0.1, 0.1, 0.15, keys);
    assert s2 == Step(Channel(0.0, Pressed), [KeyPress("a")]);
  }
}
