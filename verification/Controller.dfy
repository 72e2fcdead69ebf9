/** The lighting controller: a PI controller with feedforward whose integrator is recomputed on
    saturation, and the velocity form it is equal to. */
module Controller {
  const KP: real := 20.0
  const KI: real := 1500.0
  const MAX_PWM: real := 255.0

  /** One call's arguments; the sampling time is in microseconds. */
  datatype Input = Input(errorVoltage: real, samplingTime: nat, luxRef: real, systemGain: real, residualRead: real)

  /** Conversion to an integer, towards zero. */
  function Truncate(x: real): int {
    if x >= 0.0 then x.Floor else -((-x).Floor)
  }

  function Feedforward(i: Input): int
    requires i.systemGain != 0.0
  {
    Truncate((i.luxRef - i.residualRead) / i.systemGain)
  }

  /** `f` is the whole number next to `x / g` towards zero. */
  ghost predicate Towards(f: int, x: real, g: real) {
    && g != 0.0
    && Between(Size(f), Abs(x), Abs(g))
    && (f != 0 ==> (f > 0 <==> (x > 0.0 <==> g > 0.0)))
  }

  /** `m` steps of `g` are the most that fit in `x`. */
  ghost predicate Between(m: nat, x: real, g: real) { m as real * g <= x < (m + 1) as real * g }
  ghost function Size(f: int): nat { if f < 0 then -f else f }
  ghost function Abs(x: real): real { if x < 0.0 then -x else x }

  /** The feedforward is the PWM level next to the light wanted from the LED over the gain. */
  lemma FeedforwardIs(i: Input)
    requires i.systemGain != 0.0
    ensures Towards(Feedforward(i), i.luxRef - i.residualRead, i.systemGain)
  {
    QuotientTowards(i.luxRef - i.residualRead, i.systemGain);
  }

  lemma QuotientTowards(x: real, g: real)
    requires g != 0.0
    ensures Towards(Truncate(x / g), x, g)
  {
    QuotientSigns(x, g);
    NextBelow(Abs(x / g), Abs(g), Size(Truncate(x / g)));
    SignedSize(x / g, g);
    hide Between;
  }

  lemma NextBelow(q: real, g: real, m: nat)
    requires g > 0.0 && m as real <= q < (m + 1) as real
    ensures Between(m, q * g, g)
  {
    TimesSize(m as real, q, g);
    TimesSize(q, (m + 1) as real, g);
  }

  lemma SignedSize(q: real, g: real)
    ensures Abs(q) * Abs(g) == Abs(q * g)
  {
    assert (-q) * g == -(q * g) && q * (-g) == -(q * g) && (-q) * (-g) == q * g;
    TimesSize(0.0, q, g);
    TimesSize(0.0, -q, g);
    TimesSize(0.0, q, -g);
    TimesSize(0.0, -q, -g);
  }

  lemma QuotientSigns(x: real, g: real)
    requires g != 0.0
    ensures x / g * g == x
    ensures x / g > 0.0 ==> (x > 0.0 <==> g > 0.0)
    ensures x / g < 0.0 ==> (x > 0.0 <==> g < 0.0)
  {
    var q := x / g;
    TimesSize(0.0, q, g);
    TimesSize(0.0, -q, g);
    TimesSize(0.0, q, -g);
    TimesSize(0.0, -q, -g);
    assert (-q) * g == -(q * g) && q * (-g) == -(q * g) && (-q) * (-g) == q * g;
  }

  lemma TimesSize(a: real, b: real, g: real)
    ensures g > 0.0 && a <= b ==> a * g <= b * g
    ensures g > 0.0 && a < b ==> a * g < b * g
  {
    if g > 0.0 && a < b {
      assert (b - a) * g > 0.0;
    }
  }

  /** There is only one such number. */
  lemma TowardsUnique(f: int, f': int, x: real, g: real)
    requires Towards(f, x, g) && Towards(f', x, g)
    ensures f == f'
  {
    BetweenUnique(Size(f), Size(f'), Abs(x), Abs(g));
    hide Between;
  }

  lemma BetweenUnique(a: nat, b: nat, x: real, g: real)
    requires g > 0.0 && Between(a, x, g) && Between(b, x, g)
    ensures a == b
  {
    TimesSize((a + 1) as real, b as real, g);
    TimesSize((b + 1) as real, a as real, g);
  }

  /** A level within the range of the LED. */
  lemma LevelInRange(f: int, x: real, g: real)
    requires g > 0.0 && 0.0 <= x <= 255.0 * g && Towards(f, x, g)
    ensures 0 <= f <= 255 && Between(f, x, g)
  {
    hide Between;
    FitsInRange(Size(f), x, g);
  }

  lemma FitsInRange(m: nat, x: real, g: real)
    requires g > 0.0 && 0.0 <= x <= 255.0 * g && Between(m, x, g)
    ensures m <= 255 && (x <= 0.0 ==> m == 0)
  {
    var r := m as real;
    assert r >= 256.0 ==> (r - 256.0) * g >= 0.0;
    assert r >= 1.0 ==> (r - 1.0) * g >= 0.0;
  }

  function Proportional(i: Input): real { KP * i.errorVoltage }

  /** What one call adds to the integral. */
  function Increment(i: Input): real { i.samplingTime as real * (KI / 1000000.0) * i.errorVoltage }

  function Clamp(u: real): (c: real)
    ensures 0.0 <= c <= MAX_PWM && (0.0 <= u <= MAX_PWM ==> c == u)
  {
    if u > MAX_PWM then MAX_PWM else if u < 0.0 then 0.0 else u
  }

  /** The fields. */
  datatype Fields = Fields(ui: real, u: real)

  /** calc: the fields after one call. */
  function AfterCalc(s: Fields, i: Input): Fields
    requires i.systemGain != 0.0
  {
    Limited(Feedforward(i) as real, Proportional(i), s.ui + Increment(i))
  }

  /** Feedforward, proportional part and integral added up; the integral is recomputed on saturation. */
  function Limited(uff: real, up: real, ui: real): (s: Fields)
    ensures 0.0 <= s.u <= MAX_PWM
  {
    var u := uff + up + ui;
    if u > MAX_PWM then Fields(MAX_PWM - uff - up, MAX_PWM)
    else if u < 0.0 then Fields(0.0 - uff - up, 0.0)
    else Fields(ui, u)
  }

  class Controller {
    var ui: real
    var u: real

    ghost function State(): Fields
      reads this
    {
      Fields(ui, u)
    }

    constructor ()
      ensures State() == Fields(0.0, 0.0)
    {
      ui, u := 0.0, 0.0;
    }

    method Calc(i: Input) returns (pwm: int)
      requires i.systemGain != 0.0
      modifies this
      ensures State() == AfterCalc(old(State()), i)
      ensures pwm as real <= u < (pwm + 1) as real && 0 <= pwm <= 255
      ensures NothingToCorrect(old(ui), i) ==> Between(pwm, i.luxRef - i.residualRead, i.systemGain)
    {
      hide Between, NothingToCorrect, Limited;
      ghost var before := State();
      var uff := Truncate((i.luxRef - i.residualRead) / i.systemGain);
      ui := ui + i.samplingTime as real * (KI / 1000000.0) * i.errorVoltage;
      var up := KP * i.errorVoltage;
      LimitOutput(uff, up);
      pwm := Truncate(u);
      if NothingToCorrect(before.ui, i) {
        FeedforwardAlone(before, i);
      }
    }

    /** The output and its anti-windup. */
    method LimitOutput(uff: int, up: real)
      modifies this
      ensures State() == Limited(uff as real, up, old(ui))
    {
      u := uff as real + up + ui;
      if u > MAX_PWM {
        ui := MAX_PWM - uff as real - up;
        u := MAX_PWM;
      } else if u < 0.0 {
        ui := 0.0 - uff as real - up;
        u := 0.0;
      }
    }

    method ControllerReset()
      modifies this
      ensures State() == Fields(0.0, 0.0)
    {
      ui, u := 0.0, 0.0;
    }
  }

  /** No error, an empty integral as after a reset, and a wish the LED can meet alone. */
  ghost predicate NothingToCorrect(ui: real, i: Input) {
    ui == 0.0 && i.errorVoltage == 0.0 && i.systemGain > 0.0 && 0.0 <= i.luxRef - i.residualRead <= 255.0 * i.systemGain
  }

  /** With no error yet and an empty integral, as after a reset, the output is the feedforward: the
      largest PWM level whose light stays within what is wanted from the LED. */
  lemma FeedforwardAlone(s: Fields, i: Input)
    requires i.systemGain != 0.0
    requires NothingToCorrect(s.ui, i)
    ensures var u := AfterCalc(s, i).u;
            u == u.Floor as real && u >= 0.0 && Between(u.Floor, i.luxRef - i.residualRead, i.systemGain)
  {
    hide Feedforward, Proportional, Increment, Towards, Between;
    FeedforwardIs(i);
    NoError(i);
    LevelInRange(Feedforward(i), i.luxRef - i.residualRead, i.systemGain);
    assert AfterCalc(s, i).u == Feedforward(i) as real;
  }

  lemma NoError(i: Input)
    requires i.errorVoltage == 0.0
    ensures Proportional(i) == 0.0 && Increment(i) == 0.0
  {
  }

  // Runs.

  ghost predicate Usable(inputs: seq<Input>) {
    forall k :: 0 <= k < |inputs| ==> inputs[k].systemGain != 0.0
  }

  /** The fields after a run of calls. */
  ghost function Run(s: Fields, inputs: seq<Input>): Fields
    requires Usable(inputs)
  {
    if inputs == [] then s else AfterCalc(Run(s, inputs[..|inputs| - 1]), inputs[|inputs| - 1])
  }

  /** The same output computed from increments alone: no integral is kept, only the last output and the
      last input. */
  ghost function Velocity(u: real, last: Input, i: Input): real
    requires last.systemGain != 0.0 && i.systemGain != 0.0
  {
    Clamp(u + (Feedforward(i) - Feedforward(last)) as real + (Proportional(i) - Proportional(last)) + Increment(i))
  }

  ghost function VelocityRun(s: Fields, inputs: seq<Input>): real
    requires Usable(inputs) && inputs != []
  {
    var k := |inputs| - 1;
    if k == 0 then Clamp(Feedforward(inputs[0]) as real + Proportional(inputs[0]) + (s.ui + Increment(inputs[0])))
    else Velocity(VelocityRun(s, inputs[..k]), inputs[k - 1], inputs[k])
  }

  /** After any call the integral is what the output leaves over from feedforward and proportional
      part, saturated or not. */
  lemma IntegralIsRest(s: Fields, i: Input)
    requires i.systemGain != 0.0
    ensures var s' := AfterCalc(s, i);
            && s'.ui == s'.u - Feedforward(i) as real - Proportional(i)
            && s'.u == Clamp(Feedforward(i) as real + Proportional(i) + (s.ui + Increment(i)))
  {
  }

  /** The refinement: over every run the positional controller's output is the velocity form's. */
  lemma {:induction false} PositionalIsVelocity(s: Fields, inputs: seq<Input>)
    requires Usable(inputs) && inputs != []
    ensures Run(s, inputs).u == VelocityRun(s, inputs)
  {
    var k := |inputs| - 1;
    var init := inputs[..k];
    IntegralIsRest(Run(s, init), inputs[k]);
    if k > 0 {
      PositionalIsVelocity(s, init);
      IntegralIsRest(Run(s, init[..k - 1]), init[k - 1]);
    }
  }

  /** So nothing winds up: two runs of any lengths that end with the same output and the same input go
      on alike for ever. */
  lemma {:induction false} NoHiddenState(s: Fields, a: seq<Input>, s': Fields, b: seq<Input>, more: seq<Input>)
    requires a != [] && b != [] && Usable(a + more) && Usable(b + more)
    requires Usable(a) && Usable(b)
    requires a[|a| - 1] == b[|b| - 1] && Run(s, a).u == Run(s', b).u
    ensures Run(s, a + more) == Run(s', b + more)
  {
    if more == [] {
      assert a + more == a && b + more == b;
      IntegralIsRest(Run(s, a[..|a| - 1]), a[|a| - 1]);
      IntegralIsRest(Run(s', b[..|b| - 1]), b[|b| - 1]);
    } else {
      var k := |more| - 1;
      assert (a + more)[..|a + more| - 1] == a + more[..k] && (b + more)[..|b + more| - 1] == b + more[..k];
      NoHiddenState(s, a, s', b, more[..k]);
    }
  }

  // The same laws over the inputs alone.

  /** 20 times the error and what 1.5 times the error adds per millisecond. */
  lemma PartsAre(i: Input)
    ensures Proportional(i) == 20.0 * i.errorVoltage
    ensures Increment(i) == 0.0015 * Effort(i)
  {
    assert i.samplingTime as real * 0.0015 * i.errorVoltage == 0.0015 * (i.samplingTime as real * i.errorVoltage);
  }

  /** Sampling time times error. */
  ghost function Effort(i: Input): real { i.samplingTime as real * i.errorVoltage }

  /** Between two calls the output moves by the change of the feedforward, 20 times the change of the
      error and 0.0015 times the sampling time times the new error, cut off at 0 and 255. */
  lemma StepIs(s: Fields, inputs: seq<Input>, f0: int, f: int)
    requires Usable(inputs) && |inputs| >= 2 && Usable(inputs[..|inputs| - 1])
    requires var last, i := inputs[|inputs| - 2], inputs[|inputs| - 1];
             Towards(f0, last.luxRef - last.residualRead, last.systemGain) && Towards(f, i.luxRef - i.residualRead, i.systemGain)
    ensures var last, i := inputs[|inputs| - 2], inputs[|inputs| - 1];
            var u := Run(s, inputs[..|inputs| - 1]).u + (f - f0) as real + 20.0 * (i.errorVoltage - last.errorVoltage)
                     + 0.0015 * Effort(i);
            Run(s, inputs).u == if u > 255.0 then 255.0 else if u < 0.0 then 0.0 else u
  {
    hide Feedforward, Proportional, Increment, Effort, Towards, Run;
    var last, i := inputs[|inputs| - 2], inputs[|inputs| - 1];
    PositionalIsVelocity(s, inputs);
    PositionalIsVelocity(s, inputs[..|inputs| - 1]);
    WholeIs(last, f0);
    WholeIs(i, f);
    PartsAre(last);
    PartsAre(i);
    assert inputs[..|inputs| - 1][|inputs| - 2] == last;
  }

  lemma WholeIs(i: Input, f: int)
    requires Towards(f, i.luxRef - i.residualRead, i.systemGain)
    ensures i.systemGain != 0.0 && Feedforward(i) == f
  {
    FeedforwardIs(i);
    TowardsUnique(f, Feedforward(i), i.luxRef - i.residualRead, i.systemGain);
  }

  /** So saturation is left at once: from either bound, any call whose changes sum to something that
      leads back inside moves the output by exactly that much, however long it was saturated. */
  lemma LeavesSaturation(s: Fields, inputs: seq<Input>, f0: int, f: int)
    requires Usable(inputs) && |inputs| >= 2 && Usable(inputs[..|inputs| - 1])
    requires var last, i := inputs[|inputs| - 2], inputs[|inputs| - 1];
             Towards(f0, last.luxRef - last.residualRead, last.systemGain) && Towards(f, i.luxRef - i.residualRead, i.systemGain)
    ensures var last, i := inputs[|inputs| - 2], inputs[|inputs| - 1];
            var before, after := Run(s, inputs[..|inputs| - 1]).u, Run(s, inputs).u;
            var change := (f - f0) as real + 20.0 * (i.errorVoltage - last.errorVoltage) + 0.0015 * Effort(i);
            && (before == 255.0 && -255.0 <= change <= 0.0 ==> after == 255.0 + change)
            && (before == 0.0 && 0.0 <= change <= 255.0 ==> after == change)
  {
    hide Run, Towards, Effort;
    StepIs(s, inputs, f0, f);
  }

  /** What the errors of all calls add up to in the integral. */
  ghost function ErrorSum(inputs: seq<Input>): real {
    if inputs == [] then 0.0
    else
      var i := inputs[|inputs| - 1];
      ErrorSum(inputs[..|inputs| - 1]) + 0.0015 * Effort(i)
  }

  /** The output of the last of these calls if no call ever saturated; `f` is its feedforward. */
  ghost function Unlimited(s: Fields, inputs: seq<Input>, f: int): real
    requires inputs != []
  {
    f as real + 20.0 * inputs[|inputs| - 1].errorVoltage + (s.ui + ErrorSum(inputs))
  }

  ghost predicate Wholes(inputs: seq<Input>, fs: seq<int>) {
    && |fs| == |inputs|
    && forall k :: 0 <= k < |inputs| ==> Towards(fs[k], inputs[k].luxRef - inputs[k].residualRead, inputs[k].systemGain)
  }

  ghost predicate Within(s: Fields, inputs: seq<Input>, fs: seq<int>, k: nat)
    requires k < |inputs| == |fs|
  {
    0.0 <= Unlimited(s, inputs[..k + 1], fs[k]) <= 255.0
  }

  lemma WholesUsable(inputs: seq<Input>, fs: seq<int>)
    requires Wholes(inputs, fs)
    ensures Usable(inputs)
  {
  }

  /** As long as no call saturates, the output is the feedforward, 20 times the last error, and 0.0015
      times the sum over the calls of sampling time times error, on top of what the integral held. */
  lemma {:induction false} UnlimitedRun(s: Fields, inputs: seq<Input>, fs: seq<int>)
    requires inputs != [] && Wholes(inputs, fs) && Usable(inputs)
    requires forall k :: 0 <= k < |inputs| ==> Within(s, inputs, fs, k)
    ensures Run(s, inputs).u
         == fs[|inputs| - 1] as real + 20.0 * inputs[|inputs| - 1].errorVoltage + (s.ui + ErrorSum(inputs))
    ensures Run(s, inputs).ui == s.ui + ErrorSum(inputs)
  {
    hide Feedforward, Proportional, Increment, Effort, Towards;
    var k := |inputs| - 1;
    var init, i := inputs[..k], inputs[k];
    assert inputs[..k + 1] == inputs && Within(s, inputs, fs, k);
    WholeIs(i, fs[k]);
    PartsAre(i);
    if k > 0 {
      var before := fs[..k];
      forall j | 0 <= j < k ensures Within(s, init, before, j) {
        assert init[..j + 1] == inputs[..j + 1] && Within(s, inputs, fs, j);
      }
      UnlimitedRun(s, init, before);
    }
  }

  /** Call `k` of the run returns the sum. */
  ghost predicate Unclipped(s: Fields, inputs: seq<Input>, fs: seq<int>, k: nat)
    requires k < |inputs| == |fs| && Usable(inputs)
  {
    Run(s, inputs[..k + 1]).u == Unlimited(s, inputs[..k + 1], fs[k])
  }

  /** And only then: the outputs of all calls are these sums exactly when all these sums lie in 0 to 255. */
  lemma UnlimitedIff(s: Fields, inputs: seq<Input>, fs: seq<int>)
    requires Wholes(inputs, fs) && Usable(inputs)
    ensures (forall k :: 0 <= k < |inputs| ==> Within(s, inputs, fs, k))
            <==> forall k :: 0 <= k < |inputs| ==> Unclipped(s, inputs, fs, k)
  {
    hide Towards;
    if forall k :: 0 <= k < |inputs| ==> Within(s, inputs, fs, k) {
      forall k | 0 <= k < |inputs| ensures Unclipped(s, inputs, fs, k) {
        var part, before := inputs[..k + 1], fs[..k + 1];
        forall j | 0 <= j <= k ensures Within(s, part, before, j) {
          assert part[..j + 1] == inputs[..j + 1] && Within(s, inputs, fs, j);
        }
        UnlimitedRun(s, part, before);
      }
    }
    forall k | 0 <= k < |inputs| && Unclipped(s, inputs, fs, k) ensures Within(s, inputs, fs, k) {
      IntegralIsRest(Run(s, inputs[..k + 1][..k]), inputs[k]);
    }
  }
}
