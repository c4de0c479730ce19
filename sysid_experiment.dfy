/**
 * The hardware system-identification run
 * (experiments/tmotors_record_system_identification_data3.py): a reference
 * trajectory that moves both joints from 0 to -pi/2 in t1_final seconds,
 * tracked by one PID controller until the time condition hands over to a
 * second one.
 */
module SysIdExperiment {
  import opened NumpyArrays

  /** The sampled reference: times, joint positions, joint velocities, and the stacked state table. */
  datatype Reference = Reference(
    t: seq<real>,
    p1: seq<real>,
    p2: seq<real>,
    v1: seq<real>,
    v2: seq<real>,
    x: seq<seq<real>>)

  /**
   * N = int(t1_final / dt). A zero dt makes Python's float division raise,
   * which the precondition excludes.
   */
  function StepCount(t1Final: real, dt: real): (n: int)
    requires dt != 0.0
    ensures t1Final / dt >= 0.0 ==> 0 <= n && n as real <= t1Final / dt < n as real + 1.0
    ensures t1Final / dt < 0.0 ==> n <= 0 && n as real - 1.0 < t1Final / dt <= n as real
  {
    Trunc(t1Final / dt)
  }

  /** Multiplying both sides of a comparison by a positive factor keeps it. */
  lemma ScaleByPositive(a: real, b: real, c: real)
    requires c > 0.0
    ensures a <= b ==> a * c <= b * c
    ensures a < b ==> a * c < b * c
  {
  }

  /** For a non-negative horizon and a positive step, N whole steps fit in it and N + 1 do not. */
  lemma StepCountBracketsHorizon(t1Final: real, dt: real)
    requires t1Final >= 0.0 && dt > 0.0
    ensures StepCount(t1Final, dt) as real * dt <= t1Final < (StepCount(t1Final, dt) + 1) as real * dt
  {
    var n := StepCount(t1Final, dt);
    var q := t1Final / dt;
    assert q * dt == t1Final;
    assert n as real <= q < (n + 1) as real;
    ScaleByPositive(n as real, q, dt);
    ScaleByPositive(q, (n + 1) as real, dt);
    assert q * dt < (n + 1) as real * dt;
    assert t1Final < (n + 1) as real * dt;
    assert t1Final < (StepCount(t1Final, dt) + 1) as real * dt;
  }

  /**
   * `np.diff(p, append=p[-1]) / dt`: the forward difference quotients of p,
   * with a zero at the end so that the result is as long as p.
   */
  function Velocity(p: seq<real>, dt: real): (v: seq<real>)
    requires |p| > 0 && dt != 0.0
    ensures |v| == |p|
    ensures forall k :: 0 <= k < |p| - 1 ==> v[k] == (p[k + 1] - p[k]) / dt
    ensures v[|p| - 1] == 0.0
  {
    var q := p + [Last(p)];
    var d := Diff(q);
    var v := Divide(d, dt);
    forall k | 0 <= k < |p| - 1
      ensures v[k] == (p[k + 1] - p[k]) / dt
    {
      assert d[k] == q[k + 1] - q[k];
    }
    assert d[|p| - 1] == q[|p|] - q[|p| - 1];
    ZeroQuotient(v[|p| - 1], d[|p| - 1], dt);
    v
  }

  lemma ZeroQuotient(v: real, d: real, dt: real)
    requires dt != 0.0 && d == 0.0 && v == d / dt
    ensures v == 0.0
  {
  }

  /** `np.array([a, b, c, d]).T`: one row [a[k], b[k], c[k], d[k]] per sample k. */
  function StackColumns(a: seq<real>, b: seq<real>, c: seq<real>, d: seq<real>): (x: seq<seq<real>>)
    requires |a| == |b| == |c| == |d|
    ensures |x| == |a|
    ensures forall k :: 0 <= k < |a| ==> x[k] == [a[k], b[k], c[k], d[k]]
  {
    var x := Transpose([a, b, c, d], |a|);
    assert forall k :: 0 <= k < |a| ==> x[k] == [a[k], b[k], c[k], d[k]] by {
      forall k | 0 <= k < |a|
        ensures x[k] == [a[k], b[k], c[k], d[k]]
      {
        TransposeOfFourRows(a, b, c, d, k);
      }
    }
    x
  }

  /**
   * Lines 15-20 of the script for a given N (= `n`): linspace samples of the
   * time and of both positions, velocities as forward differences of the
   * positions with the last sample appended, divided by dt, and the
   * (N+1) x 4 table with rows [p1, p2, v1, v2].
   */
  function ReferenceTrajectory(t1Final: real, dt: real, n: nat): (r: Reference)
    requires dt != 0.0
    ensures |r.t| == n + 1 && |r.p1| == n + 1 && |r.p2| == n + 1
    ensures |r.v1| == n + 1 && |r.v2| == n + 1 && |r.x| == n + 1
    ensures r.t[0] == 0.0 && r.p1[0] == 0.0 && r.p2[0] == 0.0
    ensures n > 0 ==> r.t[n] == t1Final && r.p1[n] == -Pi / 2.0 && r.p2[n] == -Pi / 2.0
    ensures n > 0 ==> forall k :: 0 <= k <= n ==> r.t[k] == (k as real) * t1Final / (n as real)
    ensures n > 0 ==> forall k :: 0 <= k < n ==> r.p1[k + 1] - r.p1[k] == (-Pi / 2.0) / (n as real)
    ensures forall k :: 0 <= k < n ==> r.v1[k] == (r.p1[k + 1] - r.p1[k]) / dt
    ensures forall k :: 0 <= k < n ==> r.v2[k] == (r.p2[k + 1] - r.p2[k]) / dt
    ensures r.v1[n] == 0.0 && r.v2[n] == 0.0
    ensures r.p1 == r.p2 && r.v1 == r.v2
    ensures forall k :: 0 <= k <= n ==> r.x[k] == [r.p1[k], r.p2[k], r.v1[k], r.v2[k]]
  {
    var tDes := Linspace(0.0, t1Final, n + 1);
    var p1Des := Linspace(0.0, -Pi / 2.0, n + 1);
    var p2Des := Linspace(0.0, -Pi / 2.0, n + 1);
    var v1Des := Velocity(p1Des, dt);
    var v2Des := Velocity(p2Des, dt);
    Reference(tDes, p1Des, p2Des, v1Des, v2Des, StackColumns(p1Des, p2Des, v1Des, v2Des))
  }

  /**
   * Lines 14-20 as one computation from t1_final and dt: N = int(t1_final / dt)
   * and the reference built from it. For a non-negative horizon and a positive
   * step the N + 1 samples bracket the horizon: N steps of dt fit in t1_final,
   * N + 1 do not. The velocities divide by dt while the samples lie
   * t1_final / N apart; the two agree only when N * dt == t1_final
   * (SampleTimesOnControlGrid).
   */
  function ReferenceFromHorizon(t1Final: real, dt: real): (r: Reference)
    requires dt != 0.0 && StepCount(t1Final, dt) >= 0
    ensures |r.t| == StepCount(t1Final, dt) + 1 && |r.p1| == |r.t| && |r.v1| == |r.t| && |r.x| == |r.t|
    ensures t1Final >= 0.0 && dt > 0.0 ==>
      StepCount(t1Final, dt) as real * dt <= t1Final < (StepCount(t1Final, dt) + 1) as real * dt
    ensures |r.t| > 1 ==> r.t[0] == 0.0 && r.t[|r.t| - 1] == t1Final
    ensures |r.t| > 1 ==> r.p1[|r.p1| - 1] == -Pi / 2.0 && r.v1[|r.v1| - 1] == 0.0
  {
    var n := StepCount(t1Final, dt);
    if t1Final >= 0.0 && dt > 0.0 then
      StepCountBracketsHorizon(t1Final, dt);
      ReferenceTrajectory(t1Final, dt, n)
    else
      ReferenceTrajectory(t1Final, dt, n)
  }

  lemma CancelCount(tk: real, k: nat, n: nat, dt: real, total: real)
    requires 0 < n && (n as real) * dt == total && tk == (k as real) * total / (n as real)
    ensures tk == (k as real) * dt
  {
  }

  /** When N steps of dt exactly fill t1_final, sample k is at time k * dt. */
  lemma SampleTimesOnControlGrid(t1Final: real, dt: real, n: nat, k: nat)
    requires dt != 0.0 && 0 < n && k <= n
    requires n as real * dt == t1Final
    ensures ReferenceTrajectory(t1Final, dt, n).t[k] == (k as real) * dt
  {
    var r := ReferenceTrajectory(t1Final, dt, n);
    CancelCount(r.t[k], k, n, dt, t1Final);
  }

  /** The speed of the reference motion: -pi/2 covered in N steps of dt. */
  function ReferenceSpeed(n: nat, dt: real): (v: real)
    requires 0 < n && dt != 0.0
    ensures v * dt * (n as real) == -Pi / 2.0
  {
    var v := -Pi / (2.0 * (n as real) * dt);
    assert v * (2.0 * (n as real) * dt) == -Pi;
    v
  }

  lemma StepQuotient(v: real, step: real, n: nat, dt: real)
    requires 0 < n && dt != 0.0 && step == (-Pi / 2.0) / (n as real) && v == step / dt
    ensures v == ReferenceSpeed(n, dt)
  {
  }

  /**
   * The reference velocity is constant, -pi / (2 * N * dt), on every sample
   * but the last, where it is zero.
   */
  lemma VelocityIsConstantUntilLastSample(t1Final: real, dt: real, n: nat, k: nat)
    requires dt != 0.0 && 0 < n && k <= n
    ensures k < n ==> ReferenceTrajectory(t1Final, dt, n).v1[k] == ReferenceSpeed(n, dt)
    ensures k == n ==> ReferenceTrajectory(t1Final, dt, n).v1[k] == 0.0
  {
    var r := ReferenceTrajectory(t1Final, dt, n);
    if k < n {
      StepQuotient(r.v1[k], r.p1[k + 1] - r.p1[k], n, dt);
    }
  }

  /** condition1: never asks for the first controller. */
  function Condition1(t: real, x: seq<real>): (b: bool)
    ensures !b
  {
    false
  }

  /** condition2: hand over to the second controller strictly after 5 seconds. */
  function Condition2(t: real, x: seq<real>): (b: bool)
    ensures b <==> t > 5.0
  {
    t > 5.0
  }

  /**
   * At exactly 5 s the condition is still false, after it true for every
   * later time, and the state never matters.
   */
  lemma SwitchTimeIsStrict(x: seq<real>, y: seq<real>, t: real)
    ensures !Condition2(5.0, x)
    ensures t > 5.0 ==> Condition2(t, x)
    ensures Condition2(t, x) == Condition2(t, y)
  {
  }

  /**
   * Once condition2 holds it holds at every later time; condition1 is false
   * throughout, so it never overrides it.
   */
  lemma Condition2StaysTrue(t: real, u: real, x: seq<real>, y: seq<real>)
    requires t <= u && Condition2(t, x)
    ensures Condition2(u, y) && !Condition1(u, y)
  {
  }
}
