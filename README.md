# Switching conditions and reference trajectory of the double-pendulum scripts

This project models the pure logic inside three run scripts of the double-pendulum
(pendubot/acrobot) repository, over exact reals instead of floating point:

- **Region-of-attraction membership test.** `check_if_state_in_roa(S, rho, x)` computes
  `rad = (x - g)^T S (x - g)`. The goal `g = [pi, 0, 0, 0]` is hard-coded in the function.
  The function returns `(rad < 1.0*rho, rad)`. It appears identically in
  `examples/realistic/saclqr.py` and `examples/reinforcement_learning/SAC/test_saclqr.py`.
  Both scripts define the same `condition1` and `condition2`, so each definition is modelled
  once, in module `SacLqr`. The table below cites both files.
- **Switching predicates** given to the two-controller supervisor:
  - `condition1` (always false);
  - the region-based `condition2` (the membership flag of the wrapped state);
  - the time-based `condition2` (`t > 5.0`) of
    `experiments/tmotors_record_system_identification_data3.py`.
- **Reference trajectory** of that system-identification run:
  - `N = int(t1_final/dt)`;
  - `N+1` samples from `np.linspace` for the time and both joint positions (0 to -pi/2);
  - velocities from `np.diff(p, append=p[-1]) / dt`;
  - the `(N+1) x 4` table `np.array([p1, p2, v1, v2]).T`.

Modules:
- `Linalg`: 4-vectors, 4x4 matrices, and the quadratic form as the double sum
  `sum_i sum_j d[i]*S[i][j]*d[j]`.
- `NumpyArrays`: `np.pi`, Python's `int()`, `linspace`, `diff`, element-wise division and
  transpose.
- `SacLqr`: the membership test and the two conditions of the SAC+LQR scripts.
- `SysIdExperiment`: the trajectory and the time-based conditions.

`S` and `rho` are loaded from files by the scripts; here they are parameters.
`wrap_angles_top` is imported from a module that is not part of this model. It is passed to
`SacLqr.Condition2` as a function parameter `wrap`. The model knows nothing about it except
that it maps a 4-vector to a 4-vector. In particular, idempotence is not assumed.

The goal of the membership test is hard-coded as `[pi, 0, 0, 0]` in
`check_if_state_in_roa`. The model hard-codes it too, as `SacLqr.Goal`, instead of taking
it as a parameter.

## Model

| member | source | states |
|---|---|---|
| `SacLqr.CheckIfStateInRoa` | examples/realistic/saclqr.py:105-110 | The second component is exactly the quadratic form of `x - [pi,0,0,0]` under `S`, whatever the flag is. The flag is true if and only if that value is strictly below `rho`. |
| `Linalg.QuadraticForm` | examples/realistic/saclqr.py:108 | Defined as the double sum over i, j of `d[i]*S[i][j]*d[j]`; equal to the sixteen-term einsum by `QuadraticFormOfFour`. Its ensures: the form is 0 whenever `d` is the zero vector, for any square `S`. |
| `Linalg.Minus` | examples/realistic/saclqr.py:107 | `x - np.array([...])`: the difference has the length of `x`, and entry `i` is `x[i] - y[i]`. |
| `Linalg.QuadraticFormOfFour` | examples/realistic/saclqr.py:107-108 | The double sum equals the sixteen products `d[i]*S[i][j]*d[j]` of the einsum `"i,ij,j"`, written out. |
| `SacLqr.GoalStateRadius` | examples/realistic/saclqr.py:107-110 | For every `S` and `rho`, the goal state has `rad = 0` and is inside exactly when `rho > 0`. |
| `SacLqr.IdentityRadiusIsSquaredDistance` | examples/realistic/saclqr.py:107-108 | With `S` the identity, `rad` is `(x0-pi)^2 + x1^2 + x2^2 + x3^2`. |
| `SacLqr.DiagonalRadiusNonnegative` | examples/realistic/saclqr.py:108-110 | A diagonal `S` with non-negative entries gives `rad >= 0`, so no state is inside when `rho <= 0`. |
| `Linalg.QuadraticFormOfDiagonal` | examples/realistic/saclqr.py:108 | For a diagonal `S` the double sum is the sum of `S[k][k]*d[k]^2`. |
| `SacLqr.Condition1` | examples/realistic/saclqr.py:103-104 | `condition1` is false for every time and state. |
| `SacLqr.Condition2` | examples/realistic/saclqr.py:112-124 | `condition2` holds exactly when the quadratic form of `wrap(x) - goal` is below `rho`. Both return branches give that flag, and `t` plays no part. |
| `SacLqr.Condition2DiffersFromRawTest` | examples/realistic/saclqr.py:114-117 | Some wrapping makes `condition2` false at the raw goal state, where the raw membership test is true. So `condition2` tests the wrapped state, not `x`. |
| `SacLqr.RadiusOnBoundary` | examples/reinforcement_learning/SAC/test_saclqr.py:103 | For every `S`, `rho` and `x`: when `rad == rho`, the result is `(false, rho)`. The boundary is outside, and `rad` is returned unchanged. |
| `SacLqr.BoundaryStateIsOutside` | examples/reinforcement_learning/SAC/test_saclqr.py:98-103 | With `S` the identity and `rho = 1`, the state `[pi+1, 0, 0, 0]` gives `(false, 1.0)`. |
| `Linalg.QuadraticFormOfIdentity` | examples/reinforcement_learning/SAC/test_saclqr.py:100-101 | Under the identity matrix, the quadratic form of any vector is its sum of squares. |
| `SacLqr.Condition2IsWrappedMembership` | examples/reinforcement_learning/SAC/test_saclqr.py:105-117 | `condition2` equals the first component of the membership test applied to `wrap(x)`. |
| `SacLqr.Condition2IgnoresTime` | examples/reinforcement_learning/SAC/test_saclqr.py:105-117 | `condition2` gives the same answer at any two times. |
| `NumpyArrays.Trunc` | experiments/tmotors_record_system_identification_data3.py:14 | `int()` truncates toward zero: for `r >= 0` the result `i` satisfies `0 <= i <= r < i+1`; for `r < 0` it satisfies `i-1 < r <= i <= 0`. |
| `SysIdExperiment.StepCount` | experiments/tmotors_record_system_identification_data3.py:14 | `N` is the truncation of `t1_final/dt`, bracketed as above. |
| `SysIdExperiment.StepCountBracketsHorizon` | experiments/tmotors_record_system_identification_data3.py:11-14 | For `t1_final >= 0` and `dt > 0`: `N*dt <= t1_final < (N+1)*dt`. |
| `NumpyArrays.Linspace` | experiments/tmotors_record_system_identification_data3.py:15-17 | Gives exactly `num` samples. With `num > 0` the first is `start`. With `num > 1`: the last is `stop`, sample `k` is `start + k*(stop-start)/(num-1)`, and consecutive samples differ by the same step. |
| `NumpyArrays.Diff` | experiments/tmotors_record_system_identification_data3.py:18-19 | `diff` has one element fewer than a non-empty input, and element `k` is `a[k+1] - a[k]`. |
| `NumpyArrays.Last` | experiments/tmotors_record_system_identification_data3.py:18-19 | `p[-1]` of a non-empty array is one of its elements. Appended to `p`, it makes the final velocity 0 (`SysIdExperiment.Velocity`). |
| `NumpyArrays.Divide` | experiments/tmotors_record_system_identification_data3.py:18-19 | `a / dt` keeps the length, and entry `k` is `a[k] / dt`. |
| `SysIdExperiment.Velocity` | experiments/tmotors_record_system_identification_data3.py:18-19 | Has the same length as `p`. `v[k] = (p[k+1]-p[k])/dt` before the last sample, and the last velocity is 0. |
| `NumpyArrays.Transpose` | experiments/tmotors_record_system_identification_data3.py:20 | The transpose of rows of width `w` has `w` rows, each as long as the number of input rows, and `r[k][i] == rows[i][k]`. |
| `SysIdExperiment.StackColumns` | experiments/tmotors_record_system_identification_data3.py:20 | Row `k` of the stacked, transposed table is `[a[k], b[k], c[k], d[k]]`. |
| `SysIdExperiment.ReferenceTrajectory` | experiments/tmotors_record_system_identification_data3.py:15-20 | Every array has `N+1` entries. `T` starts at 0 and `p1`, `p2` start at 0. For `N > 0`: `T` ends at `t1_final`, `p1` and `p2` end at `-pi/2`, `T[k] = k*t1_final/N`, and every position step is `(-pi/2)/N`. Velocities are forward difference quotients with a final 0. `p1 == p2` and `v1 == v2`. Row `k` of `X_des` is `[p1[k], p2[k], v1[k], v2[k]]`. |
| `SysIdExperiment.ReferenceFromHorizon` | experiments/tmotors_record_system_identification_data3.py:14-20 | Lines 14-20 as one computation: `N+1 = int(t1_final/dt)+1` samples. For `t1_final >= 0` and `dt > 0`: `N*dt <= t1_final < (N+1)*dt`. For `N > 0`: `T` runs from 0 to `t1_final`, `p1` ends at `-pi/2`, and the last velocity is 0. |
| `SysIdExperiment.SampleTimesOnControlGrid` | experiments/tmotors_record_system_identification_data3.py:11-15 | When `N*dt == t1_final`, sample `k` of `T_des` is at time `k*dt`. |
| `SysIdExperiment.VelocityIsConstantUntilLastSample` | experiments/tmotors_record_system_identification_data3.py:16-19 | For `N > 0`, every velocity sample before the last equals `-pi/(2*N*dt)`, and the last is 0. |
| `SysIdExperiment.Condition1` | experiments/tmotors_record_system_identification_data3.py:28-29 | `condition1` is false for every time and state. |
| `SysIdExperiment.Condition2` | experiments/tmotors_record_system_identification_data3.py:32-33 | `condition2` holds if and only if `t > 5.0`. |
| `SysIdExperiment.SwitchTimeIsStrict` | experiments/tmotors_record_system_identification_data3.py:32-33 | At exactly `t = 5.0` the condition is false, and it is true at every later time. The state never matters. |
| `SysIdExperiment.Condition2StaysTrue` | experiments/tmotors_record_system_identification_data3.py:28-33 | Once `condition2` holds at time `t`, it holds at every later time, while `condition1` stays false. |

## Left out

- Reading `rho`, `vol`, `Smatrix`, `controller_par.csv` and the model-parameter YAML files: file I/O. `S` and `rho` are parameters of the model, and `vol` is never used by the modelled code.
- `wrap_angles_top` is not part of this model. `SacLqr.Condition2` takes it as a parameter.
- SacLqr.Condition2: assumes that the wrapped state is again a 4-vector. Nothing else is assumed about the wrapping, including idempotence and its range.
- `CombinedController` (the two-state supervisor, filtering, friction compensation, saturation) is not part of this model. Only the predicates handed to it are modelled.
- `SACController`, `LQRController`, `TrajPIDController`, `double_pendulum_dynamics_func`, `SymbolicDoublePendulum` and `Simulator`, with their noise, delay, filter and integrator settings: library code outside this model.
- `simulate_and_animate`, `plot_timeseries` and `run_experiment` (CAN bus, motor IDs): simulation, plotting and hardware I/O.
- The `print` calls inside `check_if_state_in_roa` and `condition2`: diagnostic output only.
- IEEE floating point: all arithmetic is on exact reals. `np.pi` is the decimal literal 3.141592653589793, and no proved property depends on its digits. The float value of `int(5.0/0.002)` is not asserted: `SysIdExperiment.ReferenceTrajectory` takes `N` as a parameter, and `SysIdExperiment.StepCount` relates it to `t1_final/dt` over the reals.
- SysIdExperiment.StepCount, SysIdExperiment.StepCountBracketsHorizon and SysIdExperiment.ReferenceFromHorizon: the real quotient can truncate to one more than the float one. Over the reals `StepCount(0.3, 0.1) == 3`, while Python's `int(0.3/0.1)` is 2. For such inputs the script's `N` does not satisfy `t1_final < (N+1)*dt`.
- NumpyArrays.Last: its contract says only that the result is an element of the array. Stating that it is the final element costs more proof effort in `SysIdExperiment.ReferenceTrajectory` than the resource limit allows. Its body is the final element.
- SysIdExperiment.ReferenceTrajectory: the velocities divide by `dt`, but the samples lie `t1_final/N` apart. The two agree only when `N*dt == t1_final`, the case `SysIdExperiment.SampleTimesOnControlGrid` covers.
- SysIdExperiment.ReferenceTrajectory: takes `N >= 0`. A negative `int(t1_final/dt)` would make `np.linspace` raise, or leave `p1_des` empty so that `p1_des[-1]` fails. The script's constants never produce one.
- SysIdExperiment.StepCount: requires `dt != 0`, because Python's float division raises at that line for a zero step.
