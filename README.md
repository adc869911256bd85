# Clifford attractor trajectories, modelled in Dafny

image.py renders an animation of the Clifford attractor. Each frame calls
`clifford_fast(n_points, a, b, c, d, n_iter)`. That function draws a batch of
random seed points and applies the Clifford map to every point `n_iter` times:

    x' = sin(a*y) + c*cos(a*x)
    y' = sin(b*x) + d*cos(b*y)

After each step it copies the whole batch into block `i` of two flat buffers,
`all_x` and `all_y`. `create_fast_clifford_video` decides how many frames
there are. It sweeps `a` through a schedule `a_values` with one entry per
frame, and keeps `b, c, d = 1.6, 1.0, 0.7` fixed.

The project has three modules:

- `CliffordMap` (clifford_map.dfy) gives the map over an abstract sine and
  cosine. Both are total tables over the reals, and the only thing known
  about them is that their values lie in [-1, 1]. The module also has the
  orbit of a point and the element-wise batch update.
- `Trajectory` (trajectory.dfy) has `clifford_fast` as an imperative method
  over two `array<real>` buffers. It is proved against `Record`, which is
  the trajectory as a value: the batches after steps 1 .. n_iter,
  concatenated. Beside it are lemmas about the block layout
  `[i*n, (i+1)*n)`.
- `VideoFrames` (video.dfy) has the frame count, the schedule `a_values`
  built from `np.linspace` and the sine sweep, the frame indices the
  animation runs through, the schedule lookup per frame and the
  `clifford_fast` call each frame makes.

In short, the method's contract says:

- The two buffers are new arrays, distinct from each other, as the two
  `np.zeros` calls make them.
- Both buffers hold `n_points * n_iter` values, so they are empty when
  `n_iter = 0`.
- Slot `i*n_points + k` holds seed `k` after exactly `i + 1` steps, so the
  seeds themselves are never stored.
- Every stored point satisfies `|x| <= 1 + |c|` and `|y| <= 1 + |d|`.

The iteration step the loop runs, `StoreIteration`, writes block `i` and
leaves every other slot as it was.

The blocks tile the buffer and never overlap. The new `y` is computed from
the old `x`. Each point's orbit stays at its own position in every block.

## Model

| member | source | states |
|---|---|---|
| CliffordMap.NextX | image.py:21 | whatever the old state, the new x lies within 1 + abs(c) of zero, given abs(sin), abs(cos) <= 1 |
| CliffordMap.NextY | image.py:22 | whatever the old state, the new y lies within 1 + abs(d) of zero |
| CliffordMap.Step | image.py:21-23 | one map step computes both new coordinates from the old state, and the new state lies within 1 + abs(c) and 1 + abs(d) whatever the old one was |
| CliffordMap.Orbit | image.py:19-23 | the state of a seed after n iterations of the loop (a definition: n applications of Step; what it satisfies is in OrbitBounded and OrbitCompose) |
| CliffordMap.OrbitBounded | image.py:19-23 | every state reached after one or more steps lies in [-(1+abs(c)), 1+abs(c)] x [-(1+abs(d)), 1+abs(d)], whatever the seed |
| CliffordMap.OrbitCompose | image.py:19-23 | m steps followed by n more steps give the same state as m + n steps |
| CliffordMap.Zip | image.py:12-13 | pairs the x and y arrays into one batch of states (a definition) |
| CliffordMap.MapX | image.py:21 | x_new has one entry per point, each within 1 + abs(c) |
| CliffordMap.MapY | image.py:22 | y_new has one entry per point, each within 1 + abs(d) |
| CliffordMap.StepBatch | image.py:19-23 | one step of the batch gives one new state per old state |
| CliffordMap.IterateBatch | image.py:19-23 | iterating never changes the number of points in the batch |
| CliffordMap.SimultaneousUpdate | image.py:21-23 | building x_new and y_new from the old pair and then reassigning both is one map step on every point; the new y uses the old x |
| CliffordMap.BatchPointwise | image.py:21-22 | after n batch steps, point k of the batch is seed k's own n-step orbit, so no point affects another |
| Trajectory.Record | image.py:16-29 | the trajectory record has n_iter blocks of n_points entries |
| Trajectory.BlockStart | image.py:26 | start_idx of block i, defined as i blocks of n_points slots (a definition; BlockStartIsProduct relates it to i * n_points) |
| Trajectory.BlockEnd | image.py:27 | end_idx of block i is where block i + 1 starts |
| Trajectory.BlockStartIsProduct | image.py:26 | block i starts at i * n_points, as start_idx is computed |
| Trajectory.Slot | image.py:26-29 | the buffer index of seed k in block i, start_idx + k (a definition; SlotIsOffset relates it to i * n_points + k) |
| Trajectory.SlotIsOffset | image.py:26-29 | seed k of block i is written at index i * n_points + k |
| Trajectory.BlockStartMonotone | image.py:26-27 | a later block never starts before an earlier one |
| Trajectory.BlockBounds | image.py:26-27 | for every i < n_iter, block i ends inside the n_iter-block buffer |
| Trajectory.DivideIndex | image.py:26-27 | buffer index j is position j % n of block j / n, and lies below the buffer end |
| Trajectory.BlocksTile | image.py:26-29 | every index of the n_points * n_iter buffer lies in exactly one block, j / n_points, at seed j % n_points; that block is one of the n_iter iterations |
| Trajectory.BlocksDisjoint | image.py:26-29 | two blocks that share an index are the same block |
| Trajectory.SlotInRange | image.py:26-29 | seed k of block i < n_iter lies inside the n_points * n_iter buffer |
| Trajectory.RecordLastBlock | image.py:28-29 | the last block of the record is the batch after n_iter steps |
| Trajectory.RecordPrefix | image.py:28-29 | appending a block leaves every earlier entry of the record unchanged |
| Trajectory.RecordAt | image.py:19-29 | record entry i * n + k is the batch after i + 1 steps at position k, that is, seed k after exactly i + 1 steps |
| Trajectory.RecordBounded | image.py:19-29 | every recorded point satisfies abs(x) <= 1 + abs(c) and abs(y) <= 1 + abs(d) |
| Trajectory.StoreBlock | image.py:28-29 | the slice assignment buf[start:end] = vals puts vals into the block and leaves every other slot as it was |
| Trajectory.BlocksHoldRecord | image.py:19-29 | once every block holds its seeds' orbits, both buffers equal the record slot by slot, and every slot is within the bounds |
| Trajectory.Zeros | image.py:16-17 | np.zeros(len) is a new buffer of len zeros |
| Trajectory.StoreIteration | image.py:26-29 | iteration i fills block i with the batch after i + 1 steps, keeps blocks 0 .. i-1, and changes no slot outside block i |
| Trajectory.CliffordFast | image.py:9-31 | both buffers are new and distinct; they have n_points * n_iter slots and equal the record; slot i*n_points + k holds seed k after exactly i + 1 steps (never the seed itself); every stored point is within 1 + abs(c) and 1 + abs(d) |
| VideoFrames.TotalFrames | image.py:36 | total_frames is duration_seconds * fps (a definition) |
| VideoFrames.Linspace | image.py:45 | np.linspace(start, stop, num) has num values, starts at start, ends at stop when num >= 2, and consecutive values differ by (stop - start) / (num - 1) |
| VideoFrames.SweepA | image.py:46 | one schedule entry -1.4 + 0.8 * sin(t) lies in [-2.2, -0.6], as the source comment says |
| VideoFrames.AValues | image.py:45-46 | a_values has total_frames entries, each in [-2.2, -0.6] |
| VideoFrames.FrameParams | image.py:49-65 | frame f runs the map with a = a_values[f] and b, c, d = 1.6, 1.0, 0.7 (a definition; FramesDifferOnlyInA states what it implies) |
| VideoFrames.Frames | image.py:103 | FuncAnimation runs through total_frames frame indices, and index f is frame f |
| VideoFrames.Schedule | image.py:45-49 | the parameter schedule has one parameter set per a_values entry |
| VideoFrames.ScheduleCoversFrames | image.py:36-65 | the a_values built from linspace has one entry per frame: there are duration_seconds * fps frames, each frame f indexes a valid entry, and frame f runs with a = a_values[f] in [-2.2, -0.6] and b, c, d = 1.6, 1.0, 0.7 |
| VideoFrames.DefaultFrameCount | image.py:33-36 | an example: the default arguments, 60 s at 24 fps, give 1440 frames |
| VideoFrames.FramesDifferOnlyInA | image.py:49-65 | every frame uses the same b, c, d, and two frames run the same map exactly when their a values agree |
| VideoFrames.InHistogram | image.py:75-76 | a coordinate inside the histogram's [-3, 3] range (a definition) |
| VideoFrames.FrameInsideHistogram | image.py:75-76 | with c = 1.0 and d = 0.7, every trajectory point of every frame is inside the [-3, 3] x [-3, 3] histogram range, whatever a is |
| VideoFrames.AnimateFrame | image.py:65-72 | a frame produces two new, distinct buffers of 5000 * 100 points with a_values[frame] and the fixed b, c, d, laid out block by block, and all of them are inside the histogram range |

## Left out

- Random seeds (image.py:12-13): `np.random.uniform` is nondeterministic, so the seed arrays `x0, y0` are method inputs. Their range [-0.5, 0.5] is not used by any property.
- Floating-point arithmetic: the map is computed over exact reals. `np.sin` and `np.cos` are an abstract pair of total tables whose values lie in [-1, 1]. Rounding, NaN and infinities are not modelled.
- The float numerics of the schedule (image.py:45-46): `np.linspace` is computed over exact reals, `np.sin` is the abstract table, and pi is a parameter. The claim "3 full cycles" cannot be stated over an abstract sine. `AnimateFrame` and `FrameInsideHistogram` take any schedule, so they also cover the one `AValues` builds.
- `np.histogram2d`, `np.log1p` and the `vmax` display range (image.py:75-81): numpy code whose source is not part of this model. Only the histogram's [-3, 3] range is used, to show that no point falls outside it.
- All matplotlib work: the figure, the colormap, `imshow`, the text overlays, and how `FuncAnimation` schedules its calls (image.py:51-97, 103-107). Only the frame indices it passes, 0 .. total_frames - 1, are modelled.
- Video and GIF saving, the try/except fallbacks, and the timing and progress prints (image.py:68-69, 99-137): I/O.
- `test_single_frame` (image.py:141-167): a second caller of `clifford_fast`, with the frame-0 parameters `5000, -1.4, 1.6, 1.0, 0.7, 100`. The rest of it is plotting. The call is an instance of `Trajectory.CliffordFast`, and it has no separate member.
- The module-level driver and menu (image.py:169-195), and the `@njit` compilation decorator (image.py:8): these contain no logic.
- Trajectory.CliffordFast: `n_points` and `n_iter` are natural numbers, so negative sizes cannot be expressed. In the source, a negative `n_points` fails first at `np.random.uniform` (image.py:12). With `n_points = 0` and a negative `n_iter`, nothing fails and two empty arrays come back; the model gives the same empty buffers only for `n_iter = 0`.
- VideoFrames.TotalFrames: `duration_seconds` and `fps` are natural numbers, so negative arguments cannot be expressed. In the source, a negative `total_frames` makes `np.linspace` raise (image.py:45). With `fps = 0` there are 0 frames and `interval=1000/fps` raises `ZeroDivisionError` (image.py:104); the model has no `interval` and gives an empty schedule there.
- Trajectory.StoreBlock: numpy's broadcasting and shape checks in the slice assignment are not modelled. The block length equals the batch length by precondition, which is always true in `clifford_fast`.
