# MotrixLab: MuJoCo/MotrixSim coordinate bridge and Go2 LiDAR task set-up

This project is a Dafny model of two parts of MotrixLab's Go2 LiDAR walking environment.

**The coordinate bridge (`MjMxBridge`).** It keeps a MuJoCo scene in step with MotrixSim, the batched engine that runs the environments. Its constructor builds the qpos index map `map_qpos_idx_mjmx`. The map starts as the identity. For every body that has six degrees of freedom and is governed by a free joint, the four quaternion slots are rotated: MuJoCo stores a free joint as xyz + quat[wxyz], and MotrixSim stores xyz + quat[xyzw]. `update` checks the size of MotrixSim's `dof_pos`. It then scatters `dof_pos` (row 0 of a batch) into MuJoCo's `qpos` through the map, and runs `mj_forward`. `load_keyframe` resets MuJoCo and loads a keyframe. It then gathers `qpos` back through the map and writes it to MotrixSim, once per environment when batched. Velocities and controls are copied in order.

**The LiDAR task (`Go2WalkLidarTask`).** Its set-up selects a ray pattern by sensor name and strides both angle sequences by `downsample`. It fixes the geom-group mask and snapshots the geom poses after one forward pass, one copy per environment. Its observation is a two-key record.

Files:
- `results.dfy`: Option and Result.
- `ndarray.dfy`: the numpy operations the code uses, on sequences. These are `arange`, fancy-index assignment (scatter), fancy-index reading (gather), `repeat`, and `s[::k]`.
- `mujoco_model.dfy`: the MuJoCo model metadata the bridge reads, plus keyframe lookup.
- `qpos_index_map.dfy`: how the index map is built, and what it is.
- `mjmx_bridge.dfy`: the `Bridge` and `SceneData` classes, plus the round-trip lemmas.
- `walk_lidar.dfy`: the sensor-name dispatch, the stride, the mask, the snapshot and the observation.

Four points of the code's behaviour that the model keeps as written:
- the code scatters in `update` and gathers in `load_keyframe`;
- when a keyframe is missing, the code has already reset MuJoCo's state;
- there are five fixed-pattern names, `custom` (a 360 x 64 grid) among them;
- `lidar_points` is built from the whole `(distances, local_points)` pair that `get_lidar_scan` returns; the model keeps the pair as it is and does not model the array conversion (see "## Left out").

## Model

| member | source | states |
|---|---|---|
| `NdArray.Identity` | motrix_envs/src/motrix_envs/mujoco_bridge/mjmx_bridge.py:42 | `np.arange(nq)`: length nq, entry i is i |
| `NdArray.Gather` | motrix_envs/src/motrix_envs/mujoco_bridge/mjmx_bridge.py:85 | `qpos[map]`: one entry per index, entry i is src[idx[i]] |
| `NdArray.ScatterWritten` | motrix_envs/src/motrix_envs/mujoco_bridge/mjmx_bridge.py:69-71 | after `qpos[idx] = vals` with an injective idx, slot idx[i] holds vals[i] |
| `NdArray.ScatterUntouched` | motrix_envs/src/motrix_envs/mujoco_bridge/mjmx_bridge.py:69-71 | slots that no index addresses keep their old value |
| `NdArray.GatherOfScatter` | motrix_envs/src/motrix_envs/mujoco_bridge/mjmx_bridge.py:69-71 | gathering through an injective index after scattering through it returns the scattered values |
| `NdArray.ScatterOfGather` | motrix_envs/src/motrix_envs/mujoco_bridge/mjmx_bridge.py:69-71 | scattering what was gathered through a permutation rebuilds the source, whatever the target held before |
| `NdArray.Repeat` | motrix_envs/src/motrix_envs/locomotion/go2/walk_lidar_np.py:120-121 | `np.repeat` along a new axis: n rows, each equal to the original |
| `NdArray.Stride` | motrix_envs/src/motrix_envs/locomotion/go2/walk_lidar_np.py:139-141 | `s[::k]` has ceil(\|s\| / k) elements |
| `NdArray.StrideSpec` | motrix_envs/src/motrix_envs/locomotion/go2/walk_lidar_np.py:139-141 | element i of `s[::k]` is s[i*k], so the order is kept and the first element comes first |
| `MujocoModel.FindKey` | motrix_envs/src/motrix_envs/mujoco_bridge/mjmx_bridge.py:77 | `model.key(id)` finds an index exactly when it is in range, and a name exactly when some keyframe has it, and then the first one with it |
| `NdArray.Scatter` | motrix_envs/src/motrix_envs/mujoco_bridge/mjmx_bridge.py:69-71 | the fancy assignment `qpos[map] = v` keeps the target's length; which slot gets which value is stated by `NdArray.ScatterWritten` and `NdArray.ScatterUntouched` |
| `QposIndexMap.WriteFreeBlock` | motrix_envs/src/motrix_envs/mujoco_bridge/mjmx_bridge.py:47-50 | writing one free body's block keeps the map's length, sets offsets 3, 4, 5, 6 of the block to point at offsets 4, 5, 6, 3, and leaves every other entry unchanged |
| `QposIndexMap.MapAfter` | motrix_envs/src/motrix_envs/mujoco_bridge/mjmx_bridge.py:43-50 | the map stays of length nq, and every entry addresses a qpos slot, at every step of the body loop |
| `QposIndexMap.IndexMap` | motrix_envs/src/motrix_envs/mujoco_bridge/mjmx_bridge.py:42-50 | the finished map has length nq, and its entries are in 0 .. nq-1 |
| `QposIndexMap.MapAfterEntry` | motrix_envs/src/motrix_envs/mujoco_bridge/mjmx_bridge.py:43-50 | each entry is the identity, or the quaternion rotation of the last free body whose block holds it |
| `QposIndexMap.IndexMapMoves` | motrix_envs/src/motrix_envs/mujoco_bridge/mjmx_bridge.py:45 | an entry differs from the identity if and only if it lies in the quaternion block of a body with 6 dofs, a joint, and a free joint type |
| `QposIndexMap.IndexMapIdentityElsewhere` | motrix_envs/src/motrix_envs/mujoco_bridge/mjmx_bridge.py:42-50 | outside every free body's quaternion block, the map is the identity |
| `QposIndexMap.IndexMapFreeBody` | motrix_envs/src/motrix_envs/mujoco_bridge/mjmx_bridge.py:46-50 | for a free joint at address a: entries a..a+2 are a..a+2, and entries a+3..a+6 are a+4, a+5, a+6, a+3 |
| `QposIndexMap.IndexMapIsPermutation` | motrix_envs/src/motrix_envs/mujoco_bridge/mjmx_bridge.py:42-50 | when free joints' qpos ranges do not overlap, the map is a permutation of 0 .. nq-1 (in range, injective, onto) |
| `MjMxBridge.SyncSource` | motrix_envs/src/motrix_envs/mujoco_bridge/mjmx_bridge.py:67-71 | fails exactly when the trailing size is not nq (size-mismatch error carrying both sizes) or the batch has no row 0 (empty-batch error); otherwise yields the 1-D vector, or row 0 |
| `MjMxBridge.Broadcast` | motrix_envs/src/motrix_envs/mujoco_bridge/mjmx_bridge.py:79-87 | shaped like dof_pos: the vector itself for one environment, or one identical row per environment of a batch |
| `MjMxBridge.Bridge.constructor` | motrix_envs/src/motrix_envs/mujoco_bridge/mjmx_bridge.py:35-50 | the index map array equals `IndexMap(model)`; qpos is qpos0, qvel and ctrl are zero |
| `MjMxBridge.Bridge.Reset` | motrix_envs/src/motrix_envs/mujoco_bridge/mjmx_bridge.py:60-61 | qpos is qpos0, velocities and controls are zero, derived quantities are cleared; the map is not written |
| `MjMxBridge.Bridge.Forward` | motrix_envs/src/motrix_envs/mujoco_bridge/mjmx_bridge.py:63-64 | derived quantities are the kinematics of the current qpos; qpos, qvel and ctrl are unchanged |
| `MjMxBridge.Bridge.ResetDataKeyframe` | motrix_envs/src/motrix_envs/mujoco_bridge/mjmx_bridge.py:77 | qpos, qvel and ctrl are those of the keyframe |
| `MjMxBridge.Bridge.Update` | motrix_envs/src/motrix_envs/mujoco_bridge/mjmx_bridge.py:66-73 | on a size error nothing changes; otherwise qpos is the scatter of the selected row through the map, and then forward runs; qvel and ctrl are never written |
| `MjMxBridge.Bridge.LoadKeyframe` | motrix_envs/src/motrix_envs/mujoco_bridge/mjmx_bridge.py:75-87 | missing keyframe: state reset, other engine untouched, error; otherwise MuJoCo holds the keyframe, dof_pos is the gather of its qpos, dof_vel and ctrls are qvel and ctrl unreordered, each broadcast to every environment |
| `MjMxBridge.KeyframeRoundTrip` | motrix_envs/src/motrix_envs/mujoco_bridge/mjmx_bridge.py:69-85 | `update` on what `load_keyframe` wrote selects the gathered row, and reproduces the keyframe's qpos exactly |
| `MjMxBridge.EmptyBatchRoundTrip` | motrix_envs/src/motrix_envs/mujoco_bridge/mjmx_bridge.py:68-81 | a batch with no environments stays empty after `load_keyframe`, and `update` then fails on it |
| `MjMxBridge.SyncRoundTrip` | motrix_envs/src/motrix_envs/mujoco_bridge/mjmx_bridge.py:69-85 | `load_keyframe`'s gather, applied to the qpos that `update` wrote, returns the dof_pos that `update` was given |
| `MjMxBridge.UpdateFreeBody` | motrix_envs/src/motrix_envs/mujoco_bridge/mjmx_bridge.py:46-71 | after `update`, a free body's translation is copied as it is, and its quaternion (x, y, z, w) lands in MuJoCo order (w, x, y, z) |
| `MjMxBridge.LoadFreeBody` | motrix_envs/src/motrix_envs/mujoco_bridge/mjmx_bridge.py:46-85 | `load_keyframe` hands a free body's translation over as it is, and its quaternion (w, x, y, z) over as (x, y, z, w) |
| `Go2WalkLidar.SelectPattern` | motrix_envs/src/motrix_envs/locomotion/go2/walk_lidar_np.py:123-138 | succeeds if and only if the name is one of the five Livox names or one of the five fixed names; the Livox flag is set exactly for Livox names; each of `airy`, `HDL64`, `vlp32`, `os128` gets its own generator and `custom` the 360 x 64 grid; other names give `UnsupportedLidar` with that name; the chosen pattern has equal-length angle sequences |
| `Go2WalkLidar.DefaultLidarSupported` | motrix_envs/src/motrix_envs/locomotion/go2/walk_lidar_np.py:86-89 | the default sensor "mid360" is accepted and served by the Livox generator |
| `Go2WalkLidar.DownsamplePattern` | motrix_envs/src/motrix_envs/locomotion/go2/walk_lidar_np.py:139-141 | k <= 1 leaves both sequences unchanged; k > 1 makes both ceil(n/k) long, with element i taken from i*k of each; the first element is kept, and the two lengths stay equal |
| `Go2WalkLidar.GeomGroupMask` | motrix_envs/src/motrix_envs/locomotion/go2/walk_lidar_np.py:100 | six groups; only group 2 is enabled |
| `Go2WalkLidar.GetObs` | motrix_envs/src/motrix_envs/locomotion/go2/walk_lidar_np.py:188-195 | keys are exactly "lidar_points" and "state_obs"; "state_obs" is the parent observation unchanged |
| `Go2WalkLidar.Go2WalkLidarTask.constructor` | motrix_envs/src/motrix_envs/locomotion/go2/walk_lidar_np.py:100-141 | stores the mask, repeats the geom snapshot num_envs times, and strides both angle sequences as `DownsamplePattern` says |
| `Go2WalkLidar.Go2WalkLidarTask.Create` | motrix_envs/src/motrix_envs/locomotion/go2/walk_lidar_np.py:93-141 | fails exactly for unsupported names, and no task is left behind; otherwise the bridge is valid and holds the default pose, the flags `dynamic_lidar` and `downsample` are copied from the configuration, every snapshot row is the kinematics of the default pose, and the rays are the selected pattern, downsampled |

## Left out

- Model loading from MJCF and assets (mjmx_bridge.py:36-39) is not modelled; the model is a value. `mj_forward`'s kinematics is the function `kin`, and its other outputs are not modelled.
- MjMxBridge.Bridge.Forward: it is assumed that `mj_forward` does not write qpos, qvel or ctrl.
- MjMxBridge.Bridge.Update: returns a status rather than the MjData object; callers read the bridge's fields.
- Only 1-D and 2-D `dof_pos` arrays are modelled; arrays with more dimensions are not.
- MujocoModel.FindKey: a negative keyframe index is treated as missing. Name lookup returns the first keyframe with that name, as MuJoCo's name-to-id lookup does.
- NdArray.Scatter: models numpy fancy assignment with repeated indices as "last write wins". The map is a permutation on every compiled model, so no index repeats.
- QposIndexMap.IndexMapIsPermutation (and with it KeyframeRoundTrip, SyncRoundTrip, UpdateFreeBody and LoadFreeBody) requires free joints' qpos ranges not to overlap. A compiled MuJoCo model always meets this.
- Setters of the other engine (`set_dof_pos`, `set_dof_vel`, `actuator_ctrls`) are modelled as plain assignments.
- Ray tracing (`trace_rays_batch`) is not modelled: it is external GPU/JAX floating-point work.
- Go2WalkLidar.GetObs: the `np.array(...)` conversion of the `(distances, local_points)` pair (walk_lidar_np.py:193) is not modelled. The two parts have shapes `(N, R)` and `(N, R, 3)`, so the pair is inhomogeneous: numpy 1.24 and later raise `ValueError` there, older versions build an object array. The model returns the pair unconverted.
- The ray-tracing wrapper is built (walk_lidar_np.py:101-115) before an unsupported name is rejected (walk_lidar_np.py:137-138); the wrapper is not modelled, so `Create`'s failure leaves nothing behind, where the code has already built and discarded the wrapper.
- `get_lidar_scan` is not modelled, including multiplying directions by distances and regenerating the pattern when `dynamic_lidar` is set. `GetObs` takes the scan result as a parameter.
- The pattern generators of the LiDAR library are not modelled. They are given as values that return two angle sequences; the grid generator's phi range (0, pi/2) lives inside it.
- The LiDAR wrapper's construction (`MjLidarJax`/`MjLidarTi`, the `base` body lookup, `update`) and the `lidar` site lookup are not modelled: foreign calls.
- The float32 conversion of the angle arrays (walk_lidar_np.py:142-143) is not modelled: floating point.
- `use_livox_lidar` and `livox_generator` are set only in the Livox branch. The model records `useLivox` as false for other names, where the source leaves the attribute unset.
- The parent task (`Go2WalkTask.__init__`, its `_get_obs`) is not modelled: its observation is an opaque vector.
- Backend selection through `LIDAR_BACKEND`, version asserts, conditional imports, `taichi` initialisation and XLA environment settings are not modelled: module-level global state.
- `print_lidar_note` and `exit(0)` on a missing import are not modelled: console output and process exit.
- `motrix_rl/src/motrix_rl/cfgs.py` is not part of this model: hyperparameter records with no logic.
