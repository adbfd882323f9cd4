/** `Go2WalkLidarTask`: the Go2 walking task with a simulated LiDAR. What is
    modelled is its set-up (ray-pattern selection by sensor name, the optional
    stride, the geom-group mask, the geom-pose snapshot shared by all
    environments) and the shape of its observation. The ray patterns come from
    the LiDAR library's generators, given here as values; ray tracing stays
    outside the model. */
module Go2WalkLidar {
  import opened Results
  import opened NdArray
  import opened MujocoModel
  import opened MjMxBridge

  newtype byte = x: int | 0 <= x < 256

  /** Ray directions: polar angles `rays_theta` and azimuthal angles `rays_phi`. */
  datatype RayPattern = RayPattern(theta: seq<real>, phi: seq<real>)

  predicate Paired(p: RayPattern)
  {
    |p.theta| == |p.phi|
  }

  /** The pattern generators of the LiDAR library (`scan_gen`): the Livox family,
      keyed by sensor name, the four fixed patterns, and the grid pattern. */
  datatype Generators = Generators(
    livox: string -> RayPattern,        // LivoxGenerator(name).sample_ray_angles()
    airy96: RayPattern,                 // generate_airy96()
    hdl64: RayPattern,                  // generate_HDL64()
    vlp32: RayPattern,                  // generate_vlp32()
    os128: RayPattern,                  // generate_os128()
    gridScan: (nat, nat) -> RayPattern) // generate_grid_scan_pattern(h, v, phi_range=(0, pi/2))

  const LivoxTypes: set<string> := {"avia", "mid40", "mid70", "mid360", "tele"}
  const FixedTypes: set<string> := {"airy", "HDL64", "vlp32", "os128", "custom"}

  /** Resolution of the "custom" grid pattern. */
  const CustomHorizontal: nat := 360
  const CustomVertical: nat := 64

  /** Every generator the task can select returns two angle sequences of one length. */
  predicate GeneratorsValid(g: Generators)
  {
    && (forall name :: name in LivoxTypes ==> Paired(g.livox(name)))
    && Paired(g.airy96) && Paired(g.hdl64) && Paired(g.vlp32) && Paired(g.os128)
    && Paired(g.gridScan(CustomHorizontal, CustomVertical))
  }

  /** The LiDAR fields of `Go2LidarWalkNpEnvCfg`. */
  datatype LidarConfig = LidarConfig(lidartype: string, downsample: int, dynamicLidar: bool)

  /** The configuration's defaults: "mid360", no downsampling, a static pattern. */
  function DefaultLidarConfig(): LidarConfig
  {
    LidarConfig("mid360", 1, false)
  }

  /** The outcome of the sensor-name dispatch: the pattern, and whether the Livox
      generator was chosen (`use_livox_lidar`). */
  datatype Selection = Selection(pattern: RayPattern, useLivox: bool)

  datatype ConfigError = UnsupportedLidar(lidartype: string)

  /** The `lidartype` dispatch: a Livox name selects the Livox generator for that
      name, each fixed name its own generator, and any other name is a
      configuration error. */
  function SelectPattern(lidartype: string, g: Generators): (r: Result<Selection, ConfigError>)
    ensures r.Success? <==> lidartype in LivoxTypes + FixedTypes
    ensures r.Failure? ==> r.error == UnsupportedLidar(lidartype)
    ensures r.Success? ==> (r.value.useLivox <==> lidartype in LivoxTypes)
    ensures lidartype in LivoxTypes ==> r.value.pattern == g.livox(lidartype)
    ensures lidartype == "airy" ==> r.value.pattern == g.airy96
    ensures lidartype == "HDL64" ==> r.value.pattern == g.hdl64
    ensures lidartype == "vlp32" ==> r.value.pattern == g.vlp32
    ensures lidartype == "os128" ==> r.value.pattern == g.os128
    ensures lidartype == "custom" ==> r.value.pattern == g.gridScan(CustomHorizontal, CustomVertical)
    ensures r.Success? && GeneratorsValid(g) ==> Paired(r.value.pattern)
  {
    if lidartype in LivoxTypes then Success(Selection(g.livox(lidartype), true))
    else if lidartype == "airy" then Success(Selection(g.airy96, false))
    else if lidartype == "HDL64" then Success(Selection(g.hdl64, false))
    else if lidartype == "vlp32" then Success(Selection(g.vlp32, false))
    else if lidartype == "os128" then Success(Selection(g.os128, false))
    else if lidartype == "custom" then Success(Selection(g.gridScan(CustomHorizontal, CustomVertical), false))
    else Failure(UnsupportedLidar(lidartype))
  }

  /** The default configuration names a supported sensor, served by the Livox
      generator. */
  lemma DefaultLidarSupported(g: Generators)
    ensures SelectPattern(DefaultLidarConfig().lidartype, g).Success?
    ensures SelectPattern(DefaultLidarConfig().lidartype, g).value.useLivox
  {
  }

  /** The optional stride: with k > 1 both angle sequences become `[::k]`,
      otherwise both stay as they are. */
  function DownsamplePattern(p: RayPattern, k: int): (r: RayPattern)
    requires Paired(p)
    ensures Paired(r)
    ensures k <= 1 ==> r == p
    ensures k > 1 ==> |r.theta| == (|p.theta| + k - 1) / k
    ensures k > 1 ==> forall i :: 0 <= i < |r.theta| ==>
      i * k < |p.theta| && r.theta[i] == p.theta[i * k] && r.phi[i] == p.phi[i * k]
    ensures |p.theta| > 0 ==> |r.theta| > 0 && r.theta[0] == p.theta[0] && r.phi[0] == p.phi[0]
  {
    if k > 1 then
      StrideSpec(p.theta, k);
      StrideSpec(p.phi, k);
      RayPattern(Stride(p.theta, k), Stride(p.phi, k))
    else p
  }

  /** The geom-group filter: six groups, only group 2 (the terrain) is traced. */
  function GeomGroupMask(): (r: seq<byte>)
    ensures |r| == 6
    ensures forall g :: 0 <= g < 6 ==> (r[g] == 1 <==> g == 2) && (r[g] == 0 <==> g != 2)
  {
    [0, 0, 1, 0, 0, 0]
  }

  /** What `get_lidar_scan` returns: per environment and ray a distance, and per
      environment and ray a local hit point. */
  datatype ScanResult = ScanResult(distances: seq<seq<real>>, localPoints: seq<seq<seq<real>>>)

  datatype ObsValue = LidarPoints(scan: ScanResult) | StateObs(obs: seq<real>)

  const LidarPointsKey: string := "lidar_points"
  const StateObsKey: string := "state_obs"

  /** `_get_obs`: a record with exactly two keys; "state_obs" is the walking
      task's own observation untouched, "lidar_points" what `get_lidar_scan`
      returned. */
  function GetObs(raw: seq<real>, scan: ScanResult): (obs: map<string, ObsValue>)
    ensures obs.Keys == {LidarPointsKey, StateObsKey}
    ensures obs[StateObsKey] == StateObs(raw)
    ensures obs[LidarPointsKey] == LidarPoints(scan)
  {
    map[LidarPointsKey := LidarPoints(scan), StateObsKey := StateObs(raw)]
  }

  class Go2WalkLidarTask {
    const numEnvs: nat
    const bridge: Bridge
    const geomgroup: seq<byte>
    const dynamicLidar: bool
    const downsample: int
    /** Geom positions and orientations after the bridge's first mj_forward, one
        copy per environment, never refreshed. */
    const geomXposBatch: seq<seq<seq<real>>>
    const geomXmatBatch: seq<seq<seq<real>>>
    var raysTheta: seq<real>
    var raysPhi: seq<real>
    var useLivox: bool

    /** The part of `__init__` after the bridge's forward pass and the dispatch:
        stores the mask and the snapshot and applies the stride. */
    constructor (cfg: LidarConfig, numEnvs: nat, bridge: Bridge, sel: Selection)
      requires bridge.frames.Some? && Paired(sel.pattern)
      ensures this.numEnvs == numEnvs && this.bridge == bridge
      ensures geomgroup == GeomGroupMask()
      ensures dynamicLidar == cfg.dynamicLidar && downsample == cfg.downsample
      ensures geomXposBatch == Repeat(bridge.frames.value.xpos, numEnvs)
      ensures geomXmatBatch == Repeat(bridge.frames.value.xmat, numEnvs)
      ensures RayPattern(raysTheta, raysPhi) == DownsamplePattern(sel.pattern, cfg.downsample)
      ensures useLivox == sel.useLivox
    {
      this.numEnvs := numEnvs;
      this.bridge := bridge;
      geomgroup := GeomGroupMask();
      dynamicLidar := cfg.dynamicLidar;
      downsample := cfg.downsample;
      geomXposBatch := Repeat(bridge.frames.value.xpos, numEnvs);
      geomXmatBatch := Repeat(bridge.frames.value.xmat, numEnvs);
      raysTheta, raysPhi := sel.pattern.theta, sel.pattern.phi;
      useLivox := sel.useLivox;
      new;
      if cfg.downsample > 1 {
        raysTheta := Stride(raysTheta, cfg.downsample);
        raysPhi := Stride(raysPhi, cfg.downsample);
      }
    }

    /** `__init__`: builds the bridge over the task's model, runs mj_forward once,
        snapshots the geom poses, and dispatches on the sensor name; an unknown
        name fails and leaves no task behind. */
    static method Create(cfg: LidarConfig, numEnvs: nat, model: Model,
                         kin: seq<real> -> GeomFrames, gens: Generators)
      returns (r: Result<Go2WalkLidarTask, ConfigError>)
      requires WellFormed(model) && GeneratorsValid(gens)
      ensures r.Failure? <==> cfg.lidartype !in LivoxTypes + FixedTypes
      ensures r.Failure? ==> r.error == UnsupportedLidar(cfg.lidartype)
      ensures r.Success? ==>
        var t := r.value;
        && fresh(t) && fresh(t.bridge)
        && t.bridge.Valid()
        && t.bridge.model == model && t.bridge.qpos[..] == model.qpos0
        && t.numEnvs == numEnvs
        && t.dynamicLidar == cfg.dynamicLidar && t.downsample == cfg.downsample
        && t.geomgroup == GeomGroupMask()
        && t.geomXposBatch == Repeat(kin(model.qpos0).xpos, numEnvs)
        && t.geomXmatBatch == Repeat(kin(model.qpos0).xmat, numEnvs)
        && Paired(RayPattern(t.raysTheta, t.raysPhi))
        && RayPattern(t.raysTheta, t.raysPhi)
           == DownsamplePattern(SelectPattern(cfg.lidartype, gens).value.pattern, cfg.downsample)
        && (t.useLivox <==> cfg.lidartype in LivoxTypes)
    {
      var bridge := new Bridge(model, kin);
      bridge.Forward();
      var sel := SelectPattern(cfg.lidartype, gens);
      if sel.Failure? {
        return Failure(sel.error);
      }
      var task := new Go2WalkLidarTask(cfg, numEnvs, bridge, sel.value);
      r := Success(task);
    }
  }
}
