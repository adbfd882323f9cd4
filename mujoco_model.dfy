/** The parts of a MuJoCo model (`mjModel`) that the bridge reads: the sizes
    nq, nv and nu, the per-body degree-of-freedom count and first-joint address,
    the per-joint type and qpos address, the default pose qpos0 and the
    keyframes. Loading a model from an MJCF file is the engine's business; here a
    model is a value. */
module MujocoModel {
  import opened Results

  /** `mjtJoint`: mjJNT_FREE = 0, mjJNT_BALL = 1, mjJNT_SLIDE = 2, mjJNT_HINGE = 3. */
  datatype JointType = Free | Ball | Slide | Hinge

  /** A keyframe stored with the model: its name and its qpos, qvel and ctrl. */
  datatype Keyframe = Keyframe(name: string, qpos: seq<real>, qvel: seq<real>, ctrl: seq<real>)

  /** `model.key(...)` accepts a keyframe index or a keyframe name. */
  datatype KeyId = KeyIndex(index: int) | KeyName(name: string)

  /** World positions (3 numbers each) and orientations (9 numbers each) of every
      geom, the part of mj_forward's output the LiDAR task reads. */
  datatype GeomFrames = GeomFrames(xpos: seq<seq<real>>, xmat: seq<seq<real>>)

  datatype Model = Model(
    nq: nat,                  // number of generalized position coordinates
    nv: nat,                  // number of degrees of freedom
    nu: nat,                  // number of actuators
    bodyDofnum: seq<int>,     // body_dofnum, one entry per body
    bodyJntadr: seq<int>,     // body_jntadr: first joint of the body, -1 if none
    jntType: seq<JointType>,  // jnt_type, one entry per joint
    jntQposadr: seq<int>,     // jnt_qposadr: first qpos slot of the joint
    qpos0: seq<real>,         // default pose
    keys: seq<Keyframe>)

  function NBody(m: Model): nat
  {
    |m.bodyDofnum|
  }

  /** The per-body and per-joint tables have matching lengths and every joint
      address is -1 or names a joint. */
  predicate Indexed(m: Model)
  {
    && |m.bodyJntadr| == |m.bodyDofnum|
    && |m.jntQposadr| == |m.jntType|
    && forall b :: 0 <= b < |m.bodyJntadr| ==> -1 <= m.bodyJntadr[b] < |m.jntType|
  }

  /** The guard of the index-map construction: six degrees of freedom, a joint,
      and that joint is a free joint. */
  predicate IsFreeBody(m: Model, b: int)
    requires Indexed(m) && 0 <= b < NBody(m)
  {
    m.bodyDofnum[b] == 6 && m.bodyJntadr[b] > -1 && m.jntType[m.bodyJntadr[b]] == Free
  }

  /** qpos address of the free joint governing body b. */
  function FreeQposAdr(m: Model, b: int): int
    requires Indexed(m) && 0 <= b < NBody(m) && IsFreeBody(m, b)
  {
    m.jntQposadr[m.bodyJntadr[b]]
  }

  /** Slot j lies in the quaternion part (offsets 3 .. 6) of free body b's qpos. */
  predicate InFreeBlock(m: Model, b: int, j: int)
    requires Indexed(m) && 0 <= b < NBody(m) && IsFreeBody(m, b)
  {
    FreeQposAdr(m, b) + 3 <= j < FreeQposAdr(m, b) + 7
  }

  /** A keyframe holds one value per qpos slot, per dof and per actuator. */
  predicate KeyShaped(m: Model, k: Keyframe)
  {
    |k.qpos| == m.nq && |k.qvel| == m.nv && |k.ctrl| == m.nu
  }

  /** What the engine guarantees of every compiled model and the bridge relies on:
      consistent tables, joint qpos addresses inside qpos, the seven qpos slots of
      a free joint inside qpos, and correctly sized default pose and keyframes. */
  predicate WellFormed(m: Model)
  {
    && Indexed(m)
    && (forall j :: 0 <= j < |m.jntQposadr| ==> 0 <= m.jntQposadr[j] < m.nq)
    && (forall b :: 0 <= b < NBody(m) && IsFreeBody(m, b) ==> FreeQposAdr(m, b) + 7 <= m.nq)
    && |m.qpos0| == m.nq
    && forall k :: 0 <= k < |m.keys| ==> KeyShaped(m, m.keys[k])
  }

  /** The qpos ranges (seven slots each) of two free bodies are the same joint's
      or do not overlap, as in every compiled model. */
  predicate FreeBlocksDisjoint(m: Model)
    requires Indexed(m)
  {
    forall b1, b2 ::
      0 <= b1 < NBody(m) && 0 <= b2 < NBody(m) && IsFreeBody(m, b1) && IsFreeBody(m, b2) ==>
        FreeQposAdr(m, b1) == FreeQposAdr(m, b2)
        || FreeQposAdr(m, b1) + 7 <= FreeQposAdr(m, b2)
        || FreeQposAdr(m, b2) + 7 <= FreeQposAdr(m, b1)
  }

  /** Index of the first keyframe at or after `from` that is called `name`. */
  function FirstNamed(keys: seq<Keyframe>, name: string, from: nat): (r: Option<nat>)
    requires from <= |keys|
    ensures r.Some? ==> from <= r.value < |keys| && keys[r.value].name == name
    ensures r.Some? ==> forall k :: from <= k < r.value ==> keys[k].name != name
    ensures r.None? ==> forall k :: from <= k < |keys| ==> keys[k].name != name
    decreases |keys| - from
  {
    if from == |keys| then None
    else if keys[from].name == name then Some(from)
    else FirstNamed(keys, name, from + 1)
  }

  /** `model.key(id)`: an index must name an existing keyframe; a name selects the
      first keyframe with that name. None stands for the lookup error. */
  function FindKey(keys: seq<Keyframe>, id: KeyId): (r: Option<nat>)
    ensures r.Some? ==> r.value < |keys|
    ensures id.KeyIndex? ==> (r.Some? <==> 0 <= id.index < |keys|)
    ensures id.KeyIndex? && r.Some? ==> r.value == id.index
    ensures id.KeyName? ==> (r.None? <==> forall k :: 0 <= k < |keys| ==> keys[k].name != id.name)
    ensures id.KeyName? && r.Some? ==>
      keys[r.value].name == id.name && forall k :: 0 <= k < r.value ==> keys[k].name != id.name
  {
    match id
    case KeyIndex(i) => if 0 <= i < |keys| then Some(i) else None
    case KeyName(name) => FirstNamed(keys, name, 0)
  }
}
