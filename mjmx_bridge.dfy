/** `MjMxBridge`: keeps a MuJoCo scene (model + data) in step with the other
    engine's scene state. The MuJoCo calls it makes are modelled as steps on the
    bridge's own state: `mj_resetData` and `mj_resetDataKeyframe` set qpos, qvel
    and ctrl and clear the derived quantities, and `mj_forward` recomputes the
    derived quantities (here the geom frames) from qpos through `kin`, a function
    standing for the engine's kinematics. */
module MjMxBridge {
  import opened Results
  import opened NdArray
  import opened MujocoModel
  import opened QposIndexMap

  /** An array of the other engine: one environment (1-D) or a batch of
      environments (2-D, one row of `width` numbers per environment). */
  datatype RawBuffer = Single(v: seq<real>) | Batched(width: nat, rows: seq<seq<real>>)

  predicate Rectangular(b: RawBuffer)
  {
    b.Batched? ==> forall e :: 0 <= e < |b.rows| ==> |b.rows[e]| == b.width
  }

  type Buffer = b: RawBuffer | Rectangular(b) witness Single([])

  /** `shape[-1]`. */
  function TrailingDim(b: Buffer): nat
  {
    match b
    case Single(v) => |v|
    case Batched(w, _) => w
  }

  datatype BridgeError =
    | DofSizeMismatch(got: nat, expected: nat)  // the size assertion of `update`
    | EmptyBatch                                // `dof_pos[0, :]` of a batch with no rows
    | NoSuchKeyframe(id: KeyId)                 // `model.key(id)` finds nothing

  datatype Status = Done | Failed(error: BridgeError)

  /** The vector `update` copies into qpos: all of a 1-D dof_pos, row 0 of a 2-D
      one, after checking that the trailing size is nq. */
  function SyncSource(dofPos: Buffer, nq: nat): (r: Result<seq<real>, BridgeError>)
    ensures r.Success? <==> TrailingDim(dofPos) == nq && !(dofPos.Batched? && |dofPos.rows| == 0)
    ensures TrailingDim(dofPos) != nq ==> r == Failure(DofSizeMismatch(TrailingDim(dofPos), nq))
    ensures TrailingDim(dofPos) == nq && dofPos.Batched? && |dofPos.rows| == 0 ==> r == Failure(EmptyBatch)
    ensures r.Success? ==> |r.value| == nq
    ensures r.Success? && dofPos.Single? ==> r.value == dofPos.v
    ensures r.Success? && dofPos.Batched? ==> r.value == dofPos.rows[0]
  {
    if TrailingDim(dofPos) != nq then Failure(DofSizeMismatch(TrailingDim(dofPos), nq))
    else match dofPos
      case Single(v) => Success(v)
      case Batched(_, rows) => if |rows| == 0 then Failure(EmptyBatch) else Success(rows[0])
  }

  /** What `load_keyframe` writes for a vector v, shaped after dof_pos: v itself
      for a single environment, one copy of v per environment for a batch. */
  function Broadcast(like: Buffer, v: seq<real>): (r: Buffer)
    ensures r.Single? <==> like.Single?
    ensures r.Single? ==> r.v == v
    ensures r.Batched? ==> r.width == |v| && |r.rows| == |like.rows|
    ensures r.Batched? ==> forall e :: 0 <= e < |r.rows| ==> r.rows[e] == v
  {
    match like
    case Single(_) => Single(v)
    case Batched(_, rows) => Batched(|v|, Repeat(v, |rows|))
  }

  /** The other engine's scene state (`SceneData`): the three arrays the bridge
      reads or writes. Its setters are modelled as plain assignments. */
  class SceneData {
    var dofPos: Buffer
    var dofVel: Buffer
    var actuatorCtrls: Buffer

    constructor (dofPos: Buffer, dofVel: Buffer, actuatorCtrls: Buffer)
      ensures this.dofPos == dofPos && this.dofVel == dofVel && this.actuatorCtrls == actuatorCtrls
    {
      this.dofPos := dofPos;
      this.dofVel := dofVel;
      this.actuatorCtrls := actuatorCtrls;
    }
  }

  class Bridge {
    const model: Model
    const kin: seq<real> -> GeomFrames
    /** `map_qpos_idx_mjmx`, filled in by the constructor and never written again. */
    const qposIdxMap: array<int>
    /** `mj_data.qpos`, written in place. */
    const qpos: array<real>
    var qvel: seq<real>
    var ctrl: seq<real>
    /** Derived quantities: Some after mj_forward, None once a reset cleared them. */
    var frames: Option<GeomFrames>

    ghost predicate Valid()
      reads this, qposIdxMap, qpos
    {
      && WellFormed(model)
      && qposIdxMap[..] == IndexMap(model)
      && qpos.Length == model.nq
      && |qvel| == model.nv
      && |ctrl| == model.nu
    }

    /** Allocates MjData (qpos = qpos0, zero velocities and controls) and builds
        the index map: the identity, with the quaternion block of every free body
        rotated. */
    constructor (model: Model, kin: seq<real> -> GeomFrames)
      requires WellFormed(model)
      ensures Valid()
      ensures this.model == model && this.kin == kin
      ensures fresh(qposIdxMap) && fresh(qpos)
      ensures qpos[..] == model.qpos0
      ensures qvel == Repeat(0.0, model.nv) && ctrl == Repeat(0.0, model.nu)
      ensures frames == None
    {
      this.model := model;
      this.kin := kin;
      var idx := new int[model.nq](i => i);
      var b := 0;
      while b < NBody(model)
        invariant 0 <= b <= NBody(model)
        invariant idx[..] == MapAfter(model, b)
      {
        if model.bodyDofnum[b] == 6 && model.bodyJntadr[b] > -1 && model.jntType[model.bodyJntadr[b]] == Free {
          // MuJoCo keeps the quaternion as (w, x, y, z), the other engine as (x, y, z, w)
          assert IsFreeBody(model, b);
          var adr := model.jntQposadr[model.bodyJntadr[b]];
          idx[adr + 3], idx[adr + 4], idx[adr + 5], idx[adr + 6] := adr + 4, adr + 5, adr + 6, adr + 3;
        }
        b := b + 1;
      }
      qposIdxMap := idx;
      qpos := new real[model.nq](i requires 0 <= i < model.nq => model.qpos0[i]);
      qvel := Repeat(0.0, model.nv);
      ctrl := Repeat(0.0, model.nu);
      frames := None;
    }

    /** `mj_resetData`: default pose, zero velocities and controls. */
    method Reset()
      requires Valid()
      modifies qpos, this`qvel, this`ctrl, this`frames
      ensures Valid()
      ensures qpos[..] == model.qpos0
      ensures qvel == Repeat(0.0, model.nv) && ctrl == Repeat(0.0, model.nu)
      ensures frames == None
    {
      forall i | 0 <= i < qpos.Length {
        qpos[i] := model.qpos0[i];
      }
      qvel := Repeat(0.0, model.nv);
      ctrl := Repeat(0.0, model.nu);
      frames := None;
    }

    /** `mj_forward`: recomputes the derived quantities from qpos; qpos, qvel and
        ctrl are read, not written. */
    method Forward()
      requires Valid()
      modifies this`frames
      ensures Valid()
      ensures frames == Some(kin(qpos[..]))
    {
      frames := Some(kin(qpos[..]));
    }

    /** `mj_resetDataKeyframe`: the pose, velocities and controls of keyframe k. */
    method ResetDataKeyframe(k: nat)
      requires Valid() && k < |model.keys|
      modifies qpos, this`qvel, this`ctrl, this`frames
      ensures Valid()
      ensures qpos[..] == model.keys[k].qpos
      ensures qvel == model.keys[k].qvel && ctrl == model.keys[k].ctrl
      ensures frames == None
    {
      var key := model.keys[k];
      assert KeyShaped(model, key);
      forall i | 0 <= i < qpos.Length {
        qpos[i] := key.qpos[i];
      }
      qvel := key.qvel;
      ctrl := key.ctrl;
      frames := None;
    }

    /** `update`: scatters the other engine's positions into qpos through the index
        map (qpos[map[i]] = dof_pos[i]) and runs mj_forward. A wrong trailing size
        fails before anything is written. */
    method Update(mx: SceneData) returns (status: Status)
      requires Valid()
      modifies qpos, this`frames
      ensures Valid()
      ensures qvel == old(qvel) && ctrl == old(ctrl)
      ensures match SyncSource(mx.dofPos, model.nq)
        case Failure(e) => status == Failed(e) && qpos[..] == old(qpos[..]) && frames == old(frames)
        case Success(row) =>
          && status == Done
          && qpos[..] == Scatter(old(qpos[..]), qposIdxMap[..], row)
          && frames == Some(kin(qpos[..]))
    {
      var src := SyncSource(mx.dofPos, model.nq);
      if src.Failure? {
        return Failed(src.error);
      }
      var row := src.value;
      var i := 0;
      while i < |row|
        invariant 0 <= i <= |row|
        invariant qpos[..] == Scatter(old(qpos[..]), qposIdxMap[..i], row[..i])
      {
        assert qposIdxMap[..i + 1][..i] == qposIdxMap[..i] && row[..i + 1][..i] == row[..i];
        qpos[qposIdxMap[i]] := row[i];
        i := i + 1;
      }
      assert qposIdxMap[..i] == qposIdxMap[..] && row[..i] == row;
      Forward();
      status := Done;
    }

    /** `load_keyframe`: resets, loads the keyframe, runs mj_forward, then gathers
        qpos through the index map (dof_pos[i] = qpos[map[i]]) into the other
        engine, with velocities and controls copied as they are; a batched state
        gets the same rows in every environment. A missing keyframe fails after
        the reset and before the other engine is touched. */
    method LoadKeyframe(mx: SceneData, key: KeyId) returns (status: Status)
      requires Valid()
      modifies qpos, this`qvel, this`ctrl, this`frames, mx
      ensures Valid()
      ensures match FindKey(model.keys, key)
        case None =>
          && status == Failed(NoSuchKeyframe(key))
          && qpos[..] == model.qpos0
          && qvel == Repeat(0.0, model.nv) && ctrl == Repeat(0.0, model.nu)
          && frames == None
          && mx.dofPos == old(mx.dofPos) && mx.dofVel == old(mx.dofVel)
          && mx.actuatorCtrls == old(mx.actuatorCtrls)
        case Some(k) =>
          && status == Done
          && qpos[..] == model.keys[k].qpos
          && qvel == model.keys[k].qvel && ctrl == model.keys[k].ctrl
          && frames == Some(kin(model.keys[k].qpos))
          && mx.dofPos == Broadcast(old(mx.dofPos), Gather(model.keys[k].qpos, qposIdxMap[..]))
          && mx.dofVel == Broadcast(old(mx.dofPos), model.keys[k].qvel)
          && mx.actuatorCtrls == Broadcast(old(mx.dofPos), model.keys[k].ctrl)
    {
      Reset();
      var found := FindKey(model.keys, key);
      if found.None? {
        return Failed(NoSuchKeyframe(key));
      }
      ResetDataKeyframe(found.value);
      Forward();
      var like := mx.dofPos;
      mx.dofPos := Broadcast(like, Gather(qpos[..], qposIdxMap[..]));
      mx.dofVel := Broadcast(like, qvel);
      mx.actuatorCtrls := Broadcast(like, ctrl);
      status := Done;
    }
  }

  /** `update` on what `load_keyframe` wrote reproduces the keyframe's qpos, for a
      single environment and for a non-empty batch, whatever qpos held before. */
  lemma KeyframeRoundTrip(m: Model, like: Buffer, q: seq<real>, before: seq<real>)
    requires WellFormed(m) && FreeBlocksDisjoint(m)
    requires |q| == m.nq && |before| == m.nq
    requires !(like.Batched? && |like.rows| == 0)
    ensures var pos := Gather(q, IndexMap(m));
      && SyncSource(Broadcast(like, pos), m.nq) == Success(pos)
      && Scatter(before, IndexMap(m), pos) == q
  {
    IndexMapIsPermutation(m);
    ScatterOfGather(before, q, IndexMap(m));
  }

  /** A batch with no rows survives `load_keyframe` as a batch with no rows, and
      `update` then fails on it. */
  lemma EmptyBatchRoundTrip(m: Model, like: Buffer, v: seq<real>)
    requires like.Batched? && |like.rows| == 0 && |v| == m.nq
    ensures SyncSource(Broadcast(like, v), m.nq) == Failure(EmptyBatch)
  {
  }

  /** Reading back through the map after `update` gives the positions that were
      written: the gather of `load_keyframe` undoes the scatter of `update`. */
  lemma SyncRoundTrip(m: Model, dof: seq<real>, before: seq<real>)
    requires WellFormed(m) && FreeBlocksDisjoint(m)
    requires |dof| == m.nq && |before| == m.nq
    ensures Gather(Scatter(before, IndexMap(m), dof), IndexMap(m)) == dof
  {
    IndexMapIsPermutation(m);
    GatherOfScatter(before, IndexMap(m), dof);
  }

  /** After `update`, a free body's qpos holds the other engine's translation as
      it is and its quaternion (x, y, z, w) in MuJoCo's order (w, x, y, z). */
  lemma UpdateFreeBody(m: Model, b: int, dof: seq<real>, before: seq<real>)
    requires WellFormed(m) && FreeBlocksDisjoint(m)
    requires 0 <= b < NBody(m) && IsFreeBody(m, b)
    requires |dof| == m.nq && |before| == m.nq
    ensures var a, q := FreeQposAdr(m, b), Scatter(before, IndexMap(m), dof);
      && q[a] == dof[a] && q[a + 1] == dof[a + 1] && q[a + 2] == dof[a + 2]
      && q[a + 3] == dof[a + 6] && q[a + 4] == dof[a + 3]
      && q[a + 5] == dof[a + 4] && q[a + 6] == dof[a + 5]
  {
    IndexMapIsPermutation(m);
    IndexMapFreeBody(m, b);
    var a, p := FreeQposAdr(m, b), IndexMap(m);
    ScatterWritten(before, p, dof, a);
    ScatterWritten(before, p, dof, a + 1);
    ScatterWritten(before, p, dof, a + 2);
    ScatterWritten(before, p, dof, a + 3);
    ScatterWritten(before, p, dof, a + 4);
    ScatterWritten(before, p, dof, a + 5);
    ScatterWritten(before, p, dof, a + 6);
  }

  /** `load_keyframe` hands a free body's quaternion (w, x, y, z) to the other
      engine as (x, y, z, w), and its translation as it is. */
  lemma LoadFreeBody(m: Model, b: int, q: seq<real>)
    requires WellFormed(m) && FreeBlocksDisjoint(m)
    requires 0 <= b < NBody(m) && IsFreeBody(m, b)
    requires |q| == m.nq
    ensures var a, pos := FreeQposAdr(m, b), Gather(q, IndexMap(m));
      && pos[a] == q[a] && pos[a + 1] == q[a + 1] && pos[a + 2] == q[a + 2]
      && pos[a + 3] == q[a + 4] && pos[a + 4] == q[a + 5]
      && pos[a + 5] == q[a + 6] && pos[a + 6] == q[a + 3]
  {
    IndexMapFreeBody(m, b);
  }
}
