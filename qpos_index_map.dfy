/** The qpos index map of the bridge (`map_qpos_idx_mjmx`). Entry i names the
    MuJoCo qpos slot that holds coordinate i of the other engine's dof_pos. It
    starts as the identity; for every free body the four quaternion slots are
    rotated, because MuJoCo stores a free joint as xyz + quat[wxyz] while the
    other engine stores xyz + quat[xyzw]. */
module QposIndexMap {
  import opened NdArray
  import opened MujocoModel

  /** Map entry of slot j in the quaternion block of a free joint at qpos address
      adr: offsets 3, 4, 5, 6 point at offsets 4, 5, 6, 3. */
  function QuatSlot(adr: int, j: int): int
  {
    if j == adr + 6 then adr + 3 else j + 1
  }

  /** The slice assignment `map[adr+3:adr+7] = [adr+4, adr+5, adr+6, adr+3]`. */
  function WriteFreeBlock(p: seq<int>, adr: int): (r: seq<int>)
    requires 0 <= adr && adr + 7 <= |p|
    ensures |r| == |p|
    ensures forall j :: 0 <= j < |p| ==> r[j] == if adr + 3 <= j < adr + 7 then QuatSlot(adr, j) else p[j]
  {
    p[adr + 3 := adr + 4][adr + 4 := adr + 5][adr + 5 := adr + 6][adr + 6 := adr + 3]
  }

  /** The map after the construction loop has visited bodies 0 .. k-1. */
  function MapAfter(m: Model, k: nat): (r: seq<int>)
    requires WellFormed(m) && k <= NBody(m)
    ensures |r| == m.nq && InRange(r, m.nq)
    decreases k
  {
    if k == 0 then Identity(m.nq)
    else
      var p := MapAfter(m, k - 1);
      if IsFreeBody(m, k - 1) then WriteFreeBlock(p, FreeQposAdr(m, k - 1)) else p
  }

  /** The map once every body has been visited. */
  function IndexMap(m: Model): (r: seq<int>)
    requires WellFormed(m)
    ensures |r| == m.nq && InRange(r, m.nq)
  {
    MapAfter(m, NBody(m))
  }

  /** The last free body among 0 .. k-1 whose quaternion block holds slot j, or -1
      when there is none. */
  function Owner(m: Model, k: nat, j: int): (b: int)
    requires WellFormed(m) && k <= NBody(m)
    ensures -1 <= b < k
    ensures b >= 0 ==> IsFreeBody(m, b) && InFreeBlock(m, b, j)
    ensures b < 0 ==> forall c :: 0 <= c < k && IsFreeBody(m, c) ==> !InFreeBlock(m, c, j)
    decreases k
  {
    if k == 0 then -1
    else if IsFreeBody(m, k - 1) && InFreeBlock(m, k - 1, j) then k - 1
    else Owner(m, k - 1, j)
  }

  /** Entry j after k bodies: the identity, unless a free body's block holds j, in
      which case the rotation of the last such body. */
  lemma {:induction false} MapAfterEntry(m: Model, k: nat, j: int)
    requires WellFormed(m) && k <= NBody(m) && 0 <= j < m.nq
    ensures var b := Owner(m, k, j);
      MapAfter(m, k)[j] == if b < 0 then j else QuatSlot(FreeQposAdr(m, b), j)
    decreases k
  {
    if k > 0 {
      MapAfterEntry(m, k - 1, j);
    }
  }

  /** Two free bodies whose quaternion blocks share a slot have the same qpos address. */
  lemma SameFreeJoint(m: Model, b1: int, b2: int, j: int)
    requires WellFormed(m) && FreeBlocksDisjoint(m)
    requires 0 <= b1 < NBody(m) && IsFreeBody(m, b1) && InFreeBlock(m, b1, j)
    requires 0 <= b2 < NBody(m) && IsFreeBody(m, b2) && InFreeBlock(m, b2, j)
    ensures FreeQposAdr(m, b1) == FreeQposAdr(m, b2)
  {
  }

  /** The map moves exactly the slots in a free body's quaternion block: the
      joint-type guard, not the degree-of-freedom count alone, decides. */
  lemma IndexMapMoves(m: Model, j: int)
    requires WellFormed(m) && 0 <= j < m.nq
    ensures IndexMap(m)[j] != j <==>
      exists b :: 0 <= b < NBody(m) && IsFreeBody(m, b) && InFreeBlock(m, b, j)
  {
    MapAfterEntry(m, NBody(m), j);
  }

  /** Outside every free body's quaternion block the map is the identity. */
  lemma IndexMapIdentityElsewhere(m: Model, j: int)
    requires WellFormed(m) && 0 <= j < m.nq
    requires forall b :: 0 <= b < NBody(m) && IsFreeBody(m, b) ==> !InFreeBlock(m, b, j)
    ensures IndexMap(m)[j] == j
  {
    IndexMapMoves(m, j);
  }

  /** For a free body at qpos address a, the translational entries a .. a+2 stay
      the identity and the quaternion entries a+3 .. a+6 hold a+4, a+5, a+6, a+3. */
  lemma IndexMapFreeBody(m: Model, b: int)
    requires WellFormed(m) && FreeBlocksDisjoint(m)
    requires 0 <= b < NBody(m) && IsFreeBody(m, b)
    ensures var a, p := FreeQposAdr(m, b), IndexMap(m);
      && p[a] == a && p[a + 1] == a + 1 && p[a + 2] == a + 2
      && p[a + 3] == a + 4 && p[a + 4] == a + 5 && p[a + 5] == a + 6 && p[a + 6] == a + 3
  {
    var a := FreeQposAdr(m, b);
    var p := IndexMap(m);
    forall j | a <= j < a + 7
      ensures p[j] == if j < a + 3 then j else QuatSlot(a, j)
    {
      MapAfterEntry(m, NBody(m), j);
      var c := Owner(m, NBody(m), j);
      if c >= 0 {
        SameFreeJoint(m, b, c, FreeQposAdr(m, c) + 3);
      }
    }
  }

  /** With the free joints' qpos ranges apart, the map is a permutation of
      0 .. nq-1. */
  lemma IndexMapIsPermutation(m: Model)
    requires WellFormed(m) && FreeBlocksDisjoint(m)
    ensures IsPermutation(IndexMap(m))
  {
    var p := IndexMap(m);
    var n := NBody(m);
    forall i, j | 0 <= i < j < |p|
      ensures p[i] != p[j]
    {
      MapAfterEntry(m, n, i);
      MapAfterEntry(m, n, j);
      var bi, bj := Owner(m, n, i), Owner(m, n, j);
      if bi >= 0 && bj >= 0 {
        assert InFreeBlock(m, bi, p[i]) && InFreeBlock(m, bj, p[j]);
      } else if bi >= 0 {
        assert InFreeBlock(m, bi, p[i]);
      } else if bj >= 0 {
        assert InFreeBlock(m, bj, p[j]);
      }
    }
    forall j | 0 <= j < |p|
      ensures Hit(p, j)
    {
      MapAfterEntry(m, n, j);
      var b := Owner(m, n, j);
      if b < 0 {
        assert p[j] == j;
      } else {
        var a := FreeQposAdr(m, b);
        var pre := if j == a + 3 then a + 6 else j - 1;
        assert InFreeBlock(m, b, pre);
        MapAfterEntry(m, n, pre);
        var c := Owner(m, n, pre);
        SameFreeJoint(m, b, c, pre);
        assert p[pre] == j;
      }
    }
  }
}
