/**
 * The two entities the cuboid controller works on, and the volume arithmetic
 * it relies on: a cuboid's payload volume and a bag's available volume.
 *
 * The Go package that defines them (app/models) is not part of this model;
 * the definitions follow how the controller and its tests use them.
 */
module Models {

  /** A cuboid row. Dimensions and ids are unsigned in the source, so `nat` here. */
  datatype Cuboid = Cuboid(id: nat, width: nat, height: nat, depth: nat, bagId: nat)

  /**
   * A bag as the controller loads it, with its cuboids preloaded and keyed by
   * cuboid id (the order in which the database lists them plays no part).
   */
  datatype Bag = Bag(id: nat, title: string, volume: nat, disabled: bool, cuboids: map<nat, Cuboid>)

  /** The space a cuboid takes: width times height times depth. */
  function PayloadVolume(c: Cuboid): (v: nat)
    ensures v == 0 <==> c.width == 0 || c.height == 0 || c.depth == 0
  {
    c.width * c.height * c.depth
  }

  lemma {:induction false} LeastExists(keys: set<nat>)
    requires keys != {}
    ensures exists k :: k in keys && forall j :: j in keys ==> k <= j
    decreases |keys|
  {
    var x :| x in keys;
    if keys != {x} {
      var rest := keys - {x};
      LeastExists(rest);
      var m :| m in rest && forall j :: j in rest ==> m <= j;
      var least := if x < m then x else m;
      forall j | j in keys ensures least <= j {
        if j != x { assert j in rest; }
      }
    }
  }

  /** The smallest key of a non-empty key set; it fixes the order of summation. */
  function Least(keys: set<nat>): (k: nat)
    requires keys != {}
    ensures k in keys && forall j :: j in keys ==> k <= j
  {
    LeastExists(keys);
    var k :| k in keys && forall j :: j in keys ==> k <= j;
    k
  }

  /** Total payload volume of a set of cuboids. */
  function SumVolumes(m: map<nat, Cuboid>): nat
    decreases |m|
  {
    if m == map[] then 0
    else
      var k := Least(m.Keys);
      assert |(m - {k}).Keys| == |m.Keys| - 1 by {
        assert (m - {k}).Keys == m.Keys - {k};
      }
      PayloadVolume(m[k]) + SumVolumes(m - {k})
  }

  /** Capacity left in a bag: its volume minus what its cuboids take (may be negative). */
  function AvailableVolume(b: Bag): (r: int)
    ensures r <= b.volume
    ensures r >= 0 <==> SumVolumes(b.cuboids) <= b.volume
  {
    b.volume - SumVolumes(b.cuboids)
  }

  /**
   * Any cuboid can be singled out of the sum, whichever key the summation
   * happens to start from.
   */
  lemma {:induction false} SumVolumesRemove(m: map<nat, Cuboid>, k: nat)
    requires k in m
    ensures SumVolumes(m) == PayloadVolume(m[k]) + SumVolumes(m - {k})
    decreases |m|
  {
    var l := Least(m.Keys);
    if l != k {
      var rest := m - {l};
      assert k in rest;
      assert |rest.Keys| == |m.Keys| - 1 by {
        assert rest.Keys == m.Keys - {l};
      }
      SumVolumesRemove(rest, k);
      var without := m - {k};
      assert l in without;
      assert Least(without.Keys) == l;
      assert without - {l} == rest - {k};
    }
  }

  /** Adding a cuboid under a fresh key adds its volume to the sum. */
  lemma SumVolumesInsert(m: map<nat, Cuboid>, k: nat, c: Cuboid)
    requires k !in m
    ensures SumVolumes(m[k := c]) == SumVolumes(m) + PayloadVolume(c)
  {
    SumVolumesRemove(m[k := c], k);
    assert m[k := c] - {k} == m;
  }

  /** Replacing a cuboid trades its old volume for the new one. */
  lemma SumVolumesReplace(m: map<nat, Cuboid>, k: nat, c: Cuboid)
    requires k in m
    ensures SumVolumes(m[k := c]) == SumVolumes(m) - PayloadVolume(m[k]) + PayloadVolume(c)
  {
    SumVolumesRemove(m, k);
    SumVolumesRemove(m[k := c], k);
    assert m[k := c] - {k} == m - {k};
  }

  /** The cuboids of a table that belong to bag `bagId`: what preloading a bag's cuboids yields. */
  function Children(table: map<nat, Cuboid>, bagId: nat): (m: map<nat, Cuboid>)
    ensures forall k :: k in m <==> k in table && table[k].bagId == bagId
    ensures forall k :: k in m ==> m[k] == table[k]
  {
    map k | k in table && table[k].bagId == bagId :: table[k]
  }

  lemma ChildrenAfterInsert(table: map<nat, Cuboid>, k: nat, c: Cuboid, bagId: nat)
    requires k !in table
    ensures Children(table[k := c], bagId)
            == if c.bagId == bagId then Children(table, bagId)[k := c] else Children(table, bagId)
  {
  }

  lemma ChildrenAfterReplace(table: map<nat, Cuboid>, k: nat, c: Cuboid, bagId: nat)
    requires k in table && c.bagId == table[k].bagId
    ensures Children(table[k := c], bagId)
            == if c.bagId == bagId then Children(table, bagId)[k := c] else Children(table, bagId)
  {
  }

  lemma ChildrenAfterRemove(table: map<nat, Cuboid>, k: nat, bagId: nat)
    requires k in table
    ensures Children(table - {k}, bagId)
            == if table[k].bagId == bagId then Children(table, bagId) - {k} else Children(table, bagId)
  {
  }

  /** Inserting a cuboid under a fresh id adds its volume to its own bag and to no other. */
  lemma OccupancyAfterInsert(table: map<nat, Cuboid>, k: nat, c: Cuboid, bagId: nat)
    requires k !in table
    ensures SumVolumes(Children(table[k := c], bagId))
            == SumVolumes(Children(table, bagId)) + (if c.bagId == bagId then PayloadVolume(c) else 0)
  {
    ChildrenAfterInsert(table, k, c, bagId);
    if c.bagId == bagId {
      SumVolumesInsert(Children(table, bagId), k, c);
    }
  }

  /** Resizing a cuboid in place changes only its own bag's total, by the difference of the volumes. */
  lemma OccupancyAfterReplace(table: map<nat, Cuboid>, k: nat, c: Cuboid, bagId: nat)
    requires k in table && c.bagId == table[k].bagId
    ensures SumVolumes(Children(table[k := c], bagId))
            == SumVolumes(Children(table, bagId))
               + (if c.bagId == bagId then PayloadVolume(c) - PayloadVolume(table[k]) else 0)
  {
    ChildrenAfterReplace(table, k, c, bagId);
    if c.bagId == bagId {
      SumVolumesReplace(Children(table, bagId), k, c);
    }
  }

  /** Removing a cuboid takes its volume off its own bag's total and off no other. */
  lemma OccupancyAfterRemove(table: map<nat, Cuboid>, k: nat, bagId: nat)
    requires k in table
    ensures SumVolumes(Children(table - {k}, bagId))
            == SumVolumes(Children(table, bagId)) - (if table[k].bagId == bagId then PayloadVolume(table[k]) else 0)
  {
    ChildrenAfterRemove(table, k, bagId);
    if table[k].bagId == bagId {
      SumVolumesRemove(Children(table, bagId), k);
    }
  }
}
