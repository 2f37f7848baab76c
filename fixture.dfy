/**
 * The scenarios of the controller's test suite, replayed against the model:
 * a bag of volume 5 holding a 1x1x1 and a 1x1x2 cuboid, so 2 units are free.
 * Each scenario starts from that fixture, as every test does.
 */
module Fixture {
  import opened Models
  import opened Validation
  import opened Handlers

  const FixtureBagId: nat := 1

  function FixtureCuboids(): map<nat, Cuboid>
  {
    map[1 := Cuboid(1, 1, 1, 1, FixtureBagId), 2 := Cuboid(2, 1, 1, 2, FixtureBagId)]
  }

  function FixtureBag(): Bag
  {
    Bag(FixtureBagId, "A bag", 5, false, FixtureCuboids())
  }

  /** The fixture bag holds 3 units of cuboids and has 2 free. */
  lemma FixtureOccupancy()
    ensures SumVolumes(FixtureCuboids()) == 3
    ensures AvailableVolume(FixtureBag()) == 2
  {
    var m := FixtureCuboids();
    SumVolumesRemove(m, 1);
    var rest := map[2 := Cuboid(2, 1, 1, 2, FixtureBagId)];
    assert m - {1} == rest;
    SumVolumesRemove(rest, 2);
    assert rest - {2} == map[];
  }

  /**
   * Create against the fixture bag: a 1x1x1 fits, a 1x1x2 fits exactly, a
   * 3x1x1 is refused for capacity, and the emptied, disabled bag refuses even
   * a cuboid that would fit.
   */
  lemma CreateChecks()
    ensures ValidateCreate(Found(FixtureBag()), Cuboid(0, 1, 1, 1, FixtureBagId)) == Pass
    ensures ValidateCreate(Found(FixtureBag()), Cuboid(0, 1, 1, 2, FixtureBagId)) == Pass
    ensures ValidateCreate(Found(FixtureBag()), Cuboid(0, 3, 1, 1, FixtureBagId)) == Fail(InsufficientCapacity)
    ensures ValidateCreate(Found(FixtureBag().(disabled := true, cuboids := map[])),
                           Cuboid(0, 1, 1, 1, FixtureBagId)) == Fail(BagIsDisabled)
  {
    FixtureOccupancy();
  }

  /**
   * Update of the fixture's 1x1x1 cuboid: growing it to 1x1x2 passes (3 units
   * are free once its own is handed back), growing it to 4x1x2 does not.
   */
  lemma UpdateChecks()
    ensures ValidateUpdate(Found(FixtureBag()), FixtureCuboids()[1], Cuboid(0, 1, 1, 2, 0)) == Pass
    ensures ValidateUpdate(Found(FixtureBag()), FixtureCuboids()[1], Cuboid(0, 4, 1, 2, 0))
            == Fail(InsufficientCapacity)
  {
    FixtureOccupancy();
  }

  /** Preloading the fixture bag from its tables gives exactly its two cuboids. */
  lemma FixtureChildren()
    ensures Children(FixtureCuboids(), FixtureBagId) == FixtureCuboids()
    ensures WithinCapacity(map[FixtureBagId := BagRow("A bag", 5, false)], FixtureCuboids())
  {
  }

  /** A store seeded with the fixture, as every test starts. */
  method NewFixtureStore(disabled: bool) returns (s: Store)
    ensures fresh(s) && s.Valid()
    ensures s.bags == map[FixtureBagId := BagRow("A bag", 5, disabled)] && s.cuboids == FixtureCuboids()
    ensures s.LoadBag(FixtureBagId, Healthy) == Found(FixtureBag().(disabled := disabled))
  {
    FixtureChildren();
    s := new Store(map[FixtureBagId := BagRow("A bag", 5, disabled)], FixtureCuboids(), 3);
  }

  /** The Get tests: a present id answers 200 with the cuboid, id 9999 answers 404. */
  method GetTests() returns (present: Response, missing: Response)
    ensures present == Response(200, CuboidJson(FixtureCuboids()[1]))
    ensures missing == Response(404, ErrorJson("Not Found"))
  {
    var s := NewFixtureStore(false);
    present := s.Get(1, Healthy);
    missing := s.Get(9999, Healthy);
  }

  /**
   * The Create tests: a 1x1x1 cuboid is created with 201 in the fixture bag,
   * a 3x1x1 is refused with 400 for capacity, and a disabled bag refuses
   * with 400 "Bag is disabled".
   */
  method CreateTests() returns (fits: Response, tooBig: Response, disabled: Response)
    ensures fits.code == 201 && fits.body.CuboidJson? && fits.body.cuboid.bagId == FixtureBagId
    ensures tooBig == Response(400, ErrorJson("Insufficient capacity in bag"))
    ensures disabled == Response(400, ErrorJson("Bag is disabled"))
  {
    CreateChecks();
    var s := NewFixtureStore(false);
    fits := s.Create(CuboidInput(1, 1, 1, FixtureBagId), Healthy);
    s := NewFixtureStore(false);
    tooBig := s.Create(CuboidInput(3, 1, 1, FixtureBagId), Healthy);
    s := NewFixtureStore(true);
    disabled := s.Create(CuboidInput(1, 1, 1, FixtureBagId), Healthy);
  }

  /** Update test: the 1x1x1 cuboid grows to 1x1x2 with 200 and keeps its id and bag. */
  method UpdateGrowsTest() returns (grown: Response)
    ensures grown == Response(200, CuboidJson(Cuboid(1, 1, 1, 2, FixtureBagId)))
  {
    UpdateChecks();
    var s := NewFixtureStore(false);
    assert s.CuboidByID(1, Healthy) == Ok(FixtureCuboids()[1]);
    grown := s.Update(1, CuboidInput(1, 1, 2, FixtureBagId), Healthy);
  }

  /** Update test: growing the 1x1x1 cuboid to 4x1x2 is refused with 400 for capacity. */
  method UpdateTooBigTest() returns (tooBig: Response)
    ensures tooBig == Response(400, ErrorJson("Insufficient capacity in bag"))
  {
    UpdateChecks();
    var s := NewFixtureStore(false);
    assert s.CuboidByID(1, Healthy) == Ok(FixtureCuboids()[1]);
    tooBig := s.Update(1, CuboidInput(4, 1, 2, FixtureBagId), Healthy);
  }

  /** Update test: id 9999 gives 404 and changes nothing. */
  method UpdateMissingTest() returns (missing: Response)
    ensures missing == Response(404, ErrorJson("Not Found"))
  {
    var s := NewFixtureStore(false);
    missing := s.Update(9999, CuboidInput(1, 1, 2, FixtureBagId), Healthy);
  }

  /** The Delete tests: a present cuboid is removed with 200, id 9999 gives 404. */
  method DeleteTests() returns (removed: Response, missing: Response)
    ensures removed == Response(200, StatusJson("Cuboid is Removed"))
    ensures missing == Response(404, ErrorJson("Not Found"))
  {
    var s := NewFixtureStore(false);
    removed := s.Delete(1, Healthy);
    s := NewFixtureStore(false);
    missing := s.Delete(9999, Healthy);
  }
}
