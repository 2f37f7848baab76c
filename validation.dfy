/**
 * The capacity rule of the cuboid controller: the four error sentinels, the
 * checks run before a cuboid is created or resized, and the mapping from an
 * error to the HTTP status and message the handlers answer with.
 *
 * The validators in the source load the bag themselves; here the outcome of
 * that load is their first argument, so they are pure decisions.
 */
module Validation {
  import opened Models

  /** The error sentinels of the controller. */
  datatype Error = BagNotFound | InternalError | InsufficientCapacity | BagIsDisabled

  /** The text each sentinel carries (only InternalError's reaches a response). */
  function ErrorText(e: Error): (t: string)
    ensures t == "internal server error" <==> e == InternalError
  {
    match e
    case BagNotFound => "bag not Found"
    case InternalError => "internal server error"
    case InsufficientCapacity => "insufficient capacity in bag"
    case BagIsDisabled => "bag is disabled"
  }

  /** The four sentinels carry four different texts. */
  lemma ErrorTextDistinguishes(e1: Error, e2: Error)
    requires e1 != e2
    ensures ErrorText(e1) != ErrorText(e2)
  {
  }

  /** What a point lookup by id gives: the record, "record not found", or any other store error. */
  datatype Lookup<T> = Found(value: T) | NotFound | ReadFailed

  /** A validator's verdict: nil or one of the sentinels. */
  datatype Outcome = Pass | Fail(error: Error)

  /**
   * Check run before a new cuboid is stored: the bag must exist, be enabled,
   * and have at least the cuboid's volume available, tested in that order.
   */
  function ValidateCreate(bag: Lookup<Bag>, cuboid: Cuboid): (r: Outcome)
    ensures bag.NotFound? ==> r == Fail(BagNotFound)
    ensures bag.ReadFailed? ==> r == Fail(InternalError)
    ensures bag.Found? && bag.value.disabled ==> r == Fail(BagIsDisabled)
    ensures bag.Found? && !bag.value.disabled ==>
              (r == Fail(InsufficientCapacity) <==> AvailableVolume(bag.value) < PayloadVolume(cuboid))
    ensures r == Pass <==>
              bag.Found? && !bag.value.disabled && PayloadVolume(cuboid) <= AvailableVolume(bag.value)
  {
    match bag
    case NotFound => Fail(BagNotFound)
    case ReadFailed => Fail(InternalError)
    case Found(b) =>
      if b.disabled then Fail(BagIsDisabled)
      else if AvailableVolume(b) < PayloadVolume(cuboid) then Fail(InsufficientCapacity)
      else Pass
  }

  /**
   * Check run before a stored cuboid is resized: the bag (the current cuboid's
   * owner) must exist, and once the current cuboid's volume is handed back it
   * must have room for the new volume. The disabled flag is not consulted.
   */
  function ValidateUpdate(bag: Lookup<Bag>, current: Cuboid, proposed: Cuboid): (r: Outcome)
    ensures bag.NotFound? ==> r == Fail(BagNotFound)
    ensures bag.ReadFailed? ==> r == Fail(InternalError)
    ensures r != Fail(BagIsDisabled)
    ensures bag.Found? ==>
              (r == Fail(InsufficientCapacity) <==>
               AvailableVolume(bag.value) + PayloadVolume(current) < PayloadVolume(proposed))
    ensures r == Pass <==>
              bag.Found? && PayloadVolume(proposed) <= AvailableVolume(bag.value) + PayloadVolume(current)
    ensures (bag.Found? && AvailableVolume(bag.value) >= 0 &&
             PayloadVolume(proposed) <= PayloadVolume(current)) ==> r == Pass
  {
    match bag
    case NotFound => Fail(BagNotFound)
    case ReadFailed => Fail(InternalError)
    case Found(b) =>
      if AvailableVolume(b) + PayloadVolume(current) < PayloadVolume(proposed) then Fail(InsufficientCapacity)
      else Pass
  }

  /**
   * Accepting a create can never overfill the bag: once the new cuboid is
   * stored under a fresh id, the bag's cuboids still fit in its volume.
   */
  lemma CreateKeepsBagWithinVolume(bag: Bag, cuboid: Cuboid, id: nat)
    requires id !in bag.cuboids
    requires ValidateCreate(Found(bag), cuboid) == Pass
    ensures SumVolumes(bag.cuboids[id := cuboid]) <= bag.volume
    ensures AvailableVolume(bag.(cuboids := bag.cuboids[id := cuboid]))
            == AvailableVolume(bag) - PayloadVolume(cuboid)
  {
    SumVolumesInsert(bag.cuboids, id, cuboid);
  }

  /**
   * Accepting an update can never overfill the bag: once the cuboid stored
   * under `id` is replaced by one of the proposed volume, the bag's cuboids
   * still fit in its volume.
   */
  lemma UpdateKeepsBagWithinVolume(bag: Bag, id: nat, proposed: Cuboid, resized: Cuboid)
    requires id in bag.cuboids
    requires PayloadVolume(resized) == PayloadVolume(proposed)
    requires ValidateUpdate(Found(bag), bag.cuboids[id], proposed) == Pass
    ensures SumVolumes(bag.cuboids[id := resized]) <= bag.volume
    ensures AvailableVolume(bag.(cuboids := bag.cuboids[id := resized]))
            == AvailableVolume(bag) + PayloadVolume(bag.cuboids[id]) - PayloadVolume(proposed)
  {
    SumVolumesReplace(bag.cuboids, id, resized);
  }

  /**
   * Removing a cuboid from a bag that fits keeps it fitting, and frees
   * exactly the removed cuboid's volume.
   */
  lemma DeleteKeepsBagWithinVolume(bag: Bag, id: nat)
    requires id in bag.cuboids
    requires SumVolumes(bag.cuboids) <= bag.volume
    ensures SumVolumes(bag.cuboids - {id}) <= bag.volume
    ensures AvailableVolume(bag.(cuboids := bag.cuboids - {id}))
            == AvailableVolume(bag) + PayloadVolume(bag.cuboids[id])
  {
    SumVolumesRemove(bag.cuboids, id);
  }

  /** The JSON payload of a response. */
  datatype Body =
    | CuboidJson(cuboid: Cuboid)   // {"id", "width", "height", "depth", "volume", "bagId"}
    | ErrorJson(error: string)     // {"error": ...}
    | StatusJson(status: string)   // {"status": ...}

  datatype Response = Response(code: nat, body: Body)

  /**
   * How the create and update handlers answer a failed validation: every
   * sentinel has exactly one status and message.
   */
  function ErrorResponse(e: Error): (r: Response)
    ensures r.body.ErrorJson?
    ensures r.code == 404 <==> e == BagNotFound
    ensures r.code == 500 <==> e == InternalError
    ensures r.code == 400 <==> e == InsufficientCapacity || e == BagIsDisabled
    ensures e == BagNotFound ==> r.body.error == "Bag Not Found"
    ensures e == InsufficientCapacity ==> r.body.error == "Insufficient capacity in bag"
    ensures e == BagIsDisabled ==> r.body.error == "Bag is disabled"
    ensures e == InternalError ==> r.body.error == ErrorText(InternalError)
  {
    match e
    case BagNotFound => Response(404, ErrorJson("Bag Not Found"))
    case InternalError => Response(500, ErrorJson(ErrorText(e)))
    case InsufficientCapacity => Response(400, ErrorJson("Insufficient capacity in bag"))
    case BagIsDisabled => Response(400, ErrorJson("Bag is disabled"))
  }

  /** Distinct errors never give the same response, so a client can tell them apart. */
  lemma ErrorResponseDistinguishes(e1: Error, e2: Error)
    requires e1 != e2
    ensures ErrorResponse(e1) != ErrorResponse(e2)
  {
  }
}
