/**
 * The cuboid request handlers (get, create, update, delete) over an in-memory
 * store that stands in for the database: a table of bags and a table of
 * cuboids, both keyed by id.
 *
 * A request reads and writes the store a few times and stops at the first
 * failure, so one `StoreFault` per request, naming the step that fails, covers
 * every way the database can make a request fail.
 */
module Handlers {
  import opened Models
  import opened Validation

  datatype Result<T, E> = Ok(value: T) | Err(error: E)

  /** A bag row, without its cuboids (those live in the cuboid table). */
  datatype BagRow = BagRow(title: string, volume: nat, disabled: bool)

  /** The JSON body of a create or update request. */
  datatype CuboidInput = CuboidInput(width: nat, height: nat, depth: nat, bagId: nat)

  /** The store step, if any, that fails during one request, with the error text it reports. */
  datatype StoreFault =
    | Healthy
    | CuboidReadFails(message: string)  // loading the cuboid fails with an error other than "not found"
    | BagReadFails                      // loading the bag with its cuboids fails likewise
    | WriteInvalid(message: string)     // the insert or update is refused with model validation errors
    | WriteFails(message: string)       // the insert, update or delete fails otherwise
  {
    predicate WriteSucceeds() { !WriteInvalid? && !WriteFails? }
  }

  /** The cuboid a create request asks for, before the store gives it an id. */
  function Candidate(input: CuboidInput): (c: Cuboid)
    ensures c.id == 0 && c.bagId == input.bagId
    ensures c.width == input.width && c.height == input.height && c.depth == input.depth
  {
    Cuboid(0, input.width, input.height, input.depth, input.bagId)
  }

  /** The dimensions an update request asks for; nothing else of the input is read. */
  function Proposed(input: CuboidInput): (c: Cuboid)
    ensures c.id == 0 && c.bagId == 0
    ensures c.width == input.width && c.height == input.height && c.depth == input.depth
  {
    Cuboid(0, input.width, input.height, input.depth, 0)
  }

  /**
   * The cuboid an accepted update stores: the three dimensions overwritten,
   * id and owning bag kept whatever the request says.
   */
  function Resized(current: Cuboid, input: CuboidInput): (c: Cuboid)
    ensures c.id == current.id && c.bagId == current.bagId
    ensures c.width == input.width && c.height == input.height && c.depth == input.depth
    ensures PayloadVolume(c) == PayloadVolume(Proposed(input))
  {
    current.(width := input.width, height := input.height, depth := input.depth)
  }

  /** How a failed insert or update is answered: 400 for validation errors, 500 otherwise. */
  function WriteErrorResponse(fault: StoreFault): (r: Response)
    requires !fault.WriteSucceeds()
    ensures r.code == 400 <==> fault.WriteInvalid?
    ensures r.code == 500 <==> fault.WriteFails?
    ensures r.body.ErrorJson? && r.body.error == fault.message
  {
    Response(if fault.WriteInvalid? then 400 else 500, ErrorJson(fault.message))
  }

  /** Every cuboid is stored under its own id, below the next id to hand out, and belongs to a stored bag. */
  ghost predicate WellKeyed(bags: map<nat, BagRow>, table: map<nat, Cuboid>, nextId: nat)
  {
    forall k :: k in table ==> table[k].id == k && k < nextId && table[k].bagId in bags
  }

  /** The capacity invariant: the cuboids of every bag fit in its volume. */
  ghost predicate WithinCapacity(bags: map<nat, BagRow>, table: map<nat, Cuboid>)
  {
    forall b :: b in bags ==> SumVolumes(Children(table, b)) <= bags[b].volume
  }

  /** Inserting a cuboid that fits in its bag keeps every bag within its volume. */
  lemma InsertKeepsCapacity(bags: map<nat, BagRow>, table: map<nat, Cuboid>, k: nat, c: Cuboid)
    requires WithinCapacity(bags, table)
    requires k !in table
    requires c.bagId in bags && SumVolumes(Children(table, c.bagId)) + PayloadVolume(c) <= bags[c.bagId].volume
    ensures WithinCapacity(bags, table[k := c])
  {
    forall b | b in bags ensures SumVolumes(Children(table[k := c], b)) <= bags[b].volume {
      OccupancyAfterInsert(table, k, c, b);
    }
  }

  /** Resizing a cuboid so that its bag still fits keeps every bag within its volume. */
  lemma ReplaceKeepsCapacity(bags: map<nat, BagRow>, table: map<nat, Cuboid>, k: nat, c: Cuboid)
    requires WithinCapacity(bags, table)
    requires k in table && c.bagId == table[k].bagId
    requires c.bagId in bags ==>
               SumVolumes(Children(table, c.bagId)) - PayloadVolume(table[k]) + PayloadVolume(c) <= bags[c.bagId].volume
    ensures WithinCapacity(bags, table[k := c])
  {
    forall b | b in bags ensures SumVolumes(Children(table[k := c], b)) <= bags[b].volume {
      OccupancyAfterReplace(table, k, c, b);
    }
  }

  /** Removing any cuboid keeps every bag within its volume. */
  lemma RemoveKeepsCapacity(bags: map<nat, BagRow>, table: map<nat, Cuboid>, k: nat)
    requires WithinCapacity(bags, table)
    requires k in table
    ensures WithinCapacity(bags, table - {k})
  {
    forall b | b in bags ensures SumVolumes(Children(table - {k}, b)) <= bags[b].volume {
      OccupancyAfterRemove(table, k, b);
    }
  }

  class Store {
    var bags: map<nat, BagRow>
    var cuboids: map<nat, Cuboid>
    var nextCuboidId: nat  // the id the next inserted cuboid receives

    /**
     * Every cuboid is stored under its own id, below the next id to hand out,
     * and belongs to an existing bag; every bag's cuboids fit in its volume.
     */
    ghost predicate Valid()
      reads this
    {
      WellKeyed(bags, cuboids, nextCuboidId) && WithinCapacity(bags, cuboids)
    }

    /** Total volume of the cuboids bag `bagId` holds. */
    function Occupied(bagId: nat): nat
      reads this
    {
      SumVolumes(Children(cuboids, bagId))
    }

    constructor (bags: map<nat, BagRow>, cuboids: map<nat, Cuboid>, nextCuboidId: nat)
      requires WellKeyed(bags, cuboids, nextCuboidId) && WithinCapacity(bags, cuboids)
      ensures Valid()
      ensures this.bags == bags && this.cuboids == cuboids && this.nextCuboidId == nextCuboidId
    {
      this.bags := bags;
      this.cuboids := cuboids;
      this.nextCuboidId := nextCuboidId;
    }

    /** Loading a bag with its cuboids preloaded. */
    function LoadBag(bagId: nat, fault: StoreFault): (r: Lookup<Bag>)
      reads this
      ensures r.Found? <==> !fault.BagReadFails? && bagId in bags
      ensures r.NotFound? <==> !fault.BagReadFails? && bagId !in bags
      ensures r.Found? ==> r.value.id == bagId && r.value.volume == bags[bagId].volume &&
                           r.value.disabled == bags[bagId].disabled && r.value.cuboids == Children(cuboids, bagId)
    {
      if fault.BagReadFails? then ReadFailed
      else if bagId !in bags then NotFound
      else
        var row := bags[bagId];
        Found(Bag(bagId, row.title, row.volume, row.disabled, Children(cuboids, bagId)))
    }

    /**
     * Loading a cuboid by id for the get, update and delete handlers: the
     * cuboid, or the response the handler aborts with.
     */
    function CuboidByID(id: nat, fault: StoreFault): (r: Result<Cuboid, Response>)
      reads this
      ensures r.Ok? <==> !fault.CuboidReadFails? && id in cuboids
      ensures r.Ok? ==> r.value == cuboids[id]
      ensures fault.CuboidReadFails? ==> r == Err(Response(500, ErrorJson(fault.message)))
      ensures !fault.CuboidReadFails? && id !in cuboids ==> r == Err(Response(404, ErrorJson("Not Found")))
    {
      if fault.CuboidReadFails? then Err(Response(500, ErrorJson(fault.message)))
      else if id !in cuboids then Err(Response(404, ErrorJson("Not Found")))
      else Ok(cuboids[id])
    }

    /** GET /cuboids/{id}. */
    method Get(id: nat, fault: StoreFault) returns (resp: Response)
      ensures resp.code == 200 <==> !fault.CuboidReadFails? && id in cuboids
      ensures resp.code == 200 ==> resp.body == CuboidJson(cuboids[id])
      ensures resp.code == 404 <==> !fault.CuboidReadFails? && id !in cuboids
      ensures resp.code == 404 ==> resp.body == ErrorJson("Not Found")
      ensures fault.CuboidReadFails? ==> resp == Response(500, ErrorJson(fault.message))
    {
      var found := CuboidByID(id, fault);
      match found
      case Err(abort) => resp := abort;
      case Ok(cuboid) => resp := Response(200, CuboidJson(cuboid));
    }

    /**
     * POST /cuboids. Nothing is stored unless the create check passes and the
     * insert succeeds; then the cuboid gets the next id, its bag's occupied
     * volume grows by exactly its volume and no other bag changes.
     */
    method Create(input: CuboidInput, fault: StoreFault) returns (resp: Response)
      requires Valid()
      modifies this
      ensures Valid()
      ensures bags == old(bags)
      ensures var verdict := ValidateCreate(old(LoadBag(input.bagId, fault)), Candidate(input));
              if verdict.Fail? then
                resp == ErrorResponse(verdict.error) && unchanged(this)
              else if !fault.WriteSucceeds() then
                resp == WriteErrorResponse(fault) && unchanged(this)
              else
                var stored := Cuboid(old(nextCuboidId), input.width, input.height, input.depth, input.bagId);
                resp == Response(201, CuboidJson(stored)) &&
                cuboids == old(cuboids)[stored.id := stored] && nextCuboidId == old(nextCuboidId) + 1
      ensures resp.code == 201 ==> Occupied(input.bagId) == old(Occupied(input.bagId)) + PayloadVolume(Candidate(input))
      ensures forall b :: b != input.bagId ==> Occupied(b) == old(Occupied(b))
    {
      var cuboid := Candidate(input);
      var verdict := ValidateCreate(LoadBag(input.bagId, fault), cuboid);
      if verdict.Fail? {
        resp := ErrorResponse(verdict.error);
        return;
      }
      if !fault.WriteSucceeds() {
        resp := WriteErrorResponse(fault);
        return;
      }
      var stored := cuboid.(id := nextCuboidId);
      ghost var before := cuboids;
      InsertKeepsCapacity(bags, before, stored.id, stored);
      cuboids := cuboids[stored.id := stored];
      nextCuboidId := nextCuboidId + 1;
      forall b ensures Occupied(b) == SumVolumes(Children(before, b)) + (if b == input.bagId then PayloadVolume(cuboid) else 0) {
        OccupancyAfterInsert(before, stored.id, stored, b);
      }
      resp := Response(201, CuboidJson(stored));
    }

    /**
     * PUT /cuboids/{id}. Only the width, height and depth of a stored cuboid
     * change, and only when the update check passes and the write succeeds;
     * its bag's occupied volume then moves by the difference of the volumes.
     */
    method Update(id: nat, input: CuboidInput, fault: StoreFault) returns (resp: Response)
      requires Valid()
      modifies this
      ensures Valid()
      ensures bags == old(bags) && nextCuboidId == old(nextCuboidId)
      ensures old(CuboidByID(id, fault)).Err? ==>
                resp == old(CuboidByID(id, fault)).error && cuboids == old(cuboids)
      ensures old(CuboidByID(id, fault)).Ok? ==>
                var current := old(cuboids[id]);
                var verdict := ValidateUpdate(old(LoadBag(current.bagId, fault)), current, Proposed(input));
                if verdict.Fail? then
                  resp == ErrorResponse(verdict.error) && cuboids == old(cuboids)
                else if !fault.WriteSucceeds() then
                  resp == WriteErrorResponse(fault) && cuboids == old(cuboids)
                else
                  resp == Response(200, CuboidJson(Resized(current, input))) &&
                  cuboids == old(cuboids)[id := Resized(current, input)] &&
                  Occupied(current.bagId)
                  == old(Occupied(current.bagId)) - PayloadVolume(current) + PayloadVolume(Proposed(input))
      ensures resp.code != 200 ==> cuboids == old(cuboids)
      ensures forall b :: (id !in old(cuboids) || b != old(cuboids[id]).bagId) ==> Occupied(b) == old(Occupied(b))
    {
      var found := CuboidByID(id, fault);
      if found.Err? {
        resp := found.error;
        return;
      }
      var current := found.value;
      var verdict := ValidateUpdate(LoadBag(current.bagId, fault), current, Proposed(input));
      if verdict.Fail? {
        resp := ErrorResponse(verdict.error);
        return;
      }
      if !fault.WriteSucceeds() {
        resp := WriteErrorResponse(fault);
        return;
      }
      var resized := Resized(current, input);
      ghost var before := cuboids;
      ReplaceKeepsCapacity(bags, before, id, resized);
      cuboids := cuboids[id := resized];
      forall b ensures Occupied(b) == SumVolumes(Children(before, b))
                         + (if b == current.bagId then PayloadVolume(resized) - PayloadVolume(current) else 0) {
        OccupancyAfterReplace(before, id, resized, b);
      }
      resp := Response(200, CuboidJson(resized));
    }

    /**
     * DELETE /cuboids/{id}. A stored cuboid is removed without any capacity
     * check; its bag's occupied volume drops by exactly its volume.
     */
    method Delete(id: nat, fault: StoreFault) returns (resp: Response)
      requires Valid()
      modifies this
      ensures Valid()
      ensures bags == old(bags) && nextCuboidId == old(nextCuboidId)
      ensures old(CuboidByID(id, fault)).Err? ==>
                resp == old(CuboidByID(id, fault)).error && cuboids == old(cuboids)
      ensures old(CuboidByID(id, fault)).Ok? && !fault.WriteSucceeds() ==>
                resp == Response(500, ErrorJson(fault.message)) && cuboids == old(cuboids)
      ensures old(CuboidByID(id, fault)).Ok? && fault.WriteSucceeds() ==>
                var gone := old(cuboids[id]);
                resp == Response(200, StatusJson("Cuboid is Removed")) &&
                cuboids == old(cuboids) - {id} &&
                Occupied(gone.bagId) == old(Occupied(gone.bagId)) - PayloadVolume(gone)
      ensures forall b :: (id !in old(cuboids) || b != old(cuboids[id]).bagId) ==> Occupied(b) == old(Occupied(b))
    {
      var found := CuboidByID(id, fault);
      if found.Err? {
        resp := found.error;
        return;
      }
      if !fault.WriteSucceeds() {
        resp := Response(500, ErrorJson(fault.message));
        return;
      }
      var gone := found.value;
      ghost var before := cuboids;
      RemoveKeepsCapacity(bags, before, id);
      cuboids := cuboids - {id};
      forall b ensures Occupied(b) == SumVolumes(Children(before, b)) - (if b == gone.bagId then PayloadVolume(gone) else 0) {
        OccupancyAfterRemove(before, id, b);
      }
      resp := Response(200, StatusJson("Cuboid is Removed"));
    }
  }
}
