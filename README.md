# Cuboid capacity rule

A Dafny model of the cuboid controller of a small bag/cuboid CRUD service.
A *bag* has a fixed integer volume and a disabled flag; a *cuboid* has a
width, height and depth and belongs to one bag. The controller guards one
rule: the cuboids of a bag must fit in the bag's volume, and a disabled bag
admits no new cuboid.

The model has four modules:

- `Models` (models.dfy): the `Cuboid` and `Bag` entities, with `PayloadVolume`
  (width × height × depth) and `AvailableVolume` (bag volume minus the sum of
  its cuboids' volumes). The sum runs over a `map<nat, Cuboid>` keyed by
  cuboid id. Lemmas show that inserting, resizing or removing one cuboid
  changes the sum by exactly that cuboid's contribution.
- `Validation` (validation.dfy): the four error sentinels, and
  `ValidateCuboidBeforeCreate` / `ValidateCuboidBeforeUpdate` as pure
  functions. Each takes the outcome of loading the bag (found, not found, or
  another store error) as its first argument. Also the mapping from an error
  to its HTTP status and message.
- `Handlers` (store.dfy): a `Store` class with a bag table, a cuboid table and
  the next auto-increment id. Its methods `Get`, `Create`, `Update` and
  `Delete` model the request handlers. `CuboidByID` models `getCuboidByID`.
  `Valid()` is the store invariant: every cuboid is stored under its own id,
  below the next id to hand out, and belongs to a stored bag; every bag is
  within its volume. Each mutating method keeps it, and states the new
  tables and the response.
- `Fixture` (fixture.dfy): the scenarios of the controller's test suite,
  replayed against the model. The fixture is a bag of volume 5 holding a
  1×1×1 and a 1×1×2 cuboid, so 2 units are free.

Database failures are a parameter. Every request stops at its first failing
store step, so one `StoreFault` value per request covers every path. That
value names the step that fails (reading the cuboid, reading the bag, a write
refused with model validation errors, or any other write error) and the text
the store reports.

`PayloadVolume` and `AvailableVolume` are defined in a Go package that is not
part of this model (app/models). Their definitions here follow how the
controller uses them and the test fixture.

## Model

| member | source | states |
|---|---|---|
| `Models.PayloadVolume` | app/controller/cuboid_controller.go:58 | A cuboid's volume is the product of its three dimensions; it is zero exactly when some dimension is zero. |
| `Models.AvailableVolume` | app/controller/cuboid_controller.go:58 | A bag's available volume never exceeds its volume. It is non-negative exactly when the bag's cuboids fit in it. |
| `Models.Children` | app/controller/cuboid_controller.go:48 | Preloading a bag's cuboids gives exactly the stored cuboids whose bagId is that bag, each unchanged. |
| `Models.OccupancyAfterInsert` | app/controller/cuboid_controller.go:116 | Inserting a cuboid under a fresh id adds its volume to its own bag's total and leaves every other bag's total unchanged. |
| `Models.OccupancyAfterReplace` | app/controller/cuboid_controller.go:162-163 | Resizing a cuboid in place moves its own bag's total by the new volume minus the old, and no other bag's total. |
| `Models.OccupancyAfterRemove` | app/controller/cuboid_controller.go:183 | Removing a cuboid takes its volume off its own bag's total and off no other bag's. |
| `Validation.ErrorText` | app/controller/cuboid_controller.go:14-17 | The sentinels' texts; "internal server error", the only one a response repeats, is InternalError's and no other's. |
| `Validation.ErrorTextDistinguishes` | app/controller/cuboid_controller.go:14-17 | The four sentinels carry four different texts. |
| `Validation.ValidateCreate` | app/controller/cuboid_controller.go:46-62 | The checks run in a fixed order: a missing bag gives BagNotFound, then a store error gives InternalError, then a disabled bag gives BagIsDisabled (even when the cuboid fits), then InsufficientCapacity exactly when the available volume is less than the cuboid's volume. It passes exactly when the bag exists, is enabled and the cuboid fits, so an exact fit is accepted. |
| `Validation.ValidateUpdate` | app/controller/cuboid_controller.go:64-82 | Missing bag and store error fail as on create. The result is never BagIsDisabled. With the bag found, it is InsufficientCapacity exactly when the available volume plus the current cuboid's volume is less than the new volume. The check passes exactly when the new volume is at most the available volume plus the current cuboid's volume. A resize that does not grow the cuboid always passes in a bag that fits. |
| `Validation.CreateKeepsBagWithinVolume` | app/controller/cuboid_controller.go:58-60 | If the create check passes, the bag with the new cuboid added still fits in its volume, and its available volume drops by exactly the cuboid's volume. |
| `Validation.UpdateKeepsBagWithinVolume` | app/controller/cuboid_controller.go:78-80 | If the update check passes, the bag with the cuboid resized still fits. Its available volume changes by the old volume minus the new. |
| `Validation.DeleteKeepsBagWithinVolume` | app/controller/cuboid_controller.go:176-188 | Removing a cuboid from a bag that fits keeps it fitting, and raises its available volume by exactly that cuboid's volume. |
| `Validation.ErrorResponse` | app/controller/cuboid_controller.go:104-113 | Each error maps to one status and message: 404 only for BagNotFound, with "Bag Not Found"; 500 only for InternalError, whose message is the sentinel's text; 400 only for InsufficientCapacity ("Insufficient capacity in bag") and BagIsDisabled ("Bag is disabled"). |
| `Validation.ErrorResponseDistinguishes` | app/controller/cuboid_controller.go:150-158 | Distinct errors give distinct responses. |
| `Handlers.Candidate` | app/controller/cuboid_controller.go:96-101 | The cuboid a create request builds carries the request's width, height, depth and bagId, and no id yet. |
| `Handlers.Proposed` | app/controller/cuboid_controller.go:147 | The cuboid an update request is checked against carries only the request's width, height and depth; the request's bagId is not read. |
| `Handlers.Resized` | app/controller/cuboid_controller.go:147 | An accepted update overwrites exactly width, height and depth. It keeps the cuboid's id and bag whatever the request's bagId. The new volume is the requested one. |
| `Handlers.WriteErrorResponse` | app/controller/cuboid_controller.go:116-125 | A failed insert or update answers 400 exactly when the store refused it with model validation errors and 500 exactly for any other write error; either way the body is the store's error text. |
| `Handlers.InsertKeepsCapacity` | app/controller/cuboid_controller.go:103-116 | Inserting a cuboid that fits in its bag keeps every bag within its volume. |
| `Handlers.ReplaceKeepsCapacity` | app/controller/cuboid_controller.go:150-163 | Resizing a cuboid so that its own bag still fits keeps every bag within its volume. |
| `Handlers.RemoveKeepsCapacity` | app/controller/cuboid_controller.go:183-187 | Removing any cuboid keeps every bag within its volume. |
| `Handlers.Store.constructor` | app/tests/controllers/cuboid_controller_test.go:27-37 | A store seeded with consistent tables whose bags fit satisfies the store invariant and holds exactly those tables. |
| `Handlers.Store.LoadBag` | app/controller/cuboid_controller.go:48-53 | Loading a bag finds it exactly when it is stored and the read does not fail. The loaded bag carries the stored volume and disabled flag and exactly the cuboids whose bagId is that bag. |
| `Handlers.Store.CuboidByID` | app/controller/cuboid_controller.go:190-201 | The lookup gives the stored cuboid exactly when its id is present and the read does not fail. Otherwise it gives the abort response: 404 "Not Found" for a missing id, 500 with the store's text for a read error. |
| `Handlers.Store.Get` | app/controller/cuboid_controller.go:19-32 | The answer is 200 with the stored cuboid exactly when the id is present, 404 "Not Found" exactly when it is missing, and 500 with the store's text on a read error. |
| `Handlers.Store.Create` | app/controller/cuboid_controller.go:84-128 | A failed check answers its mapped error and a failed insert its write error, with nothing stored either way. Otherwise the cuboid is stored under the next id and the answer is 201 with it. Its bag's total grows by exactly its volume, no other bag changes, and the store invariant holds. |
| `Handlers.Store.Update` | app/controller/cuboid_controller.go:129-175 | A missing or unreadable cuboid gives the lookup's abort response. A failed check or write answers its error. In each of these cases nothing changes. Otherwise only the three dimensions are overwritten and the answer is 200 with the resized cuboid. Its bag's total moves by the new volume minus the old, and the store invariant holds. |
| `Handlers.Store.Delete` | app/controller/cuboid_controller.go:176-188 | A missing or unreadable cuboid gives the lookup's abort response, and a failed delete answers 500. Otherwise the cuboid is removed without any capacity check and the answer is 200 "Cuboid is Removed". Its bag's total drops by exactly its volume, and the store invariant holds. |
| `Fixture.FixtureOccupancy` | app/tests/controllers/cuboid_controller_test.go:28-35 | The fixture bag holds 3 units of cuboids and has 2 available. |
| `Fixture.FixtureChildren` | app/tests/controllers/cuboid_controller_test.go:28-36 | Loading the fixture bag's cuboids from the table gives exactly its two cuboids, and the fixture satisfies the capacity invariant. |
| `Fixture.CreateChecks` | app/tests/controllers/cuboid_controller_test.go:116-152 | In the fixture a 1×1×1 and an exactly fitting 1×1×2 pass the create check and a 3×1×1 fails it for capacity. The emptied, disabled bag refuses even a 1×1×1. |
| `Fixture.UpdateChecks` | app/tests/controllers/cuboid_controller_test.go:177-202 | Growing the fixture's 1×1×1 cuboid to 1×1×2 passes the update check and growing it to 4×1×2 fails it for capacity. |
| `Fixture.NewFixtureStore` | app/tests/controllers/cuboid_controller_test.go:27-37 | The seeded store satisfies its invariant and loads the fixture bag. |
| `Fixture.GetTests` | app/tests/controllers/cuboid_controller_test.go:68-96 | Get of a present cuboid answers 200 with it; Get of id 9999 answers 404. |
| `Fixture.CreateTests` | app/tests/controllers/cuboid_controller_test.go:116-152 | Create of a 1×1×1 answers 201 with a cuboid in the fixture bag, a 3×1×1 answers 400 "Insufficient capacity in bag", and a create in the disabled bag answers 400 "Bag is disabled". |
| `Fixture.UpdateGrowsTest` | app/tests/controllers/cuboid_controller_test.go:177-188 | Update of the 1×1×1 cuboid to 1×1×2 answers 200 with the resized cuboid, same id and bag. |
| `Fixture.UpdateTooBigTest` | app/tests/controllers/cuboid_controller_test.go:190-202 | Update of the 1×1×1 cuboid to 4×1×2 answers 400 "Insufficient capacity in bag". |
| `Fixture.UpdateMissingTest` | app/tests/controllers/cuboid_controller_test.go:204-211 | Update of id 9999 answers 404. |
| `Fixture.DeleteTests` | app/tests/controllers/cuboid_controller_test.go:224-243 | Delete of a present cuboid answers 200 "Cuboid is Removed"; delete of id 9999 answers 404. |

## Left out

- `ListCuboids` (app/controller/cuboid_controller.go:33-44): a plain read of the whole table with no logic; its order is up to the database.
- HTTP and JSON plumbing: the gin context, request binding failures (gin writes its own response and the handler returns), and serialisation. Requests are `CuboidInput` values, responses `(status, body)` values. A cuboid's JSON `volume` is `PayloadVolume` of the cuboid in the body.
- Path parameters are ids of type `nat`. A non-numeric `cuboidID` string, which the database would receive as a raw condition, is not modelled.
- The database: the SQL, `Preload`, and gorm's behaviour are replaced by two maps. Auto-increment ids are a counter `nextCuboidId`. Deletion removes the row. Whether the real model soft-deletes cannot be seen, because app/models is not part of this model. Store errors are the `StoreFault` parameter, and their texts are free strings.
- The error texts of the sentinels other than InternalError never reach a response; `ErrorText` keeps them only for completeness.
- `UpdateCuboid`'s error switch has no BagIsDisabled case (app/controller/cuboid_controller.go:151-158). `ValidateUpdate` is proved never to return it, so the model reuses the create handler's mapping.
- Debug output (`fmt.Println`, app/controller/cuboid_controller.go:77, 148-149).
- Creating, disabling and enabling bags happens outside the controller. The store's bag table is given at construction and never changes.
- Bags are never removed, and every stored cuboid belongs to a stored bag (part of `Valid()`). So `Store.Update` never reaches the "Bag Not Found" answer of app/controller/cuboid_controller.go:66-68 and 152-153; `ValidateUpdate` still models that path for a bag that is missing.
- Concurrency: requests run one at a time. The race between validating and writing in the source is not modelled.
- `Models.PayloadVolume`: does not model the wrap-around of Go's `uint` multiplication; dimensions and volumes are unbounded `nat`.
