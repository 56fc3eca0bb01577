# radiantrays movement and scene core, in Dafny

This project models the non-rendering core of the radiantrays Babylon.js demo. That core has three parts.

- **Keyboard to velocity to position.** `InputManager` keeps six movement flags and a one-shot reset flag. After every key transition it emits one `{direction, resetVelocity}` notification. `VelocityManager` has two operations:
  - A direction event. It accelerates the velocity toward a non-zero direction and clamps it to `maxSpeed`. On a zero direction it applies friction, and snaps the velocity to zero below 0.001.
  - A frame step. It adds the velocity to the position of the model mesh.
- **Scene objects.** `AssetManifest` maps eight model names to `.glb` URLs. `PositionedObject` is an object's placement record. It holds the model id and URL, the position, the rotation in degrees, three animation ids, a uniform scale and the attached engine mesh.
- **Scene loading.** `SceneBuilder` loads a list of positioned objects one after another. It produces an index-aligned result, with null for an asset the manifest lacks. It appends every loaded mesh to `loadedModels` and attaches each mesh to its object. It also places a freshly loaded mesh, moves an object's mesh, and caches the animated "running" model.

## How the model represents the engine

Modules follow the source files:

| Module | Models |
|---|---|
| `Assets` | `assetManifest.js` |
| `Input` | `inputManager.js` |
| `Velocity` | `velocityManager.js` |
| `Objects` | `positionedObject.js` |
| `Scene` | `sceneBuilder.js` |
| `Pipeline` | the subscription that connects the two managers |
| `Vectors`, `Engine`, `Wrappers` | supporting modules |

**Meshes and loaders.** A Babylon mesh is a class whose fields are changed in place, and it is shared between `loadedModels` and `PositionedObject.model`. The engine's model importer is a `Loader` that holds a script of outcomes (`Loaded(mesh)`, `Empty` or `Failed`). Each import consumes one outcome in call order. An exhausted script gives `Failed`.

**Vector length.** `Vector3.length()` is the field `length: Vec3 -> real` of `VelocityManager`. `Valid()` states that this field returns the non-negative square root of the squared length. The specification functions `Clamp` and `AfterFriction` take the length explicitly, or compare squared lengths.

**The observable.** The input manager records its notifications in `emitted`. `Pipeline.KeyChange` runs one key transition with the velocity manager subscribed: it updates the flags, sends the notification, runs the subscriber inside that step, and clears the reset flag only once the subscriber has returned. The `Wiring` parameter selects the subscription as written or as meant.

**JavaScript values.** `applyAcceleration` can be handed any value. `Velocity.Argument` tells an engine Vector3 apart from a notification object. A mesh position set through `moveModelTo` may be a plain `{x, y, z}` object rather than a Vector3. `Mesh.positionIsVector3` records which it is, and the Vector3 methods `set` and `addInPlace` throw a TypeError on a plain object.

**Options.** The velocity manager's constructor accepts any option values, and no option is validated. The speed-bound results assume maxSpeed >= 0 and friction in [0, 2] (`KeepsSpeedBound`).

### Where the code differs from its own comments

The model follows the code in each case below.

- **The direction is never normalised.** The comment at `js/utilities/inputManager.js:73` says the direction is normalised "to ensure consistent speed". The guard at `js/utilities/inputManager.js:75` compares `typeof` of a number with `"function"`, so the branch never runs. A diagonal direction therefore has squared length 2 or 3 (`Input.DirectionIsRawSum`).
- **The reset flag never clears the velocity.** The comment at `js/utilities/inputManager.js:12` calls `resetVelocity` a "Flag for clearing velocity". The only subscriber (`js/managers/velocityManager.js:16-18`) passes the whole notification to `applyAcceleration`, which throws (see Findings). Even as corrected it never reads `resetVelocity`, and nothing calls `clearVelocity` (`js/managers/velocityManager.js:47-50`). The model therefore never lets a reset zero the velocity.

## Model

| member | source | states |
|---|---|---|
| Assets.GetAssetUrl | js/utilities/assetManifest.js:8-10 | A URL is returned exactly for the names in the manifest, and it is that name's entry; every name outside the table gives null. Every returned URL is under the repository's model base URL and ends in `.glb`. |
| Assets.TableUrlsAreModelUrls | js/utilities/assetManifest.js:13-22 | Every URL in the manifest starts with the model base URL and ends in `.glb`. |
| Assets.KnownAssetUrls | js/utilities/assetManifest.js:13-22 | The eight names and their URLs, including "cube" resolving to `cube2.glb`. |
| Vectors.Normalized | js/managers/velocityManager.js:35 | `normalize()` of a vector with positive length `len` is the vector scaled by 1/len, and has squared length 1. A zero vector is returned unchanged. |
| Vectors.LengthBelow | js/managers/velocityManager.js:42 | Comparing a length against a bound is the same as comparing the squared length against the bound squared. |
| Input.ToLower | js/utilities/inputManager.js:24 | Lower-casing keeps the length and maps each ASCII upper-case letter to its lower-case letter, leaving every other character unchanged. |
| Input.KeyAction | js/utilities/inputManager.js:24-48 | Each of w, s, a, d, space, shift and c selects its action exactly when the lower-cased key equals it; every other key is ignored. |
| Input.KeyUpdate | js/utilities/inputManager.js:24-48 | A key transition sets the flag of its own key to the key state and leaves every other flag as it was. Reset and unrecognised keys change no movement flag. |
| Input.DirectionOf | js/utilities/inputManager.js:56-74 | Each axis is +1 exactly when only its positive key is held (right, space, w), -1 exactly when only its negative key is held (a, shift, s), and 0 exactly when both or neither are held. |
| Input.AxisValues | js/utilities/inputManager.js:61-70 | Each axis of the direction is -1, 0 or 1. Opposing keys cancel, and a lone key gives its own sign. |
| Input.DirectionIsRawSum | js/utilities/inputManager.js:72-78 | The emitted direction is not normalised: its squared length is the number of active axes. It is zero exactly when no axis is active. |
| Input.InputManager.constructor | js/utilities/inputManager.js:2-14 | All six movement flags are released, the reset flag is clear and nothing has been emitted. |
| Input.ResetAfter | js/utilities/inputManager.js:43-47 | After a transition the reset flag is set exactly when it was already set or the key is a "c" key-down, whatever its case; a pending reset is never dropped by a key. |
| Input.InputManager.OnKeyChange | js/utilities/inputManager.js:23-52 | The flags become KeyUpdate of the old flags. Exactly one notification is appended: the direction of the new flags, and a reset if one was pending or the key is a "c" key-down. When the observers return, the reset flag is then clear. |
| Input.InputManager.SetKeyFlag | js/utilities/inputManager.js:24-48 | The flags become KeyUpdate of the old flags. The reset flag is set by a "c" key-down and otherwise kept. |
| Input.InputManager.EmitMovementDirection | js/utilities/inputManager.js:54-84 | Notifies with the raw direction sum of the current flags and the current reset flag. When the observers return, it then clears the reset flag; the movement flags are unchanged. |
| Input.InputManager.Notify | js/utilities/inputManager.js:56-80 | Appends exactly one notification: DirectionOf the current flags and the current reset flag. |
| Input.InputManager.ClearResetFlag | js/utilities/inputManager.js:82-83 | The reset flag is clear. |
| Input.ForwardFromRest | js/utilities/inputManager.js:23-84 | Pressing "w" on a fresh manager emits the unit vector along +z with no reset. |
| Input.ResetReportedOnce | js/utilities/inputManager.js:43-83 | A "c" press is reported in exactly one notification. The next transition reports a reset only if it is itself a "c" press. |
| Velocity.Clamp | js/managers/velocityManager.js:33-37 | A velocity no longer than maxSpeed is kept. A longer one becomes the same vector scaled by maxSpeed/len, of length exactly maxSpeed. The result is never longer than maxSpeed. |
| Velocity.ClampKeepsDirection | js/managers/velocityManager.js:33-37 | Clamping never changes the direction: the result is the input scaled by a positive factor. |
| Velocity.AfterFriction | js/managers/velocityManager.js:40-45 | Friction gives exactly zero when the velocity scaled by (1 - friction) is shorter than 0.001, and only then. Otherwise the result is that scaled velocity, with length at least 0.001. |
| Velocity.FrictionNeverSpeedsUp | js/managers/velocityManager.js:40-45 | For friction in [0, 2], friction never lengthens the velocity. |
| Velocity.FrictionStops | js/managers/velocityManager.js:40-45 | With 0 < friction < 1, consecutive zero-direction events bring the velocity to exactly zero, not merely close to it. It takes at most n + 1 steps for any n with squared length at most n times the per-step drop. |
| Velocity.FrictionStep | js/managers/velocityManager.js:40-45 | With 0 < friction < 1, a friction step that does not stop the velocity removes at least the per-step drop from its squared length. |
| Velocity.DropPositive | js/managers/velocityManager.js:41-42 | With 0 < friction < 1 the per-step drop used by FrictionStops and FrictionStep is strictly positive. |
| Velocity.VelocityManager.constructor | js/managers/velocityManager.js:2-7 | Each absent option takes its default (0.2, 0.05 and 0.04). The velocity starts at zero and the model mesh is the one given. |
| Velocity.EventVelocity | js/managers/velocityManager.js:22-30 | The velocity after one direction event. With maxSpeed >= 0 and friction in [0, 2], a velocity within maxSpeed stays within it. |
| Velocity.VelocityManager.ApplyAcceleration | js/managers/velocityManager.js:22-30 | A non-zero direction adds direction × accelerationRate and clamps, with no friction. A zero direction applies friction only. With maxSpeed >= 0 and friction in [0, 2], a velocity within maxSpeed stays within it. |
| Velocity.VelocityManager.ApplyAccelerationOn | js/managers/velocityManager.js:22-30 | A value other than a Vector3, such as a notification object, throws "direction.length is not a function" at the `length()` call, leaving the velocity unchanged. A Vector3 is applied as ApplyAcceleration applies it. |
| Velocity.VelocityManager.ClampVelocity | js/managers/velocityManager.js:33-37 | The velocity becomes the clamp of the old velocity at its length. |
| Velocity.VelocityManager.ApplyFriction | js/managers/velocityManager.js:40-45 | The velocity becomes the friction step of the old velocity. |
| Velocity.VelocityManager.ClearVelocity | js/managers/velocityManager.js:47-50 | The velocity becomes zero. |
| Velocity.VelocityManager.UpdatePosition | js/managers/velocityManager.js:52-67 | When there is a model whose position is a Vector3, its position gains the velocity component-wise. Otherwise nothing changes; the mesh's other fields are never changed. |
| Objects.PositionedObject.constructor | js/utilities/positionedObject.js:17-53 | Each absent argument takes its default (0, "" or 1). The URL is the manifest's entry for the model id, or null. No mesh is attached. |
| Objects.PositionedObject.SetModel | js/utilities/positionedObject.js:59-61 | The given mesh, or null, is attached. |
| Objects.PositionedObject.SetPosition | js/utilities/positionedObject.js:69-74 | The stored position is always replaced. An attached mesh whose position is a Vector3 moves to the same point. A mesh position that is not a Vector3 makes `set` throw, and the mesh stays. The call throws only in that case, and the mesh's other fields are kept. |
| Objects.PositionedObject.SetRotation | js/utilities/positionedObject.js:82-91 | The stored rotation is replaced. An attached mesh turns to (pitch, yaw, roll) on its x, y and z axes, and its other fields are kept. |
| Objects.PositionedObject.SetAnimationIds | js/utilities/positionedObject.js:99-105 | The three animation ids are replaced. |
| Objects.PositionedObject.DisposeModel | js/utilities/positionedObject.js:110-116 | An attached mesh is disposed and detached, with its placement left as it was. Without one, nothing happens. |
| Objects.PositionedObject.GetObjectProperties | js/utilities/positionedObject.js:122-131 | The snapshot carries every field of the object except the mesh. |
| Objects.DisposeTwice | js/utilities/positionedObject.js:110-116 | Disposing twice is the same as disposing once. The object's properties are unchanged, the mesh is detached, and the old mesh is disposed with its position, rotation and scale kept. |
| Scene.Plan | js/utilities/sceneBuilder.js:69-100 | The results of loading the items in order, and the imports not yet consumed. There are never more results than items. The imports left over are a suffix of those available, because imports are consumed from the front. |
| Scene.Attached | js/utilities/sceneBuilder.js:93-96 | The mesh an object holds after loading is either the one it held before, or a non-null mesh loaded for that same object. |
| Scene.PlanLength | js/utilities/sceneBuilder.js:69-100 | Loading yields one result per item up to the first item that is not a PositionedObject, which means one per item when all of them are. |
| Scene.PlanMissingAsset | js/utilities/sceneBuilder.js:80-87 | An object whose asset the manifest lacks gets null at its own index. |
| Scene.PlanNoImportForMissing | js/utilities/sceneBuilder.js:80-87 | When the manifest knows none of the assets, no import is attempted and no mesh is collected. |
| Scene.NonNullAppend | js/utilities/sceneBuilder.js:91-94 | Collecting the loaded meshes of two runs of results, one after the other, gives the two collections one after the other. |
| Scene.AttachedLastLoad | js/utilities/sceneBuilder.js:93-96 | After loading, an object carries the mesh of its last load that produced one. |
| Scene.AttachedNeverLoaded | js/utilities/sceneBuilder.js:93-96 | An object none of whose loads produced a mesh keeps the mesh it had before. |
| Scene.SceneBuilder.constructor | js/utilities/sceneBuilder.js:7-14 | The builder keeps the two loaders and starts with no loaded models and no animated model. |
| Scene.SceneBuilder.LoadAnimatedModel | js/utilities/sceneBuilder.js:55-62 | One import of the animated loader is made, and its mesh, or null, is both cached and returned. |
| Scene.SceneBuilder.GetAnimatedModel | js/utilities/sceneBuilder.js:47-53 | A cached model is returned with no import. Only when nothing is cached is the model loaded and cached. |
| Scene.SceneBuilder.LoadSceneModel | js/utilities/sceneBuilder.js:107-163 | Anything other than a PositionedObject throws the builder's error without importing. Otherwise one import is made, and a failed or empty import gives null. A loaded mesh takes the object's position, its scale on all three axes and its rotation (pitch, yaw, roll); no other mesh changes. |
| Scene.SceneBuilder.LoadEntry | js/utilities/sceneBuilder.js:79-96 | Each object is handled in one of two ways. With an unknown asset there is no import and the result is null. Otherwise there is one import, and a loaded mesh is placed for the object (its position as a Vector3, its scale on all three axes, its pitch, yaw and roll), appended to loadedModels and attached to the object. Every other mesh of the import script is unchanged. |
| Scene.SceneBuilder.LoadSceneModels | js/utilities/sceneBuilder.js:69-100 | The items are loaded in order; the result has one entry per item, with null for an unknown asset or a failed import. Every loaded mesh is appended to loadedModels in order. Each object ends with the mesh of its latest successful load, or keeps its old one. The call throws exactly when some item is not a PositionedObject, after processing the items before it. |
| Scene.SceneBuilder.MoveModelTo | js/utilities/sceneBuilder.js:170-182 | The given value, whether a Vector3 or not, becomes the mesh's position. The mesh's rotation, scale and disposal are kept. An item that is not a PositionedObject, or one without a mesh, changes nothing. |
| Scene.SceneBuilder.MoveModelBy | js/utilities/sceneBuilder.js:189-201 | A Vector3 mesh position gains the delta component-wise. A position that is not a Vector3 makes `addInPlace` throw, and the mesh stays. The call throws only in that case, and the mesh's other fields are kept. An item that is not a PositionedObject, or one without a mesh, changes nothing. |
| Pipeline.DeliverAsWritten | js/managers/velocityManager.js:16-18 | The subscription as written hands the notification object to applyAcceleration. That call throws "direction.length is not a function" and leaves the velocity unchanged. |
| Pipeline.Deliver | js/managers/velocityManager.js:16-18 | Delivering the notification's direction returns normally, and the velocity takes exactly one direction-event step. |
| Pipeline.KeyChange | js/utilities/inputManager.js:23-84 | One key transition with the velocity manager subscribed. The flags and the single notification are as in OnKeyChange. As written, the subscriber's exception escapes before the reset flag is cleared: the flag keeps the notification's value and the velocity is unchanged. As meant, the call returns, the flag is cleared and the velocity takes one event step. |
| Pipeline.FromRest | js/utilities/inputManager.js:2-14 | One key transition on a freshly built pipeline with default options. It gives the notification for the key's flag update from rest, and the resulting velocity: zero as written, one default event step as meant. |
| Pipeline.ForwardPressAsWritten | js/managers/velocityManager.js:16-23 | As written, pressing "w" on a fresh pipeline throws, and the velocity stays at zero. |
| Pipeline.ForwardPress | js/managers/velocityManager.js:22-26 | As meant, the same press gives velocity 0.05 along +z, below the clamp. |
| Pipeline.ResetStuckAsWritten | js/utilities/inputManager.js:80-83 | As written, after a "c" press the next key transition, whatever its key, still reports a reset: both transitions throw, so the flag is never cleared. |
| Pipeline.MeantStep | js/managers/velocityManager.js:22-37 | One default event step from rest along +z gives (0, 0, 0.05). |
| Pipeline.SlowStepNotClamped | js/managers/velocityManager.js:33-37 | A single default acceleration step from rest is below the default maximum speed, so the clamp keeps it. |

## Left out

- The `window` key listeners and `setupInputListeners` are not modelled.
- Babylon's `Observable` is not part of this model. `Pipeline.KeyChange` assumes it calls the one subscriber, the velocity manager, directly and lets any exception it throws propagate.
- Input.ToLower: lower-cases ASCII letters only. JavaScript's `toLowerCase` also maps non-ASCII letters, and none of those can reach a movement key.
- Floating point is not modelled. Vectors are over exact reals, and the 0.001 snap and the clamp are compared exactly.
- `BABYLON.Tools.ToRadians` is not modelled. A mesh's rotation is kept in degrees, in the (pitch, yaw, roll) order the code uses.
- The engine's model and animation importers are not part of this model. They are represented by a scripted oracle that consumes one outcome per call and does not look at the URL. In particular, `loadSceneModel` called directly with an unknown asset still makes an import and takes whatever the oracle answers.
- Promises and `await` are not modelled. Each import completes before the next statement, as in the sequential `for` loop.
- The first `loadAnimatedModel` (`js/utilities/sceneBuilder.js:20-44`) and its in-flight field `loadingAnimatedModel` are not modelled. The later definition at `js/utilities/sceneBuilder.js:55-62` replaces it on the class, so it can never run.
- `setBackgroundColor` and the `scene` parameter are not modelled, because they only touch rendering state.
- Logging and `console` output are not modelled.
- The manifest is a map of its own eight entries. JavaScript's inherited properties such as `"constructor"` are not modelled.
- `loadSceneModel` catches more than loader failure. Exceptions from setting mesh properties would also give null, and they are not modelled.
- Scene.SceneBuilder.MoveModelTo: does not model that the mesh keeps a reference to the caller's Vector3 object, so later changes to that vector would move the mesh too.
- Scene.SceneBuilder.LoadSceneModels: does not restate each mesh's placement, and does not say that the meshes of the import script it does not load are left unchanged; its frame allows it to change any of them. Both facts hold for each pass, as `LoadEntry`'s contract states, but carrying them through the loop is beyond the proof's resource budget.
- Velocity.FrictionStops: gives a step bound through a multiple of the per-step drop, not a closed-form step count.
- Velocity.VelocityManager.UpdatePosition: does not distinguish "no model" from "a model without a position". Both only log in the source.
- Frames stand in for "nothing else changes". Every method changes only what its `modifies` clause names. For meshes, the contracts state the unchanged fields explicitly.

## Findings

| source | as written | input that shows it | evidently intended | confidence | as-written member | corrected member |
|---|---|---|---|---|---|---|
| js/managers/velocityManager.js:16-18 | The subscription hands the whole notification object `{direction, resetVelocity}` (emitted at `js/utilities/inputManager.js:80`) to `applyAcceleration`. Its first step calls `length()` on that object, which has no such method. It throws a TypeError, and the velocity never changes. The exception also escapes `emitMovementDirection` before the reset flag is cleared (`js/utilities/inputManager.js:83`). After one "c" press, every later notification reports a reset (Pipeline.ResetStuckAsWritten). | Pressing "w" once on a freshly built pipeline with default options. The velocity stays (0, 0, 0) instead of becoming (0, 0, 0.05). | Pass the notification's `direction` to `applyAcceleration`. | high; not executed | Pipeline.ForwardPressAsWritten | Pipeline.ForwardPress |
