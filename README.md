# XClaim map integration: provider registry and BlueMap marker synchronisation

XClaim draws each land claim on a web map as a coloured polygon. This project
models two pieces of that integration in Dafny and proves properties of them.

- **The provider registry** (`MapService`). A process-wide map backend is held
  in three static fields: `instance`, `instanceInit` and `instanceValid`.
  - `get` resolves the backend once through a service factory and then answers
    from the cache. When the configuration switches the integration off, it
    resolves to null without running the factory.
  - `getNonNull` and `isAvailable` resolve first if needed.
  - `unload` releases the backend.
  - `getMarkerAsync` hands `getMarker`'s result to a callback.
  - `findPlugin` checks that a companion plugin is installed and enabled.
- **The BlueMap marker synchroniser** (`BluemapMapMarker`). Each claim gets one
  extrude marker, stored under the claim's token in a per-world marker set.
  - The marker set is cached by world UUID and put on every map of its world.
  - `update` replaces the marker's outline and holes with the claim's traced
    contours.
  - `deleteMarker` removes the marker from its set.
  - `cleanup` takes the set off every map.

Module `MapService` (map_service.dfy) has the registry in two forms:
- pure step functions over the fields (`GetStep`, `GetNonNullStep`,
  `IsAvailableStep`, `UnloadStep`, and `Run` for a sequence of calls);
- the class `Registry`, whose methods update the fields step by step and are
  each proved equal to their step function.

Calls the registry makes into other code are recorded in a ghost log of `Hook`s.
These are the factory run and a backend's `cleanup`.

Module `Bluemap` (bluemap.dfy) models the BlueMap objects this code changes in
place as classes: `Marker`, `MarkerSet` and `BlueMapMap`. The static
`markerSetMap` becomes the field of a `MarkerSetCache` object. Module `Wrappers`
(wrappers.dfy) holds `Option` (for Java's null) and `Result` (for a thrown
exception).

External inputs become parameters:
- the configuration flags: `Config`;
- the service factory: `Factory`, a function of the debug flag;
- the chunk-bitmap tracer: `Tracer`, a function from a chunk set and the merge
  flag to contours;
- the BlueMap API's world and map lookup: `Api`;
- the localised marker-set name: `baseName`;
- the claim colour function: `claimColor`;
- the plugin manager's table: the `plugins` map.

**Behaviour of the code that differs from what one might expect.**
- `unload` reads like a reset after which the next `get` runs discovery
  again. But the code sets `instanceInit = true` in `unload`
  (src/main/java/codes/wasabi/xclaim/map/MapService.java:63). So after
  `unload`, every later `get`, `getNonNull` or `isAvailable` answers
  "unavailable", and the factory never runs again. The model follows the code,
  and `UnloadIsFinal` proves this.
- The code has no lock, so two first calls that overlap could both run
  discovery. The model proves only the sequential statement,
  `DiscoveryAtMostOnce`: over any sequence of calls the factory runs at most
  once.
- When the integration is switched off, `get` sets `instanceValid` and
  `instanceInit` but does not clear `instance`. The model does the same. The
  invariant `Consistent` shows that `instance` is already null in that case.

## Model

| member | source | states |
|---|---|---|
| `MapService.Registry.constructor` | src/main/java/codes/wasabi/xclaim/map/MapService.java:20-22 | the fields start unresolved: no instance, not initialised, not valid, so the invariant holds |
| `MapService.GetStep` | src/main/java/codes/wasabi/xclaim/map/MapService.java:24-46 | once initialised: returns the cached instance, leaves the fields unchanged and runs no hook, whatever the config or factory. Integration off: null, `instanceValid` false, `instanceInit` true, factory not run. Otherwise: the factory runs exactly once with the debug flag, and its outcome is cached and returned with `instanceValid == (instance != null)`. Keeps `Consistent` |
| `MapService.Registry.Get` | src/main/java/codes/wasabi/xclaim/map/MapService.java:24-46 | the imperative `get` leaves exactly the fields, result and hooks of `GetStep` and keeps the invariant |
| `MapService.GetNonNullStep` | src/main/java/codes/wasabi/xclaim/map/MapService.java:48-51 | same fields and hooks as `get`. Fails with a NullPointerException exactly when `get` would give null; otherwise returns the instance `get` gives |
| `MapService.Registry.GetNonNull` | src/main/java/codes/wasabi/xclaim/map/MapService.java:48-51 | the imperative `getNonNull` matches `GetNonNullStep` in fields, result and hooks |
| `MapService.IsAvailableStep` | src/main/java/codes/wasabi/xclaim/map/MapService.java:53-56 | same fields and hooks as `get`. Answers true exactly when `get` yields an instance |
| `MapService.Registry.IsAvailable` | src/main/java/codes/wasabi/xclaim/map/MapService.java:53-56 | the imperative `isAvailable` matches `IsAvailableStep` |
| `MapService.UnloadStep` | src/main/java/codes/wasabi/xclaim/map/MapService.java:58-65 | afterwards there is no instance, `instanceValid` is false and `instanceInit` is true. `cleanup` runs on the old instance if and only if it was valid. From the unresolved state no hook runs |
| `MapService.Registry.Unload` | src/main/java/codes/wasabi/xclaim/map/MapService.java:58-65 | the imperative `unload` matches `UnloadStep` in fields and hooks |
| `MapService.Apply` | src/main/java/codes/wasabi/xclaim/map/MapService.java:24-65 | any public call keeps `Consistent`, leaves the registry initialised, and runs the factory at most once, and not at all if it was already initialised |
| `MapService.Run` | src/main/java/codes/wasabi/xclaim/map/MapService.java:24-65 | a sequence of calls keeps `Consistent` and gives one reply per call |
| `MapService.DiscoveryAtMostOnce` | src/main/java/codes/wasabi/xclaim/map/MapService.java:24-46 | over any sequence of calls the factory runs at most once, and never once the registry is initialised |
| `MapService.ReleasedIsFinal` | src/main/java/codes/wasabi/xclaim/map/MapService.java:58-65 | from the released state, any sequence of calls runs no hook, keeps the state, and every reply is "unavailable" |
| `MapService.UnloadIsFinal` | src/main/java/codes/wasabi/xclaim/map/MapService.java:58-65 | after `unload`, every later call answers null, false or a failure, and discovery is never run again |
| `MapService.GetMarkerAsync` | src/main/java/codes/wasabi/xclaim/map/MapService.java:72-74 | the callback receives exactly one value, the one `getMarker` gives for the claim |
| `MapService.FindPlugin` | src/main/java/codes/wasabi/xclaim/map/MapService.java:79-84 | succeeds exactly when the plugin is registered and enabled, and then returns it. Fails with "not found" exactly when the plugin is absent, and with "not enabled" exactly when it is present but disabled. The failure names the plugin asked for, and its message is the one the exception carries: `Failed to find plugin "<name>"` or `Plugin "<name>" is not enabled` |
| `Bluemap.PolygonOf` | src/main/java/codes/wasabi/xclaim/map/impl/bluemap/BluemapMapMarker.java:43-49 | the polygon has one vertex per point, of the same coordinates, in the same order |
| `Bluemap.BuildShapeFromPoints` | src/main/java/codes/wasabi/xclaim/map/impl/bluemap/BluemapMapMarker.java:43-49 | the builder loop yields exactly `PolygonOf(points)`: same length, same order |
| `Bluemap.ShapesOf` | src/main/java/codes/wasabi/xclaim/map/impl/bluemap/BluemapMapMarker.java:66-70 | one polygon per contour, in the contours' order |
| `Bluemap.BluemapMapMarker.constructor` | src/main/java/codes/wasabi/xclaim/map/impl/bluemap/BluemapMapMarker.java:34-37 | the handle holds the given set and the given extrude marker |
| `Bluemap.BluemapMapMarker.Update` | src/main/java/codes/wasabi/xclaim/map/impl/bluemap/BluemapMapMarker.java:51-71 | with no traced contour, the marker is unchanged. Otherwise the outline equals contour 0 point for point, `minY`/`maxY` keep their values, and the holes are exactly contours 1..n-1 in order, with no earlier hole left. Label and colours are kept |
| `Bluemap.WithoutValue` | src/main/java/codes/wasabi/xclaim/map/impl/bluemap/BluemapMapMarker.java:74-79 | no key maps to the removed marker. A key survives exactly when its value is a different marker, and keeps that value |
| `Bluemap.WithoutValueIdempotent` | src/main/java/codes/wasabi/xclaim/map/impl/bluemap/BluemapMapMarker.java:74-79 | deleting a second time changes nothing |
| `Bluemap.BluemapMapMarker.DeleteMarker` | src/main/java/codes/wasabi/xclaim/map/impl/bluemap/BluemapMapMarker.java:73-79 | the scan over the snapshot of entries leaves the set's table equal to `WithoutValue(old table, marker)`. The set's label is untouched |
| `Bluemap.MarkerSetCache.constructor` | src/main/java/codes/wasabi/xclaim/map/impl/bluemap/BluemapMapMarker.java:83 | the cache starts empty |
| `Bluemap.MarkerSet.constructor` | src/main/java/codes/wasabi/xclaim/map/impl/bluemap/BluemapMapMarker.java:96-99 | a new marker set has the given label and no markers |
| `Bluemap.MarkerSetCache.GetMarkerSet` | src/main/java/codes/wasabi/xclaim/map/impl/bluemap/BluemapMapMarker.java:84-116 | null exactly when the claim has no world, or its world is neither cached nor known to the renderer, and then the cache is untouched. A cached world gives its cached set and nothing changes. A new world gives a fresh empty set labelled with the base name. That set is cached under the world's UUID and put under `xclaim_marker_set` on every map of the world; other entries keep their values |
| `Bluemap.Marker.constructor` | src/main/java/codes/wasabi/xclaim/map/impl/bluemap/BluemapMapMarker.java:145-167 | a new marker has the given shape, extent, label and colours, and no holes |
| `Bluemap.MarkerSetCache.GetMarker` | src/main/java/codes/wasabi/xclaim/map/impl/bluemap/BluemapMapMarker.java:118-172 | null exactly when no marker set resolves. Otherwise the token maps to the returned extrude marker in the world's cached set. If the token already held an extrude marker, that same marker is returned and the table is unchanged. If not, any entry of another kind is replaced. The table becomes the old one with the token mapped to a fresh marker: label = claim name, shape = the bounds rectangle, extent = the world's height range, no holes, claim colour at fill and line opacity |
| `Bluemap.MarkerSetCache.GetMarkerTwice` | src/main/java/codes/wasabi/xclaim/map/impl/bluemap/BluemapMapMarker.java:124-131 | two lookups of one claim with nothing in between return the same marker in the same set, or both null |
| `Bluemap.Cleanup` | src/main/java/codes/wasabi/xclaim/map/impl/bluemap/BluemapMapMarker.java:174-179 | every map loses the `xclaim_marker_set` key. All its other marker-set entries stay as they were |

## Left out

- `ChunkBitmap.traceBlocks` is not part of this model. It is the `Tracer` parameter, a function with no properties assumed.
- The service factory (`ServiceFactory`) and the reflection helper `findClass` are not part of this model. The factory is the `Factory` parameter. Its order of candidates, debug logging and class loading are not modelled.
- The Bukkit and BlueMap lookups are inputs. These are `api.getWorld`, `getMaps`, the plugin manager, `Platform.getWorldMinHeight`, `World.getMaxHeight` and `ClaimUtil.getClaimColor`. World lookup goes by UUID (`Api.worlds`).
- Colours, the 0.2 and 0.4 opacities, and `Shape.createRect` are opaque values (`Color`, `Opacity`, `Shape.Rect`). Vertices are integers. `Vector2d` is double precision, which holds a chunk-grid coordinate exactly.
- The random suffixes that `getMarkerSet` gives the set's label while it walks the maps are not modelled. This is randomness, and only the final label is observable afterwards.
- Bluemap.MarkerSetCache.GetMarkerSet: does not state the label during the loop, only the final one, for the same reason.
- The fallback to the first server world when a claim has no world (BluemapMapMarker.java:139-141) is dead code. `getMarker` has already returned null for such a claim, and `GetMarker`'s contract shows that a world is present there.
- Bluemap.BluemapMapMarker.DeleteMarker: compares markers by reference. BlueMap's own `Marker.equals` is not part of this model. Markers that are distinct objects but compare equal under it are kept by the model.
- MapService.GetMarkerAsync: treats `getMarker` as a function of the claim. The backend's own state changes during the lookup are modelled by `Bluemap.MarkerSetCache.GetMarker`, not here.
- Logging, configuration loading (the two flags arrive as `Config`) and language lookups (the set's name arrives as `baseName`) are left out.
- Concurrency: MapService and BluemapMapMarker have no locking, and the model claims nothing about overlapping calls.
- The running backend's `cleanup` appears in the registry only as a `RunCleanup` hook. What BlueMap's cleanup does is `Bluemap.Cleanup`.
- The Java `cleanup` does not empty `markerSetMap`, and the model keeps that. The model does not go further into what a later `getMarkerSet` would return; after `unload` no backend is resolved again.
