# ValpoMap POI core in Dafny

ValpoMap is an interactive map of points of interest (POIs). Each
POI has a name, a description, an optional link, a category and a GeoJSON
`Point` location. This project models three parts of it:

- **the POI schema** (`PoiSchema`): a predicate `Conforms` that says which
  documents the collection accepts;
- **the POI service** (`PoiRoutes`): the four REST handlers, as methods of a
  `Store` class that holds the collection as a map from id to record;
- **the map component's view model** (`MapView`): how the fetched list is
  grouped into a category → entries table, how `[lng, lat]` is projected
  to `lat`/`lng`, and a `MapState` class. Its fields are the component's
  React state (`activeCategories`, `showForm`, `pois`, `newPoiCoords`,
  `editingPoi`), and it has one method per handler.

Modelling choices:

- Coordinates are only copied, never computed, so each one is an opaque
  integer (`Coord.Num`). `Coord.Absent` stands for the `undefined` that
  JavaScript reads past the end of a short list.
- Record fields are `Option`s, so the schema's `required` flags are real
  constraints. A required String must be present and non-empty.
- The active-category `Set` is a duplicate-free sequence in insertion
  order. Its first element is `Array.from(activeCategories)[0]`.
- These outside inputs are parameters: the form's field values, the
  answer of `window.confirm`, every server answer (`Option<Response>`,
  where `None` means the fetch threw), the time (`now`), and whether the
  database fails (`fault`).
- Fresh ids come from a counter, `Store.nextId`, which is above every
  stored id.

Behaviour of the code worth noting:
- DELETE answers only `{ message: 'POI cancellato con successo' }`. It
  does not send back the deleted record.
- The schema does not constrain how many coordinates a location has. A
  POST whose location has no `coordinates` is stored with `[]`, the
  default Mongoose gives an array path.
- PUT updates only `name`, `description`, `link` and `category`. It never
  updates `location`, even though the client sends one.
- POST drops `link` even though the add form sends one. `CreateRoundTrip`
  shows that a POI created from the form has no link.
- On an edit, the client replaces entries only in the bucket of the first
  active category. The PUT also sends that category. So editing a POI of
  another active category moves it to that category on the server, while
  its old bucket keeps showing the unedited entry (`Reconcile`, edit case).

## Model

| member | source | states |
|---|---|---|
| PoiSchema.Conforms | backend/models/Poi.js:4-15 | definition of an acceptable record; its properties are in the six lemmas below |
| PoiSchema.ConformingFields | backend/models/Poi.js:4-12 | read off the schema: an accepted record has a non-empty name, description and category and a location of type 'Point' with a coordinate list |
| PoiSchema.MissingFieldRefused | backend/models/Poi.js:5-12 | a missing or empty name, description or category makes a record unacceptable |
| PoiSchema.LinkOptional | backend/models/Poi.js:7 | the value of `link`, or its absence, never changes whether a record is accepted |
| PoiSchema.CoordinatesAnyLength | backend/models/Poi.js:10 | any list of numbers, of any length and including the empty list, is accepted as coordinates |
| PoiSchema.OnlyPoints | backend/models/Poi.js:9 | a location whose type is missing or is not 'Point' is refused |
| PoiSchema.AnyCategory | backend/models/Poi.js:12 | no category enumeration on the server: any non-empty category is accepted |
| PoiRoutes.Defaulted | backend/routes/poi.js:13 | the location `new POI` holds: present exactly when sent, with the same type, always with a coordinate list; sent coordinates are kept and missing ones become `[]` |
| PoiRoutes.Created | backend/routes/poi.js:13 | definition of the record built from a POST body; its properties are in `Store.Create`, `MissingCoordinatesDefault` and `CreateRoundTrip` |
| PoiRoutes.MissingCoordinatesDefault | backend/routes/poi.js:13 | a 'Point' location sent without coordinates is stored with `[]` and the record is accepted |
| PoiRoutes.Override | backend/routes/poi.js:43 | definition of one update path: an undefined body value leaves the stored value; its properties are in `Store.Update` |
| PoiRoutes.Patched | backend/routes/poi.js:41-45 | definition of the updated record; its properties are in `PatchedConforms` and `Store.Update` |
| PoiRoutes.UpdateValidates | backend/routes/poi.js:44 | definition of what the update validators accept; related to the schema by `PatchedConforms` |
| PoiRoutes.PatchedConforms | backend/routes/poi.js:41-45 | on a stored record, the update validators accept exactly the updates whose result still conforms |
| PoiRoutes.Store.Create | backend/routes/poi.js:5-19 | no category: 400 "Category is required", store unchanged; a validation or store failure: 400, store unchanged; otherwise exactly one record under a fresh id, with the given name, description and category, the given location with missing coordinates defaulted to `[]`, no link, both timestamps `now`, answered with 201 |
| PoiRoutes.Store.List | backend/routes/poi.js:22-29 | a store failure gives 400; otherwise 200 with every stored record exactly once |
| PoiRoutes.Store.Update | backend/routes/poi.js:32-55 | no category: 400; a failing update validator or store failure: 400; unknown id: 404 "POI non trovato"; in all three the store is unchanged. Otherwise only name, description, link and category of that record change (the ones the body gives) and `updatedAt` becomes `now`; its location, id and `createdAt` stay, other records stay, and the new record is answered with 200 |
| PoiRoutes.Store.Delete | backend/routes/poi.js:58-71 | a store failure gives 400 and an unknown id 404, store unchanged in both; otherwise exactly that record is removed and the answer is 200 with 'POI cancellato con successo' |
| PoiRoutes.CreateListDelete | backend/routes/poi.js:5-71 | a created POI keeps its category and `[lng, lat]`, is listed, is deleted with the success message, and is then absent from the list |
| MapView.Project | src/components/Map.js:44 | definition of the entry shown on the map; its properties are in `ProjectReadsAxes` and `PointRoundTrip` |
| MapView.Point | src/components/Map.js:130-133 | definition of the location the form sends; its properties are in `PointRoundTrip` and `CreateRoundTrip` |
| MapView.ProjectReadsAxes | src/components/Map.js:44 | the projection takes `lat` from coordinates[1] and `lng` from coordinates[0] |
| MapView.PointRoundTrip | src/components/Map.js:130-133 | building `[lng, lat]` and projecting back gives the same `lat` and `lng` (no axis swap) |
| MapView.SeedTable | src/components/Map.js:10-18 | definition of POI_CATEGORIES: the seven categories, each with an empty list; the constant `MapView.Known` holds its keys, the ones `hasOwnProperty` accepts; its properties are in `GroupKeys` |
| MapView.BucketOf | src/components/Map.js:40 | definition of the bucket a POI goes to: its category when that is a key of POI_CATEGORIES, `Uncategorized` otherwise; its properties are in `GroupPlacesOnce` |
| MapView.Push | src/components/Map.js:40-45 | definition of one reduce step; its properties are in `GroupIntoSpec` |
| MapView.Group | src/components/Map.js:39-46 | definition of the table a load builds; its properties are in `GroupKeys`, `GroupBuckets` and `GroupPlacesOnce` |
| MapView.GroupInto | src/components/Map.js:39-46 | the reduce never loses a key of the table it starts from |
| MapView.SelectMembers | src/components/Map.js:40-44 | the POIs bound for a bucket are exactly those whose category is that key (or, for `Uncategorized`, not a key of POI_CATEGORIES), each projected, and the bucket is non-empty exactly when one such POI exists |
| MapView.GroupIntoSpec | src/components/Map.js:40-45 | the reduce appends to each bucket exactly the projected POIs bound for it, in fetch order, and creates a bucket only when some POI goes to it |
| MapView.GroupKeys | src/components/Map.js:10-46 | after a load, the seven known categories are always keys (even when empty); the only other key is `Uncategorized`, present exactly when some POI fell into it |
| MapView.GroupBuckets | src/components/Map.js:39-46 | each loaded bucket is exactly the POIs bound for it, projected, in fetch order |
| MapView.GroupPlacesOnce | src/components/Map.js:40-44 | every fetched POI appears in its category's bucket if the category is known, otherwise in `Uncategorized`, and in no other bucket |
| MapView.Without | src/components/Map.js:58 | deleting from the set removes only that category and keeps the rest duplicate-free |
| MapView.WithoutSplices | src/components/Map.js:58 | deleting an active category splices it out of the insertion order: the others keep their relative order |
| MapView.Toggled | src/components/Map.js:55-63 | toggling flips the membership of that category only and keeps the set duplicate-free |
| MapView.ToggleTwice | src/components/Map.js:55-63 | toggling twice restores membership; an inactive category restores the exact order, an active one comes back last |
| MapView.ToggleKeepsFirst | src/components/Map.js:118 | toggling any category other than the first keeps the first, which is the category new POIs get |
| MapView.First | src/components/Map.js:118 | definition of `Array.from(activeCategories)[0]`; its properties are in `ToggleKeepsFirst` and `NoCategoryRefused` |
| MapView.NoCategoryRefused | src/components/Map.js:118-129 | read off the definitions: with no active category the form sends no category, which the service refuses |
| MapView.RemoveId | src/components/Map.js:102 | filtering a bucket never lengthens it |
| MapView.RemoveIdAbsent | src/components/Map.js:102 | a bucket with no entry of that id is kept exactly as it was |
| MapView.RemoveIdMembers | src/components/Map.js:102 | the filter keeps exactly the entries with a different `_id` |
| MapView.RemoveIdConcat | src/components/Map.js:102 | the filter keeps relative order (it distributes over concatenation) |
| MapView.Purge | src/components/Map.js:99-105 | definition of the table after a delete; its properties are in `PurgeSpec` and `MapState.DeletePoi` |
| MapView.PurgeSpec | src/components/Map.js:99-105 | after a delete the keys are unchanged, no bucket holds the id, and every other entry stays in its bucket |
| MapView.ReplaceId | src/components/Map.js:168-170 | the edit rewrite keeps the bucket length and replaces exactly the entries with the edited `_id` |
| MapView.KeyOf | src/components/Map.js:167-172 | definition of the bucket key the updater uses (`"undefined"` for no category); its properties are in `Reconcile` |
| MapView.Reconcile | src/components/Map.js:159-176 | the submit updater touches only the bucket of the first active category: a create appends the projected answer at its end, an edit replaces the entries with the edited id and keeps the length; it throws exactly when the answer is not a record with coordinates, or an edit targets a missing bucket |
| MapView.FormPayload | src/components/Map.js:125-134 | definition of the body the form sends; its properties are in `CreateRoundTrip` |
| MapView.RequestFor | src/components/Map.js:137-154 | definition of the request: PUT to the edited id, POST otherwise; its properties are in `MapState.Submit` |
| MapView.CreateRoundTrip | src/components/Map.js:125-134 | a create accepted by the service conforms and, projected, returns to the clicked position with the chosen category, but without the form's link |
| MapView.MapState.constructor | src/components/Map.js:27-31 | the initial state: no active category, form hidden, the seven empty buckets, no coordinates, not editing |
| MapView.MapState.Load | src/components/Map.js:33-53 | a list answer whose records all have coordinates replaces the table with the grouped list; any other answer leaves the modelled state as it was (the arrays an aborted reduce has already pushed into are not modelled, see Left out) |
| MapView.Loadable | src/components/Map.js:36-47 | definition of when loadPois reaches `setPois`: a list answer (of any status) whose records all have coordinates; its properties are in `MapState.Load` |
| MapView.MapState.SelectCategory | src/components/Map.js:55-63 | the active set becomes the toggled set; nothing else changes |
| MapView.MapState.MapClick | src/components/Map.js:65-73 | with no active category nothing changes; otherwise the form shows, not editing, at the click position |
| MapView.MapState.EditPoi | src/components/Map.js:75-79 | the form shows, editing that entry, at the entry's own position |
| MapView.MapState.CloseForm | src/components/Map.js:229 | an overlay click hides the form and leaves the edited entry and coordinates as they were |
| MapView.DeleteConfirmed | src/components/Map.js:89-98 | definition of when handleDeletePoi reaches `setPois`: a 2xx answer carrying the success message; its properties are in `MapState.DeletePoi` |
| MapView.MapState.DeletePoi | src/components/Map.js:81-112 | the DELETE is sent exactly when confirmed; only a 2xx answer carrying the success message removes the id from every bucket; nothing else changes |
| MapView.MapState.Submit | src/components/Map.js:114-185 | an empty name or description, or no coordinates, sends nothing and changes nothing; otherwise it sends a PUT for the edited id or a POST, with `[lng, lat]` and the first active category; an answer the updater can apply updates the table as `Reconcile` says and resets `showForm`, `editingPoi` and `newPoiCoords`; a failed fetch changes nothing |
| MapView.SeedAfterLoad | src/components/Map.js:39-46 | as written, a load fills POI_CATEGORIES's own arrays; the constant keeps its keys |
| MapView.SecondLoadDoubles | src/components/Map.js:29-46 | as written, a second load lists every known-category POI twice |
| MapView.SecondLoadExample | src/components/Map.js:39-46 | one Cultura POI is listed once by one load and twice by a second load |
| MapView.ErrorAnswerThrows | src/components/Map.js:156-165 | read off `Reconcile`'s guard: as written, an error answer (404 or 400) makes the updater throw |

## Left out

- Rendering (JSX, Leaflet markers, tiles, the icon, the form's default
  values) and `src/components/Legend.js`. They only present state and
  forward clicks.
- `fetch`, `alert`, `console`, `window.confirm` and
  `document.getElementById`. Their results are method parameters.
- The `async` ordering of requests and overlapping requests. The model
  handles one handler call at a time, with its answer already known.
- `backend/server.js`, `clearDB.js` and `backend/models/User.js`: Express
  setup, the database connection, a one-off cleanup script, and password
  hashing.
- Mongoose id generation and the text of its error messages. Ids are fresh
  values from a counter. A validation or database error is the single
  body `StoreError`.
- Mongoose type casting of request fields (numbers sent as strings, and so
  on). JSON `null` is not told apart from a missing field.
- PoiRoutes.Store.Update: a field the body leaves undefined is dropped
  from the update, as Mongoose 6 and later do; Mongoose 5 may write it as
  `null`.
- PoiRoutes.Store.List: the order of the answer is left open. The store
  is a map and the source defines no order.
- MapView.MapState.Load: it never sees POI_CATEGORIES filled by an
  earlier load. It groups from the seven empty buckets every time (see
  Findings). Nor does it capture that a load which throws part-way
  (a record without coordinates after some with them) has already
  pushed the earlier POIs into those arrays, which on a first mount are
  the `pois` state's own: the model leaves the state as it was.
- MapView.MapState.Submit: where the source's state updater would throw
  while rendering, the model keeps the previous state (see Findings).
- The order of the table's keys (JavaScript property order). It matters
  only for the order in which the legend lists categories.

## Findings

| source | as written | input that shows it | evidently intended | confidence | as-written member | corrected member |
|---|---|---|---|---|---|---|
| src/components/Map.js:39-46 | `{ ...POI_CATEGORIES }` copies only the outer object, so the reduce pushes into the module constant's own arrays | mount the map, load one POI of category Cultura, unmount and mount again (or run the effect twice, as React's strict mode does) and load the same list: its Cultura bucket lists that POI twice | every load starts from seven empty buckets and lists each fetched POI once | not executed; high | MapView.SeedAfterLoad, MapView.SecondLoadDoubles, MapView.SecondLoadExample | MapView.Group (used by MapView.MapState.Load), MapView.GroupBuckets, MapView.GroupPlacesOnce |
| src/components/Map.js:156-176 | handleAddPOI never checks `response.ok` and reads `data.location.coordinates` in the state updater | edit a POI that another client has deleted: the PUT answers 404 `{ error: 'POI non trovato' }`, so `data.location` is undefined and the updater throws while rendering | a failed answer is reported like a failed fetch and leaves the view state as it was (as handleDeletePoi does) | not executed; high | MapView.Reconcile, MapView.ErrorAnswerThrows | MapView.MapState.Submit |
