/**
 * The map component's view model (src/components/Map.js) without its
 * rendering: the category table built from the fetched POIs, the set of
 * active categories, and the add/edit form state, with one method per
 * handler.  Form field values, `window.confirm` and server answers are
 * parameters; `alert` and the console are left out.
 */
module MapView {
  import opened Optional
  import opened PoiSchema
  import opened PoiRoutes

  /** The seven categories POI_CATEGORIES seeds the table with. */
  const Categories: seq<string> :=
    ["Eventi", "Cultura", "Natura", "Sport", "Enograstronomia", "Ospitalità", "Univalpo"]

  /** The bucket of a POI whose category is missing or unknown. */
  const Uncategorized: string := "Uncategorized"

  /** The property name JavaScript uses when an object is indexed with `undefined`. */
  const UndefinedKey: string := "undefined"

  /** A POI as the component keeps it: the record spread with `lat` and `lng`. */
  datatype Entry = Entry(poi: Poi, lat: Coord, lng: Coord)

  /** A Leaflet click position, or the coordinates of the POI being edited. */
  datatype LatLng = LatLng(lat: Coord, lng: Coord)

  /** The request the form submits. */
  datatype Request = Post(body: Payload) | Put(id: Id, body: Payload)

  /** The `pois` state: category name to the entries shown under it. */
  type Table = map<string, seq<Entry>>

  // ---------------------------------------------------------------------
  // Projection between `coordinates: [lng, lat]` and `lat` / `lng`

  /** `cs[i]`, or `undefined` past the end. */
  function Slot(cs: seq<Coord>, i: nat): Coord {
    if i < |cs| then cs[i] else Absent
  }

  /** `poi.location.coordinates` can be read without a TypeError. */
  predicate Locatable(p: Poi) {
    p.location.Some? && p.location.value.coordinates.Some?
  }

  predicate AllLocatable(data: seq<Poi>) {
    forall i :: 0 <= i < |data| ==> Locatable(data[i])
  }

  /** `{ ...poi, lat: poi.location.coordinates[1], lng: poi.location.coordinates[0] }` */
  function Project(p: Poi): Entry
    requires Locatable(p)
  {
    var cs := p.location.value.coordinates.value;
    Entry(p, Slot(cs, 1), Slot(cs, 0))
  }

  /** `{ type: 'Point', coordinates: [newPoiCoords.lng, newPoiCoords.lat] }` */
  function Point(at: LatLng): Location {
    Location(Some(PointType), Some([at.lng, at.lat]))
  }

  /** The projection reads latitude from slot 1 and longitude from slot 0. */
  lemma ProjectReadsAxes(p: Poi)
    requires Locatable(p) && |p.location.value.coordinates.value| >= 2
    ensures Project(p).poi == p
    ensures Project(p).lat == p.location.value.coordinates.value[1]
    ensures Project(p).lng == p.location.value.coordinates.value[0]
  {
  }

  /** Building `[lng, lat]` and projecting back gives the same position: no axis swap. */
  lemma PointRoundTrip(p: Poi, at: LatLng)
    requires p.location == Some(Point(at))
    ensures Locatable(p) && Project(p).lat == at.lat && Project(p).lng == at.lng
  {
  }

  // ---------------------------------------------------------------------
  // Grouping the fetched list (the `reduce` of loadPois)

  /** POI_CATEGORIES: every known category with an empty list. */
  function SeedTable(): Table {
    map c | c in Categories :: []
  }

  /** The keys `POI_CATEGORIES.hasOwnProperty` accepts. */
  const Known: set<string> := set c | c in Categories

  /**
   * The bucket a fetched POI goes to, given the keys of POI_CATEGORIES:
   * its category if that is a key, `Uncategorized` otherwise.  (A missing
   * or empty category is never a key.)
   */
  function BucketOf(known: set<string>, p: Poi): string {
    if p.category.Some? && p.category.value in known then p.category.value else Uncategorized
  }

  /** The list under `k`, or an empty one for a missing key. */
  function Bucket(t: Table, k: string): seq<Entry> {
    if k in t then t[k] else []
  }

  /** One step of the reduce: create the bucket if needed and push the projected POI. */
  function Push(known: set<string>, acc: Table, p: Poi): Table
    requires Locatable(p)
  {
    var k := BucketOf(known, p);
    acc[k := Bucket(acc, k) + [Project(p)]]
  }

  /** `data.reduce(step, acc)` */
  function GroupInto(known: set<string>, acc: Table, data: seq<Poi>): (t: Table)
    requires AllLocatable(data)
    ensures acc.Keys <= t.Keys
    decreases |data|
  {
    if data == [] then acc else GroupInto(known, Push(known, acc, data[0]), data[1..])
  }

  /** The table a load builds, starting from a copy of an untouched POI_CATEGORIES. */
  function Group(data: seq<Poi>): Table
    requires AllLocatable(data)
  {
    GroupInto(Known, SeedTable(), data)
  }

  /** The projection of `p` if it is bound for bucket `k`. */
  function Mine(known: set<string>, p: Poi, k: string): seq<Entry>
    requires Locatable(p)
  {
    if BucketOf(known, p) == k then [Project(p)] else []
  }

  /** Reference definition: the projected POIs bound for bucket `k`, in fetch order. */
  function Select(known: set<string>, data: seq<Poi>, k: string): seq<Entry>
    requires AllLocatable(data)
    decreases |data|
  {
    if data == [] then [] else Mine(known, data[0], k) + Select(known, data[1..], k)
  }

  /** `Select` holds exactly the projections of the POIs bound for `k`. */
  lemma {:induction false} SelectMembers(known: set<string>, data: seq<Poi>, k: string)
    requires AllLocatable(data)
    ensures forall i :: 0 <= i < |data| && BucketOf(known, data[i]) == k ==> Project(data[i]) in Select(known, data, k)
    ensures forall e :: e in Select(known, data, k) ==> e.poi in data && BucketOf(known, e.poi) == k && e == Project(e.poi)
    ensures Select(known, data, k) != [] <==> exists i :: 0 <= i < |data| && BucketOf(known, data[i]) == k
    decreases |data|
  {
    if data != [] {
      SelectMembers(known, data[1..], k);
      forall i | 0 <= i < |data| && BucketOf(known, data[i]) == k
        ensures Project(data[i]) in Select(known, data, k)
      {
        if i > 0 {
          assert data[i] == data[1..][i - 1];
        }
      }
      if Select(known, data[1..], k) != [] {
        var i :| 0 <= i < |data[1..]| && BucketOf(known, data[1..][i]) == k;
        assert BucketOf(known, data[i + 1]) == k;
      }
    }
  }

  /** One reduce step adds the POI to its own bucket only. */
  lemma PushAt(known: set<string>, acc: Table, p: Poi, k: string)
    requires Locatable(p)
    ensures k in Push(known, acc, p) <==> k in acc || BucketOf(known, p) == k
    ensures Bucket(Push(known, acc, p), k) == Bucket(acc, k) + Mine(known, p, k)
  {
  }

  /** The reduce appends to bucket `k` exactly the POIs bound for it, in order, creating it on demand. */
  lemma {:induction false} GroupIntoAt(known: set<string>, acc: Table, data: seq<Poi>, k: string)
    requires AllLocatable(data)
    ensures k in GroupInto(known, acc, data) <==> k in acc || Select(known, data, k) != []
    ensures Bucket(GroupInto(known, acc, data), k) == Bucket(acc, k) + Select(known, data, k)
    decreases |data|
  {
    if data == [] {
      assert Bucket(acc, k) + [] == Bucket(acc, k);
    } else {
      var p, rest := data[0], data[1..];
      var mine, b, sel := Mine(known, p, k), Bucket(acc, k), Select(known, rest, k);
      GroupIntoAt(known, Push(known, acc, p), rest, k);
      PushAt(known, acc, p, k);
      assert (b + mine) + sel == b + (mine + sel);
    }
  }

  /** `GroupIntoAt` for every key at once. */
  lemma GroupIntoSpec(known: set<string>, acc: Table, data: seq<Poi>)
    requires AllLocatable(data)
    ensures forall k :: k in GroupInto(known, acc, data) <==> k in acc || Select(known, data, k) != []
    ensures forall k :: k in GroupInto(known, acc, data) ==>
      GroupInto(known, acc, data)[k] == Bucket(acc, k) + Select(known, data, k)
  {
    forall k
      ensures k in GroupInto(known, acc, data) <==> k in acc || Select(known, data, k) != []
      ensures k in GroupInto(known, acc, data) ==>
        GroupInto(known, acc, data)[k] == Bucket(acc, k) + Select(known, data, k)
    {
      GroupIntoAt(known, acc, data, k);
    }
  }

  /**
   * The seven known categories are always keys, even when empty; the only
   * other key is `Uncategorized`, present exactly when some POI fell into it.
   */
  lemma GroupKeys(data: seq<Poi>)
    requires AllLocatable(data)
    ensures forall c :: c in Categories ==> c in Group(data)
    ensures forall k :: k in Group(data) ==> k in Categories || k == Uncategorized
    ensures Uncategorized in Group(data) <==>
      exists i :: 0 <= i < |data| && BucketOf(Known, data[i]) == Uncategorized
  {
    forall c | c in Categories
      ensures c in Group(data)
    {
      GroupIntoAt(Known, SeedTable(), data, c);
    }
    forall k | k in Group(data)
      ensures k in Categories || k == Uncategorized
    {
      GroupIntoAt(Known, SeedTable(), data, k);
      if k !in SeedTable() {
        SelectMembers(Known, data, k);
      }
    }
    GroupIntoAt(Known, SeedTable(), data, Uncategorized);
    SelectMembers(Known, data, Uncategorized);
  }

  /** Each bucket of the loaded table holds exactly the projected POIs bound for it, in fetch order. */
  lemma GroupBuckets(data: seq<Poi>)
    requires AllLocatable(data)
    ensures forall k :: k in Group(data) ==> Group(data)[k] == Select(Known, data, k)
  {
    GroupIntoSpec(Known, SeedTable(), data);
  }

  /**
   * Every fetched POI appears in one bucket only: the one of its category
   * if that is a known category, `Uncategorized` otherwise.
   */
  lemma GroupPlacesOnce(data: seq<Poi>, i: nat)
    requires AllLocatable(data) && i < |data|
    ensures BucketOf(Known, data[i]) ==
      (if Filled(data[i].category) && data[i].category.value in Categories then data[i].category.value else Uncategorized)
    ensures BucketOf(Known, data[i]) in Group(data)
    ensures Project(data[i]) in Group(data)[BucketOf(Known, data[i])]
    ensures forall k, e :: k in Group(data) && e in Group(data)[k] && e.poi == data[i] ==> k == BucketOf(Known, data[i])
  {
    var home := BucketOf(Known, data[i]);
    SelectMembers(Known, data, home);
    GroupIntoAt(Known, SeedTable(), data, home);
    forall k, e | k in Group(data) && e in Group(data)[k] && e.poi == data[i]
      ensures k == home
    {
      GroupIntoAt(Known, SeedTable(), data, k);
      SelectMembers(Known, data, k);
    }
  }

  // ---------------------------------------------------------------------
  // The active-category set, as a duplicate-free sequence in insertion order

  predicate Distinct(s: seq<string>) {
    forall i, j :: 0 <= i < j < |s| ==> s[i] != s[j]
  }

  /** `Set.delete`: remove `c`, keeping the order of the rest. */
  function Without(s: seq<string>, c: string): (r: seq<string>)
    ensures forall x :: x in r <==> x in s && x != c
    ensures Distinct(s) ==> Distinct(r)
    ensures c !in s ==> r == s
    ensures Distinct(s) && |s| > 0 && s[0] == c ==> r == s[1..]
    decreases |s|
  {
    if s == [] then []
    else
      var rest := Without(s[1..], c);
      assert Distinct(s) ==> Distinct(s[1..]) && s[0] !in s[1..];
      (if s[0] == c then [] else [s[0]]) + rest
  }

  /** Deleting an active category splices it out: the others keep their order. */
  lemma {:induction false} WithoutSplices(s: seq<string>, c: string)
    requires Distinct(s) && c in s
    ensures exists i :: 0 <= i < |s| && s[i] == c && Without(s, c) == s[..i] + s[i + 1..]
    decreases |s|
  {
    if s[0] == c {
      assert Without(s, c) == s[..0] + s[1..];
    } else {
      assert Distinct(s[1..]);
      WithoutSplices(s[1..], c);
      var j :| 0 <= j < |s[1..]| && s[1..][j] == c && Without(s[1..], c) == s[1..][..j] + s[1..][j + 1..];
      assert s[..j + 1] + s[j + 2..] == [s[0]] + (s[1..][..j] + s[1..][j + 1..]);
      assert s[j + 1] == c;
    }
  }

  /** handleSelectCategory's new set: delete `c` if present, add it (at the end) otherwise. */
  function Toggled(s: seq<string>, c: string): (r: seq<string>)
    ensures forall x :: x in r <==> (x in s) != (x == c)
    ensures Distinct(s) ==> Distinct(r)
  {
    if c in s then Without(s, c) else s + [c]
  }

  lemma {:induction false} WithoutAppended(s: seq<string>, c: string)
    requires c !in s
    ensures Without(s + [c], c) == s
  {
    if s == [] {
      assert [] + [c] == [c];
    } else {
      assert (s + [c])[1..] == s[1..] + [c];
      WithoutAppended(s[1..], c);
    }
  }

  /**
   * Toggling twice restores membership.  An absent category comes back to
   * the very same sequence; an active one returns at the end of the order.
   */
  lemma ToggleTwice(s: seq<string>, c: string)
    requires Distinct(s)
    ensures forall x :: x in Toggled(Toggled(s, c), c) <==> x in s
    ensures c !in s ==> Toggled(Toggled(s, c), c) == s
    ensures c in s ==> Toggled(Toggled(s, c), c) == Without(s, c) + [c]
  {
    if c !in s {
      WithoutAppended(s, c);
    }
  }

  /** The category a new POI gets, `Array.from(activeCategories)[0]`, is kept by toggling any other one. */
  lemma ToggleKeepsFirst(s: seq<string>, c: string)
    requires |s| > 0 && c != s[0]
    ensures |Toggled(s, c)| > 0 && Toggled(s, c)[0] == s[0]
  {
  }

  /** `Array.from(activeCategories)[0]` */
  function First(s: seq<string>): Option<string> {
    if |s| > 0 then Some(s[0]) else None
  }

  // ---------------------------------------------------------------------
  // Bucket rewrites after delete, create and edit

  /** `bucket.filter(poi => poi._id !== id)` */
  function RemoveId(es: seq<Entry>, id: Id): (r: seq<Entry>)
    ensures |r| <= |es|
    decreases |es|
  {
    if es == [] then []
    else (if es[0].poi.id == id then [] else [es[0]]) + RemoveId(es[1..], id)
  }

  /** The filter keeps exactly the entries with another id. */
  lemma {:induction false} RemoveIdMembers(es: seq<Entry>, id: Id)
    ensures forall e :: e in RemoveId(es, id) <==> e in es && e.poi.id != id
    decreases |es|
  {
    if es != [] {
      RemoveIdMembers(es[1..], id);
      assert es == [es[0]] + es[1..];
    }
  }

  /** A bucket without the id is left as it is. */
  lemma {:induction false} RemoveIdAbsent(es: seq<Entry>, id: Id)
    requires forall e :: e in es ==> e.poi.id != id
    ensures RemoveId(es, id) == es
    decreases |es|
  {
    if es != [] {
      assert es[0] in es;
      assert forall e :: e in es[1..] ==> e in es;
      RemoveIdAbsent(es[1..], id);
      assert es == [es[0]] + es[1..];
    }
  }

  /** The filter keeps relative order: it distributes over concatenation. */
  lemma {:induction false} RemoveIdConcat(a: seq<Entry>, b: seq<Entry>, id: Id)
    ensures RemoveId(a + b, id) == RemoveId(a, id) + RemoveId(b, id)
    decreases |a|
  {
    if a == [] {
      assert a + b == b;
    } else {
      var c := a + b;
      var head := if a[0].poi.id == id then [] else [a[0]];
      var restA := RemoveId(a[1..], id);
      var restB := RemoveId(b, id);
      assert c[0] == a[0] && c[1..] == a[1..] + b;
      RemoveIdConcat(a[1..], b, id);
      assert RemoveId(c[1..], id) == restA + restB;
      assert RemoveId(c, id) == head + (restA + restB);
      assert RemoveId(a, id) == head + restA;
      assert head + (restA + restB) == (head + restA) + restB;
    }
  }

  /** The table after a successful delete: every bucket filtered. */
  function Purge(t: Table, id: Id): Table {
    map k | k in t :: RemoveId(t[k], id)
  }

  /** After a delete no bucket has the id, every other entry stays, and the keys are those before. */
  lemma PurgeSpec(t: Table, id: Id)
    ensures Purge(t, id).Keys == t.Keys
    ensures forall k, e :: k in t && e in Purge(t, id)[k] ==> e.poi.id != id
    ensures forall k, e :: k in t && e in t[k] && e.poi.id != id ==> e in Purge(t, id)[k]
  {
    forall k | k in t
      ensures forall e :: e in Purge(t, id)[k] <==> e in t[k] && e.poi.id != id
    {
      RemoveIdMembers(t[k], id);
    }
  }

  /** `bucket.map(p => p._id === id ? e : p)` */
  function ReplaceId(es: seq<Entry>, id: Id, e: Entry): (r: seq<Entry>)
    ensures |r| == |es|
    ensures forall i :: 0 <= i < |es| ==> r[i] == (if es[i].poi.id == id then e else es[i])
    decreases |es|
  {
    if es == [] then []
    else [if es[0].poi.id == id then e else es[0]] + ReplaceId(es[1..], id, e)
  }

  /** The property key `newPois[category]` uses. */
  function KeyOf(category: Option<string>): string {
    if category.Some? then category.value else UndefinedKey
  }

  /**
   * The `setPois` updater of handleAddPOI: `None` where, as written, it
   * throws (the answer has no `location.coordinates`, or an edit indexes a
   * missing bucket).  It touches only the bucket of `key`.
   */
  function Reconcile(t: Table, key: string, editing: Option<Entry>, data: Body): (r: Option<Table>)
    ensures r.None? <==> !(data.Record? && Locatable(data.poi)) || (editing.Some? && key !in t)
    ensures r.Some? ==> r.value.Keys == t.Keys + {key}
    ensures r.Some? ==> forall k :: k in t && k != key ==> r.value[k] == t[k]
    ensures r.Some? && editing.None? ==> r.value[key] == Bucket(t, key) + [Project(data.poi)]
    ensures r.Some? && editing.Some? ==>
      && |r.value[key]| == |t[key]|
      && forall i :: 0 <= i < |t[key]| ==>
           r.value[key][i] == if t[key][i].poi.id == editing.value.poi.id then Project(data.poi) else t[key][i]
  {
    if !(data.Record? && Locatable(data.poi)) then None
    else if editing.Some? then
      if key in t then Some(t[key := ReplaceId(t[key], editing.value.poi.id, Project(data.poi))]) else None
    else Some(t[key := Bucket(t, key) + [Project(data.poi)]])
  }

  /** The body handleAddPOI sends; the category is whatever the first active category is. */
  function FormPayload(name: string, description: string, link: string, category: Option<string>, at: LatLng): Payload {
    Payload(Some(name), Some(description), Some(link), Some(Point(at)), category)
  }

  function RequestFor(editing: Option<Entry>, b: Payload): Request {
    if editing.Some? then Put(editing.value.poi.id, b) else Post(b)
  }

  /**
   * A form submission the service creates comes back, projected, at the
   * clicked position with the chosen category; the form's link is not kept.
   */
  lemma CreateRoundTrip(name: string, description: string, link: string, category: string, at: LatLng, id: Id, now: Time)
    requires name != "" && description != "" && category != "" && at.lat.Num? && at.lng.Num?
    ensures var p := Created(id, FormPayload(name, description, link, Some(category), at), now);
      && Conforms(p) && Locatable(p)
      && Project(p).lat == at.lat && Project(p).lng == at.lng
      && p.category == Some(category) && p.link == None
  {
  }

  /** With no active category the form sends no category, and the service refuses it. */
  lemma NoCategoryRefused(name: string, description: string, link: string, at: LatLng)
    ensures !Filled(FormPayload(name, description, link, First([]), at).category)
  {
  }

  // ---------------------------------------------------------------------
  // The component state

  /** loadPois reaches `setPois`: the answer is a list whose records all have coordinates. */
  predicate Loadable(resp: Option<Response>) {
    resp.Some? && resp.value.body.Records? && AllLocatable(resp.value.body.pois)
  }

  /** handleDeletePoi reaches `setPois`: a 2xx answer carrying the success message. */
  predicate DeleteConfirmed(resp: Option<Response>) {
    resp.Some? && Ok(resp.value.status) && resp.value.body == Message(Deleted)
  }

  class MapState {
    var activeCategories: seq<string>
    var showForm: bool
    var pois: Table
    var newPoiCoords: Option<LatLng>
    var editingPoi: Option<Entry>

    /** The active set has no duplicates and the seven categories are always buckets. */
    ghost predicate Valid()
      reads this
    {
      Distinct(activeCategories) && forall c :: c in Categories ==> c in pois
    }

    /** The initial `useState` values. */
    constructor ()
      ensures Valid()
      ensures activeCategories == [] && !showForm && pois == SeedTable()
      ensures newPoiCoords == None && editingPoi == None
    {
      activeCategories := [];
      showForm := false;
      pois := SeedTable();
      newPoiCoords := None;
      editingPoi := None;
    }

    /** loadPois with the answer of `GET /pois` (`None`: the fetch failed). */
    method Load(resp: Option<Response>)
      requires Valid()
      modifies this
      ensures Valid()
      ensures pois == if Loadable(resp) then Group(resp.value.body.pois) else old(pois)
      ensures activeCategories == old(activeCategories) && showForm == old(showForm)
      ensures newPoiCoords == old(newPoiCoords) && editingPoi == old(editingPoi)
    {
      if Loadable(resp) {
        GroupKeys(resp.value.body.pois);
        pois := Group(resp.value.body.pois);
      }
    }

    /** handleSelectCategory */
    method SelectCategory(c: string)
      requires Valid()
      modifies this
      ensures Valid()
      ensures activeCategories == Toggled(old(activeCategories), c)
      ensures forall x :: x in activeCategories <==> (x in old(activeCategories)) != (x == c)
      ensures showForm == old(showForm) && pois == old(pois)
      ensures newPoiCoords == old(newPoiCoords) && editingPoi == old(editingPoi)
    {
      var next := activeCategories;
      if c in next {
        next := Without(next, c);
      } else {
        next := next + [c];
      }
      activeCategories := next;
    }

    /** handleMapClick, on a right-click at `at`. */
    method MapClick(at: LatLng)
      requires Valid()
      modifies this
      ensures Valid()
      ensures old(activeCategories) == [] ==> unchanged(this)
      ensures old(activeCategories) != [] ==>
        newPoiCoords == Some(at) && showForm && editingPoi == None
      ensures activeCategories == old(activeCategories) && pois == old(pois)
    {
      if |activeCategories| == 0 {
        return;
      }
      newPoiCoords := Some(at);
      showForm := true;
      editingPoi := None;
    }

    /** handleEditPoi: open the form on `e`, at its own position. */
    method EditPoi(e: Entry)
      requires Valid()
      modifies this
      ensures Valid()
      ensures editingPoi == Some(e) && showForm && newPoiCoords == Some(LatLng(e.lat, e.lng))
      ensures activeCategories == old(activeCategories) && pois == old(pois)
    {
      editingPoi := Some(e);
      showForm := true;
      newPoiCoords := Some(LatLng(e.lat, e.lng));
    }

    /** A click on the overlay: only `showForm` is reset. */
    method CloseForm()
      requires Valid()
      modifies this
      ensures Valid()
      ensures !showForm
      ensures activeCategories == old(activeCategories) && pois == old(pois)
      ensures newPoiCoords == old(newPoiCoords) && editingPoi == old(editingPoi)
    {
      showForm := false;
    }

    /**
     * handleDeletePoi: `confirmed` is the answer of `window.confirm`, `resp`
     * the answer to the DELETE request, sent only when confirmed.
     */
    method DeletePoi(id: Id, confirmed: bool, resp: Option<Response>) returns (sent: bool)
      requires Valid()
      modifies this
      ensures Valid()
      ensures sent == confirmed
      ensures pois == if confirmed && DeleteConfirmed(resp) then Purge(old(pois), id) else old(pois)
      ensures activeCategories == old(activeCategories) && showForm == old(showForm)
      ensures newPoiCoords == old(newPoiCoords) && editingPoi == old(editingPoi)
    {
      sent := confirmed;
      if !confirmed || !DeleteConfirmed(resp) {
        return;
      }
      var next := pois;
      var todo := pois.Keys;
      while todo != {}
        invariant todo <= pois.Keys && next.Keys == pois.Keys
        invariant forall k :: k in next ==> next[k] == if k in todo then pois[k] else RemoveId(pois[k], id)
        decreases todo
      {
        var k :| k in todo;
        next := next[k := RemoveId(next[k], id)];
        todo := todo - {k};
      }
      pois := next;
    }

    /**
     * handleAddPOI with the form's `name`, `description` and `link` and
     * `resp`, the answer to the request it sends (`None`: the fetch failed).
     * Where the source's state updater would throw, the state is kept as it
     * is after a failed fetch.
     */
    method Submit(name: string, description: string, link: string, resp: Option<Response>)
      returns (sent: Option<Request>)
      requires Valid()
      modifies this
      ensures Valid()
      ensures activeCategories == old(activeCategories)
      ensures sent ==
        if name == "" || description == "" || old(newPoiCoords).None? then None
        else Some(RequestFor(old(editingPoi),
                             FormPayload(name, description, link, First(old(activeCategories)), old(newPoiCoords).value)))
      ensures
        var applied :=
          if sent.Some? && resp.Some?
          then Reconcile(old(pois), KeyOf(First(old(activeCategories))), old(editingPoi), resp.value.body)
          else None;
        if applied.Some? then
          pois == applied.value && !showForm && editingPoi == None && newPoiCoords == None
        else
          pois == old(pois) && showForm == old(showForm)
          && editingPoi == old(editingPoi) && newPoiCoords == old(newPoiCoords)
    {
      var category := First(activeCategories);
      if name == "" || description == "" {
        return None;
      }
      if newPoiCoords.None? {
        return None;
      }
      var payload := FormPayload(name, description, link, category, newPoiCoords.value);
      sent := Some(RequestFor(editingPoi, payload));
      if resp.None? {
        return;
      }
      var updated := Reconcile(pois, KeyOf(category), editingPoi, resp.value.body);
      if updated.None? {
        return;
      }
      pois := updated.value;
      showForm := false;
      editingPoi := None;
      newPoiCoords := None;
    }
  }

  // ---------------------------------------------------------------------
  // Two behaviours of the source as written

  /**
   * POI_CATEGORIES after a load.  `{ ...POI_CATEGORIES }` copies only the
   * outer object, so the reduce pushes into the constant's own arrays: each
   * known bucket of the constant becomes the loaded bucket.
   */
  function SeedAfterLoad(seed: Table, data: seq<Poi>): (s: Table)
    requires AllLocatable(data)
    ensures s.Keys == seed.Keys
  {
    var t := GroupInto(Known, seed, data);
    map c | c in seed :: t[c]
  }

  /** A second load (a remount of the component) shows every known-category POI twice. */
  lemma SecondLoadDoubles(data: seq<Poi>)
    requires AllLocatable(data)
    ensures forall c :: c in Categories ==>
      && c in GroupInto(Known, SeedAfterLoad(SeedTable(), data), data)
      && GroupInto(Known, SeedAfterLoad(SeedTable(), data), data)[c] == Group(data)[c] + Group(data)[c]
  {
    var seed := SeedAfterLoad(SeedTable(), data);
    forall c | c in Categories
      ensures c in GroupInto(Known, seed, data)
      ensures GroupInto(Known, seed, data)[c] == Group(data)[c] + Group(data)[c]
    {
      GroupIntoAt(Known, SeedTable(), data, c);
      GroupIntoAt(Known, seed, data, c);
      assert Group(data)[c] == Select(Known, data, c);
    }
  }

  /** With one POI of category Cultura, the second load lists it twice where one load lists it once. */
  lemma SecondLoadExample(p: Poi)
    requires Locatable(p) && p.category == Some("Cultura")
    ensures Group([p])["Cultura"] == [Project(p)]
    ensures GroupInto(Known, SeedAfterLoad(SeedTable(), [p]), [p])["Cultura"] == [Project(p), Project(p)]
  {
    SecondLoadDoubles([p]);
    GroupBuckets([p]);
    assert Select(Known, [p], "Cultura") == Mine(Known, p, "Cultura") + Select(Known, [p][1..], "Cultura");
  }

  /** An error answer (a 404 for a POI deleted meanwhile, a 400 from the store) makes the updater throw. */
  lemma ErrorAnswerThrows(t: Table, key: string, editing: Option<Entry>, msg: string)
    ensures Reconcile(t, key, editing, Error(msg)) == None
    ensures Reconcile(t, key, editing, StoreError) == None
  {
  }
}
