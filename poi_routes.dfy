/**
 * The POI REST service (backend/routes/poi.js): POST, GET, PUT and DELETE
 * handlers over the POI collection, here a store object holding a map from
 * id to record.  Database failures (connectivity, a malformed id) are the
 * `fault` parameter; the current time is the `now` parameter.
 */
module PoiRoutes {
  import opened Optional
  import opened PoiSchema

  /** The JSON body of a POST or PUT request; any field may be missing. */
  datatype Payload = Payload(
    name: Option<string>,
    description: Option<string>,
    link: Option<string>,
    location: Option<Location>,
    category: Option<string>)

  /** What a handler answers with.  `StoreError` stands for `{ error: err.message }`. */
  datatype Body =
    | Record(poi: Poi)
    | Records(pois: seq<Poi>)
    | Message(message: string)
    | Error(error: string)
    | StoreError

  datatype Response = Response(status: nat, body: Body)

  const CategoryRequired: string := "Category is required"
  const NotFound: string := "POI non trovato"
  const Deleted: string := "POI cancellato con successo"

  /** `response.ok` on the client side. */
  predicate Ok(status: nat) {
    200 <= status < 300
  }

  /**
   * The location `new POI(...)` holds: an array path without a value gets
   * Mongoose's implicit `[]` default.  (Without a location at all the record
   * fails validation anyway, since `location.type` is required.)
   */
  function Defaulted(loc: Option<Location>): (r: Option<Location>)
    ensures r.Some? <==> loc.Some?
    ensures loc.Some? ==> r.value.kind == loc.value.kind && r.value.coordinates.Some?
    ensures loc.Some? && loc.value.coordinates.Some? ==> r == loc
    ensures loc.Some? && loc.value.coordinates.None? ==> r.value.coordinates == Some([])
  {
    if loc.Some? && loc.value.coordinates.None? then Some(loc.value.(coordinates := Some([]))) else loc
  }

  /**
   * The document `new POI({ name, description, location, category })` builds:
   * `link` is not among the copied fields; both timestamps are the save time.
   */
  function Created(id: Id, b: Payload, now: Time): Poi {
    Poi(id, b.name, b.description, None, Defaulted(b.location), b.category, now, now)
  }

  /** A 'Point' location sent without coordinates is stored with the empty list and accepted. */
  lemma MissingCoordinatesDefault(id: Id, b: Payload, now: Time)
    requires Filled(b.name) && Filled(b.description) && Filled(b.category)
    requires b.location == Some(Location(Some(PointType), None))
    ensures Created(id, b, now).location == Some(Location(Some(PointType), Some([])))
    ensures Conforms(Created(id, b, now))
  {
  }

  /** A field of the update document: an undefined value is dropped from the update. */
  function Override<T>(current: Option<T>, given: Option<T>): Option<T> {
    if given.Some? then given else current
  }

  /**
   * The record after `findByIdAndUpdate(id, { name, description, link, category })`:
   * only those four paths are set, and the `timestamps` option refreshes `updatedAt`.
   */
  function Patched(r: Poi, b: Payload, now: Time): Poi {
    r.(name := Override(r.name, b.name),
       description := Override(r.description, b.description),
       link := Override(r.link, b.link),
       category := Override(r.category, b.category),
       updatedAt := now)
  }

  /** `runValidators: true`: the validators of the paths the update sets. */
  predicate UpdateValidates(b: Payload) {
    && (b.name.Some? ==> Filled(b.name))
    && (b.description.Some? ==> Filled(b.description))
    && (b.category.Some? ==> Filled(b.category))
  }

  /** On a conforming record, the update validators accept exactly the updates that keep it conforming. */
  lemma PatchedConforms(r: Poi, b: Payload, now: Time)
    requires Conforms(r) && Filled(b.category)
    ensures Conforms(Patched(r, b, now)) <==> UpdateValidates(b)
  {
  }

  /** A list answer holds every stored record exactly once, in some order. */
  ghost predicate Lists(rs: seq<Poi>, m: map<Id, Poi>) {
    && |rs| == |m|
    && (forall i :: 0 <= i < |rs| ==> rs[i].id in m && m[rs[i].id] == rs[i])
    && (forall i, j :: 0 <= i < j < |rs| ==> rs[i].id != rs[j].id)
    && (forall id :: id in m ==> m[id] in rs)
  }

  class Store {
    /** The POI collection, by `_id`. */
    var records: map<Id, Poi>
    /** The next id to hand out; every stored id is below it, so ids are fresh. */
    var nextId: Id

    /** Every stored record is filed under its own id and conforms to the schema. */
    ghost predicate Valid()
      reads this
    {
      forall id :: id in records ==> id < nextId && records[id].id == id && Conforms(records[id])
    }

    constructor ()
      ensures Valid() && records == map[] && nextId == 0
    {
      records := map[];
      nextId := 0;
    }

    /** POST / */
    method Create(b: Payload, now: Time, fault: bool) returns (resp: Response)
      requires Valid()
      modifies this
      ensures Valid()
      ensures !Filled(b.category) ==>
        resp == Response(400, Error(CategoryRequired)) && unchanged(this)
      ensures Filled(b.category) && (fault || !Conforms(Created(old(nextId), b, now))) ==>
        resp == Response(400, StoreError) && unchanged(this)
      ensures Filled(b.category) && !fault && Conforms(Created(old(nextId), b, now)) ==>
        && old(nextId) !in old(records)
        && records == old(records)[old(nextId) := Created(old(nextId), b, now)]
        && nextId == old(nextId) + 1
        && resp == Response(201, Record(records[old(nextId)]))
      ensures resp.status == 201 ==>
        && resp.body.Record?
        && resp.body.poi.name == b.name && resp.body.poi.description == b.description
        && resp.body.poi.location == Defaulted(b.location) && resp.body.poi.category == b.category
        && resp.body.poi.link == None
        && resp.body.poi.createdAt == now && resp.body.poi.updatedAt == now
    {
      if !Filled(b.category) {
        return Response(400, Error(CategoryRequired));
      }
      var poi := Created(nextId, b, now);
      if fault || !Conforms(poi) {
        return Response(400, StoreError);
      }
      records := records[nextId := poi];
      nextId := nextId + 1;
      resp := Response(201, Record(poi));
    }

    /** GET / */
    method List(fault: bool) returns (resp: Response)
      requires Valid()
      ensures fault ==> resp == Response(400, StoreError)
      ensures !fault ==> resp.status == 200 && resp.body.Records? && Lists(resp.body.pois, records)
    {
      if fault {
        return Response(400, StoreError);
      }
      var out: seq<Poi> := [];
      var rest := records.Keys;
      while rest != {}
        invariant rest <= records.Keys
        invariant |out| + |rest| == |records|
        invariant forall i :: 0 <= i < |out| ==> out[i].id in records && records[out[i].id] == out[i] && out[i].id !in rest
        invariant forall i, j :: 0 <= i < j < |out| ==> out[i].id != out[j].id
        invariant forall id :: id in records && id !in rest ==> records[id] in out
        decreases rest
      {
        var id :| id in rest;
        out := out + [records[id]];
        rest := rest - {id};
      }
      resp := Response(200, Records(out));
    }

    /** PUT /:id */
    method Update(id: Id, b: Payload, now: Time, fault: bool) returns (resp: Response)
      requires Valid()
      modifies this
      ensures Valid()
      ensures !Filled(b.category) ==>
        resp == Response(400, Error(CategoryRequired)) && unchanged(this)
      ensures Filled(b.category) && (!UpdateValidates(b) || fault) ==>
        resp == Response(400, StoreError) && unchanged(this)
      ensures Filled(b.category) && UpdateValidates(b) && !fault && id !in old(records) ==>
        resp == Response(404, Error(NotFound)) && unchanged(this)
      ensures Filled(b.category) && UpdateValidates(b) && !fault && id in old(records) ==>
        && records == old(records)[id := Patched(old(records)[id], b, now)]
        && nextId == old(nextId)
        && resp == Response(200, Record(records[id]))
      ensures resp.status == 200 ==>
        && id in old(records) && id in records && resp.body == Record(records[id])
        && records[id].location == old(records)[id].location
        && records[id].id == id && records[id].createdAt == old(records)[id].createdAt
        && records[id].updatedAt == now
        && records[id].category == b.category
        && (b.name.Some? ==> records[id].name == b.name)
        && (b.description.Some? ==> records[id].description == b.description)
        && (b.link.Some? ==> records[id].link == b.link)
        && (forall other :: other in old(records) && other != id ==> other in records && records[other] == old(records)[other])
    {
      if !Filled(b.category) {
        return Response(400, Error(CategoryRequired));
      }
      if !UpdateValidates(b) || fault {
        return Response(400, StoreError);
      }
      if id !in records {
        return Response(404, Error(NotFound));
      }
      var poi := Patched(records[id], b, now);
      PatchedConforms(records[id], b, now);
      records := records[id := poi];
      resp := Response(200, Record(poi));
    }

    /** DELETE /:id.  The answer carries only the message, not the deleted record. */
    method Delete(id: Id, fault: bool) returns (resp: Response)
      requires Valid()
      modifies this
      ensures Valid()
      ensures fault ==> resp == Response(400, StoreError) && unchanged(this)
      ensures !fault && id !in old(records) ==> resp == Response(404, Error(NotFound)) && unchanged(this)
      ensures !fault && id in old(records) ==>
        && records == old(records) - {id}
        && nextId == old(nextId)
        && resp == Response(200, Message(Deleted))
    {
      if fault {
        return Response(400, StoreError);
      }
      if id !in records {
        return Response(404, Error(NotFound));
      }
      records := records - {id};
      resp := Response(200, Message(Deleted));
    }
  }

  /**
   * A create / list / delete / list exchange on a fresh store: the created
   * record keeps category and coordinates `[lng, lat]`, the listing shows
   * it, the delete answers with the success message, and the second listing
   * no longer has its id.
   */
  method CreateListDelete(name: string, description: string, category: string, lng: int, lat: int, now: Time)
    returns (created: Response, listed: Response, deleted: Response, relisted: Response)
    requires name != "" && description != "" && category != ""
    ensures created.status == 201 && created.body.Record?
    ensures created.body.poi.category == Some(category)
    ensures created.body.poi.location == Some(Location(Some(PointType), Some([Num(lng), Num(lat)])))
    ensures listed.status == 200 && listed.body.Records? && created.body.poi in listed.body.pois
    ensures deleted == Response(200, Message(Deleted))
    ensures relisted.status == 200 && relisted.body.Records?
    ensures forall p :: p in relisted.body.pois ==> p.id != created.body.poi.id
  {
    var store := new Store();
    var b := Payload(Some(name), Some(description), None,
                     Some(Location(Some(PointType), Some([Num(lng), Num(lat)]))), Some(category));
    created := store.Create(b, now, false);
    listed := store.List(false);
    deleted := store.Delete(created.body.poi.id, false);
    relisted := store.List(false);
  }
}
