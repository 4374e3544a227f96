/**
 * The POI document schema (backend/models/Poi.js): which records the
 * store accepts.  Every field of a document may be missing, so that the
 * schema's `required` flags are real constraints.
 */
module PoiSchema {
  import opened Optional

  /**
   * One slot of a coordinate list.  Coordinates are only ever copied, never
   * computed, so a number is an opaque integer; `Absent` is what JavaScript
   * reads past the end of a short list.
   */
  datatype Coord = Absent | Num(value: int)

  /** Store-assigned document identifier (opaque). */
  type Id = nat

  /** A timestamp as the store writes it. */
  type Time = int

  /** The only value the schema's enum allows for `location.type`. */
  const PointType: string := "Point"

  datatype Location = Location(kind: Option<string>, coordinates: Option<seq<Coord>>)

  /** A stored POI, with the timestamps the `timestamps` option adds. */
  datatype Poi = Poi(
    id: Id,
    name: Option<string>,
    description: Option<string>,
    link: Option<string>,
    location: Option<Location>,
    category: Option<string>,
    createdAt: Time,
    updatedAt: Time)

  /** Mongoose's `required` on a String path: present and not the empty string. */
  predicate Filled(s: Option<string>) {
    s.Some? && s.value != ""
  }

  /** A `[Number]` list: every slot holds a number; its length is free. */
  predicate NumberList(cs: seq<Coord>) {
    forall i :: 0 <= i < |cs| ==> cs[i].Num?
  }

  /** `location.type` is required and restricted to 'Point'; `location.coordinates` is required. */
  predicate LocationConforms(loc: Option<Location>) {
    && loc.Some?
    && loc.value.kind == Some(PointType)
    && loc.value.coordinates.Some?
    && NumberList(loc.value.coordinates.value)
  }

  /** The documents POISchema accepts.  `link` and the timestamps carry no constraint. */
  predicate Conforms(p: Poi) {
    && Filled(p.name)
    && Filled(p.description)
    && LocationConforms(p.location)
    && Filled(p.category)
  }

  /** A conforming record has a non-empty name, description and category and a 'Point' location. */
  lemma ConformingFields(p: Poi)
    requires Conforms(p)
    ensures p.name.Some? && |p.name.value| > 0
    ensures p.description.Some? && |p.description.value| > 0
    ensures p.category.Some? && |p.category.value| > 0
    ensures p.location.Some? && p.location.value.kind == Some("Point")
    ensures p.location.value.coordinates.Some?
  {
  }

  /** A missing, empty or absent name, description or category is refused. */
  lemma MissingFieldRefused(p: Poi)
    requires !Filled(p.name) || !Filled(p.description) || !Filled(p.category)
    ensures !Conforms(p)
  {
  }

  /** `link` is optional: whatever it holds, or its absence, never changes acceptance. */
  lemma LinkOptional(p: Poi, l: Option<string>)
    ensures Conforms(p.(link := l)) <==> Conforms(p)
  {
  }

  /** Any list of numbers is accepted as coordinates, whatever its length (the empty list included). */
  lemma CoordinatesAnyLength(p: Poi, cs: seq<Coord>)
    requires Conforms(p) && NumberList(cs)
    ensures Conforms(p.(location := Some(Location(Some(PointType), Some(cs)))))
    ensures Conforms(p.(location := Some(Location(Some(PointType), Some([])))))
  {
  }

  /** A location whose type is not 'Point' is refused. */
  lemma OnlyPoints(p: Poi, kind: Option<string>, cs: Option<seq<Coord>>)
    requires kind != Some(PointType)
    ensures !Conforms(p.(location := Some(Location(kind, cs))))
  {
  }

  /** No enumeration of categories is enforced: any non-empty category is accepted. */
  lemma AnyCategory(p: Poi, c: string)
    requires Conforms(p) && c != ""
    ensures Conforms(p.(category := Some(c)))
  {
  }
}
