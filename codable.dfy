/**
 * Custom `Codable` conformances over keyed containers. A keyed container is
 * modelled as a map from key strings to encoded values; `D` stands for
 * Swift's `Double`, whose values are opaque here.
 *
 * Encoding writes into a fresh container step by step; decoding reads the
 * container and either returns a value or throws. The reading primitives
 * follow Foundation's keyed decoding container: a missing key throws
 * `keyNotFound`, a null value `valueNotFound`, a value of another type
 * `typeMismatch`, while `decodeIfPresent` reads a missing key or a null
 * value as `nil`.
 */
module Codable {
  import opened Wrappers

  /** An encoded value. */
  datatype Encoded<D> =
    | Null
    | Text(text: string)
    | Integer(integer: int)
    | Number(number: D)
    | Keyed(entries: map<string, Encoded<D>>)

  datatype DecodingError = KeyNotFound(key: string) | ValueNotFound(key: string) | TypeMismatch(key: string)

  /** `KeyedEncodingContainer`: what a custom `encode(to:)` writes into. */
  class KeyedEncodingContainer<D> {
    var storage: map<string, Encoded<D>>

    /** `encoder.container(keyedBy:)` hands out an empty container. */
    constructor ()
      ensures storage == map[]
    {
      storage := map[];
    }

    /** `container.encode(value, forKey: key)`. */
    method Encode(value: Encoded<D>, key: string)
      modifies this
      ensures storage == old(storage)[key := value]
    {
      storage := storage[key := value];
    }
  }

  // Reading primitives of the keyed decoding container.

  function DecodeString<D>(m: map<string, Encoded<D>>, key: string): (r: Result<string, DecodingError>)
    ensures r.Success? <==> key in m && m[key].Text?
    ensures r.Success? ==> r.value == m[key].text
    ensures key !in m ==> r == Failure(KeyNotFound(key))
    ensures key in m && m[key].Null? ==> r == Failure(ValueNotFound(key))
    ensures key in m && !m[key].Text? && !m[key].Null? ==> r == Failure(TypeMismatch(key))
  {
    if key !in m then Failure(KeyNotFound(key))
    else match m[key]
      case Text(s) => Success(s)
      case Null => Failure(ValueNotFound(key))
      case _ => Failure(TypeMismatch(key))
  }

  function DecodeIfPresentString<D>(m: map<string, Encoded<D>>, key: string): (r: Result<Option<string>, DecodingError>)
    ensures r == Success(None) <==> key !in m || m[key].Null?
    ensures r.Success? && r.value.Some? <==> key in m && m[key].Text?
    ensures key in m && m[key].Text? ==> r == Success(Some(m[key].text))
    ensures key in m && !m[key].Text? && !m[key].Null? ==> r == Failure(TypeMismatch(key))
  {
    if key !in m then Success(None)
    else match m[key]
      case Text(s) => Success(Some(s))
      case Null => Success(None)
      case _ => Failure(TypeMismatch(key))
  }

  function DecodeInt<D>(m: map<string, Encoded<D>>, key: string): (r: Result<int, DecodingError>)
    ensures r.Success? <==> key in m && m[key].Integer?
    ensures r.Success? ==> r.value == m[key].integer
    ensures key !in m ==> r == Failure(KeyNotFound(key))
    ensures key in m && m[key].Null? ==> r == Failure(ValueNotFound(key))
    ensures key in m && !m[key].Integer? && !m[key].Null? ==> r == Failure(TypeMismatch(key))
  {
    if key !in m then Failure(KeyNotFound(key))
    else match m[key]
      case Integer(n) => Success(n)
      case Null => Failure(ValueNotFound(key))
      case _ => Failure(TypeMismatch(key))
  }

  function DecodeDouble<D>(m: map<string, Encoded<D>>, key: string): (r: Result<D, DecodingError>)
    ensures r.Success? <==> key in m && m[key].Number?
    ensures r.Success? ==> r.value == m[key].number
    ensures key !in m ==> r == Failure(KeyNotFound(key))
    ensures key in m && m[key].Null? ==> r == Failure(ValueNotFound(key))
    ensures key in m && !m[key].Number? && !m[key].Null? ==> r == Failure(TypeMismatch(key))
  {
    if key !in m then Failure(KeyNotFound(key))
    else match m[key]
      case Number(x) => Success(x)
      case Null => Failure(ValueNotFound(key))
      case _ => Failure(TypeMismatch(key))
  }

  // Default encoding of `Placemark`, with a custom `encode(to:)`.

  /** `Coordinate`, with synthesized `Codable`: its keys are its property names. */
  datatype Coordinate<D> = Coordinate(latidude: D, longitude: D)

  datatype Placemark<D> = Placemark(name: string, coordinate: Coordinate<D>)

  /** Keys of `Placemark.CodingKeys` (no raw values, so the case names). */
  const PlacemarkNameKey := "name"
  const PlacemarkCoordinateKey := "coordinate"

  /** The nested keyed container that `Coordinate`'s synthesized `encode(to:)` produces. */
  function EncodedCoordinate<D>(c: Coordinate<D>): (e: Encoded<D>)
    ensures e.Keyed? && e.entries.Keys == {"latidude", "longitude"}
    ensures e.entries["latidude"] == Number(c.latidude) && e.entries["longitude"] == Number(c.longitude)
  {
    Keyed(map["latidude" := Number(c.latidude), "longitude" := Number(c.longitude)])
  }

  /** `Placemark.encode(to:)`: the name, then the coordinate as a nested container. */
  method EncodePlacemark<D>(p: Placemark<D>) returns (container: KeyedEncodingContainer<D>)
    ensures fresh(container)
    ensures container.storage.Keys == {PlacemarkNameKey, PlacemarkCoordinateKey}
    ensures container.storage == map[PlacemarkNameKey := Text(p.name), PlacemarkCoordinateKey := EncodedCoordinate(p.coordinate)]
  {
    container := new KeyedEncodingContainer();
    container.Encode(Text(p.name), PlacemarkNameKey);
    container.Encode(EncodedCoordinate(p.coordinate), PlacemarkCoordinateKey);
  }

  /** `Coordinate`'s synthesized `init(from:)`, from a nested container. */
  function DecodeCoordinate<D>(e: Encoded<D>, key: string): (r: Result<Coordinate<D>, DecodingError>)
    ensures r.Success? <==>
              e.Keyed? && "latidude" in e.entries && e.entries["latidude"].Number? &&
              "longitude" in e.entries && e.entries["longitude"].Number?
    ensures r.Success? ==> r.value == Coordinate(e.entries["latidude"].number, e.entries["longitude"].number)
    ensures e.Null? ==> r == Failure(ValueNotFound(key))
    ensures !e.Keyed? && !e.Null? ==> r == Failure(TypeMismatch(key))
  {
    match e
    case Keyed(m) =>
      var lat :- DecodeDouble(m, "latidude");
      var lon :- DecodeDouble(m, "longitude");
      Success(Coordinate(lat, lon))
    case Null => Failure(ValueNotFound(key))
    case _ => Failure(TypeMismatch(key))
  }

  /** `Placemark`'s synthesized `init(from:)`. */
  function DecodePlacemark<D>(m: map<string, Encoded<D>>): (r: Result<Placemark<D>, DecodingError>)
    ensures r.Success? <==>
              PlacemarkNameKey in m && m[PlacemarkNameKey].Text? &&
              PlacemarkCoordinateKey in m && DecodeCoordinate(m[PlacemarkCoordinateKey], PlacemarkCoordinateKey).Success?
    ensures r.Success? ==>
              r.value.name == m[PlacemarkNameKey].text &&
              DecodeCoordinate(m[PlacemarkCoordinateKey], PlacemarkCoordinateKey) == Success(r.value.coordinate)
    ensures PlacemarkNameKey !in m ==> r == Failure(KeyNotFound(PlacemarkNameKey))
    ensures PlacemarkNameKey in m && m[PlacemarkNameKey].Text? && PlacemarkCoordinateKey !in m ==>
              r == Failure(KeyNotFound(PlacemarkCoordinateKey))
  {
    var name :- DecodeString(m, PlacemarkNameKey);
    if PlacemarkCoordinateKey !in m then Failure(KeyNotFound(PlacemarkCoordinateKey))
    else
      var coordinate :- DecodeCoordinate(m[PlacemarkCoordinateKey], PlacemarkCoordinateKey);
      Success(Placemark(name, coordinate))
  }

  /** What `Placemark.encode(to:)` writes, the synthesized decoder reads back. */
  lemma PlacemarkRoundTrip<D>(p: Placemark<D>)
    ensures DecodePlacemark(map[PlacemarkNameKey := Text(p.name), PlacemarkCoordinateKey := EncodedCoordinate(p.coordinate)]) == Success(p)
  {
  }

  // `PlaceMarkCoreLocation`: encoding a type that is not `Codable` by its parts.

  /** `CLLocationCoordinate2D`. */
  datatype LocationCoordinate<D> = LocationCoordinate(latitude: D, longitude: D)

  datatype PlaceMarkCoreLocation<D> = PlaceMarkCoreLocation(name: string, coordinate: LocationCoordinate<D>)

  /** `PlaceMarkCoreLocation.CodingKeys`. */
  datatype CoreLocationKey = Name | Latitude | Longitude

  /** The raw value of each coding key. */
  function StringValue(k: CoreLocationKey): (s: string)
    ensures s in {"name", "lat", "lon"}
    ensures s == "name" <==> k == Name
    ensures s == "lat" <==> k == Latitude
  {
    match k
    case Name => "name"
    case Latitude => "lat"
    case Longitude => "lon"
  }

  /** The three coding keys have three different key strings. */
  lemma StringValueInjective(j: CoreLocationKey, k: CoreLocationKey)
    ensures StringValue(j) == StringValue(k) ==> j == k
  {
  }

  /** The entries `PlaceMarkCoreLocation.encode(to:)` writes. */
  function CoreLocationEntries<D>(p: PlaceMarkCoreLocation<D>): map<string, Encoded<D>>
  {
    map[StringValue(Name) := Text(p.name),
        StringValue(Latitude) := Number(p.coordinate.latitude),
        StringValue(Longitude) := Number(p.coordinate.longitude)]
  }

  /** `PlaceMarkCoreLocation.encode(to:)`: the name and both coordinates, flat. */
  method EncodePlaceMarkCoreLocation<D>(p: PlaceMarkCoreLocation<D>) returns (container: KeyedEncodingContainer<D>)
    ensures fresh(container)
    ensures container.storage.Keys == {"name", "lat", "lon"}
    ensures container.storage == CoreLocationEntries(p)
  {
    container := new KeyedEncodingContainer();
    container.Encode(Text(p.name), StringValue(Name));
    container.Encode(Number(p.coordinate.latitude), StringValue(Latitude));
    container.Encode(Number(p.coordinate.longitude), StringValue(Longitude));
  }

  /** `PlaceMarkCoreLocation.init(from:)`: the name, then latitude and longitude. */
  function DecodePlaceMarkCoreLocation<D>(m: map<string, Encoded<D>>): (r: Result<PlaceMarkCoreLocation<D>, DecodingError>)
    ensures r.Success? <==>
              "name" in m && m["name"].Text? && "lat" in m && m["lat"].Number? && "lon" in m && m["lon"].Number?
    ensures r.Success? ==>
              r.value == PlaceMarkCoreLocation(m["name"].text, LocationCoordinate(m["lat"].number, m["lon"].number))
    ensures "name" !in m ==> r == Failure(KeyNotFound("name"))
    ensures "name" in m && m["name"].Text? && "lat" !in m ==> r == Failure(KeyNotFound("lat"))
  {
    var name :- DecodeString(m, StringValue(Name));
    var latitude :- DecodeDouble(m, StringValue(Latitude));
    var longitude :- DecodeDouble(m, StringValue(Longitude));
    Success(PlaceMarkCoreLocation(name, LocationCoordinate(latitude, longitude)))
  }

  /** Decoding reads nothing but the three keys: containers that agree on them decode alike. */
  lemma CoreLocationDecodeReadsOwnKeys<D>(m1: map<string, Encoded<D>>, m2: map<string, Encoded<D>>)
    requires forall k :: k in {"name", "lat", "lon"} ==> (k in m1 <==> k in m2) && (k in m1 ==> m1[k] == m2[k])
    ensures DecodePlaceMarkCoreLocation(m1) == DecodePlaceMarkCoreLocation(m2)
  {
    assert StringValue(Name) == "name" && StringValue(Latitude) == "lat" && StringValue(Longitude) == "lon";
  }

  /** What `encode(to:)` writes, `init(from:)` reads back, even among other keys. */
  lemma CoreLocationRoundTrip<D>(p: PlaceMarkCoreLocation<D>, extra: map<string, Encoded<D>>)
    ensures DecodePlaceMarkCoreLocation(CoreLocationEntries(p)) == Success(p)
    ensures DecodePlaceMarkCoreLocation(extra + CoreLocationEntries(p)) == Success(p)
  {
  }

  // `CodableEnum`: an enum with associated values.

  datatype CodableEnum = Left(leftValue: string) | Right(rightValue: int)

  /** Keys of `CodableEnum.CodingKeys`. */
  const LeftKey := "left"
  const RightKey := "right"

  /** The one entry `CodableEnum.encode(to:)` writes: the case name as key, its value. */
  function EnumEntries<D>(e: CodableEnum): map<string, Encoded<D>>
  {
    match e
    case Left(s) => map[LeftKey := Text(s)]
    case Right(n) => map[RightKey := Integer(n)]
  }

  /** `CodableEnum.encode(to:)`. */
  method EncodeCodableEnum<D>(e: CodableEnum) returns (container: KeyedEncodingContainer<D>)
    ensures fresh(container)
    ensures |container.storage| == 1
    ensures container.storage == EnumEntries(e)
  {
    container := new KeyedEncodingContainer();
    match e
    case Left(value) =>
      container.Encode(Text(value), LeftKey);
    case Right(value) =>
      container.Encode(Integer(value), RightKey);
  }

  /**
   * `CodableEnum.init(from:)`: `left` if present and not null, otherwise
   * `right`, which must then be present.
   */
  function DecodeCodableEnum<D>(m: map<string, Encoded<D>>): (r: Result<CodableEnum, DecodingError>)
    ensures LeftKey in m && m[LeftKey].Text? ==> r == Success(Left(m[LeftKey].text))
    ensures r.Success? <==> (LeftKey in m && m[LeftKey].Text?) || ((LeftKey !in m || m[LeftKey].Null?) && RightKey in m && m[RightKey].Integer?)
    ensures (LeftKey !in m || m[LeftKey].Null?) && RightKey in m && m[RightKey].Integer? ==> r == Success(Right(m[RightKey].integer))
    ensures LeftKey in m && !m[LeftKey].Text? && !m[LeftKey].Null? ==> r == Failure(TypeMismatch(LeftKey))
    ensures (LeftKey !in m || m[LeftKey].Null?) && RightKey !in m ==> r == Failure(KeyNotFound(RightKey))
    ensures (LeftKey !in m || m[LeftKey].Null?) && RightKey in m && m[RightKey].Null? ==> r == Failure(ValueNotFound(RightKey))
    ensures (LeftKey !in m || m[LeftKey].Null?) && RightKey in m && !m[RightKey].Integer? && !m[RightKey].Null? ==> r == Failure(TypeMismatch(RightKey))
    ensures r.Success? && r.value.Right? ==> LeftKey !in m || m[LeftKey].Null?
  {
    var left :- DecodeIfPresentString(m, LeftKey);
    if left.Some? then Success(Left(left.value))
    else
      var right :- DecodeInt(m, RightKey);
      Success(Right(right))
  }

  /** Decoding what was encoded gives back the same case with the same value. */
  lemma EnumRoundTrip<D>(e: CodableEnum)
    ensures DecodeCodableEnum<D>(EnumEntries(e)) == Success(e)
  {
  }

  /** A `left` entry wins over a `right` one. */
  lemma EnumLeftWins<D>(s: string, right: Encoded<D>)
    ensures DecodeCodableEnum(map[LeftKey := Text(s), RightKey := right]) == Success(Left(s))
  {
  }
}
