/** The `Property` collection: a listing, its enumerations and the schema's validators. */
module PropertyModel {
  import opened Common
  import opened Text
  import opened Collections

  datatype PropertyType = Land | Apartment | Villa | Commercial

  function PropertyTypeName(t: PropertyType): string
  {
    match t
    case Land => "land"
    case Apartment => "apartment"
    case Villa => "villa"
    case Commercial => "commercial"
  }

  function ParsePropertyType(s: string): (r: Option<PropertyType>)
    ensures r.Some? ==> PropertyTypeName(r.value) == s
    ensures forall t :: PropertyTypeName(t) == s ==> r == Some(t)
  {
    if s == "land" then Some(Land) else if s == "apartment" then Some(Apartment)
    else if s == "villa" then Some(Villa) else if s == "commercial" then Some(Commercial) else None
  }

  datatype AreaUnit = Sqft | Sqyd | Acres | Cents | Guntas

  function AreaUnitName(u: AreaUnit): string
  {
    match u
    case Sqft => "sqft"
    case Sqyd => "sqyd"
    case Acres => "acres"
    case Cents => "cents"
    case Guntas => "guntas"
  }

  function ParseAreaUnit(s: string): (r: Option<AreaUnit>)
    ensures r.Some? ==> AreaUnitName(r.value) == s
    ensures forall u :: AreaUnitName(u) == s ==> r == Some(u)
  {
    if s == "sqft" then Some(Sqft) else if s == "sqyd" then Some(Sqyd) else if s == "acres" then Some(Acres)
    else if s == "cents" then Some(Cents) else if s == "guntas" then Some(Guntas) else None
  }

  const DEFAULT_AREA_UNIT: string := "sqft"

  datatype Facing = North | South | East | West | NorthEast | NorthWest | SouthEast | SouthWest

  function FacingName(f: Facing): string
  {
    match f
    case North => "north"
    case South => "south"
    case East => "east"
    case West => "west"
    case NorthEast => "north-east"
    case NorthWest => "north-west"
    case SouthEast => "south-east"
    case SouthWest => "south-west"
  }

  function ParseFacing(s: string): (r: Option<Facing>)
    ensures r.Some? ==> FacingName(r.value) == s
    ensures forall f :: FacingName(f) == s ==> r == Some(f)
  {
    if s == "north" then Some(North) else if s == "south" then Some(South)
    else if s == "east" then Some(East) else if s == "west" then Some(West)
    else if s == "north-east" then Some(NorthEast) else if s == "north-west" then Some(NorthWest)
    else if s == "south-east" then Some(SouthEast) else if s == "south-west" then Some(SouthWest)
    else None
  }

  datatype ListingStatus = Active | Sold | Inactive

  function ListingStatusName(s: ListingStatus): string
  {
    match s
    case Active => "active"
    case Sold => "sold"
    case Inactive => "inactive"
  }

  function ParseListingStatus(s: string): (r: Option<ListingStatus>)
    ensures r.Some? ==> ListingStatusName(r.value) == s
    ensures forall t :: ListingStatusName(t) == s ==> r == Some(t)
  {
    if s == "active" then Some(Active) else if s == "sold" then Some(Sold)
    else if s == "inactive" then Some(Inactive) else None
  }

  const DEFAULT_STATUS: string := "active"

  datatype DistanceUnit = Meters | Feet | Km

  function DistanceUnitName(u: DistanceUnit): string
  {
    match u
    case Meters => "meters"
    case Feet => "feet"
    case Km => "km"
  }

  function ParseDistanceUnit(s: string): (r: Option<DistanceUnit>)
    ensures r.Some? ==> DistanceUnitName(r.value) == s
    ensures forall u :: DistanceUnitName(u) == s ==> r == Some(u)
  {
    if s == "meters" then Some(Meters) else if s == "feet" then Some(Feet) else if s == "km" then Some(Km) else None
  }

  datatype RoadType = NationalHighway | StateHighway | DistrictRoad | VillageRoad | PrivateRoad

  function RoadTypeName(t: RoadType): string
  {
    match t
    case NationalHighway => "national_highway"
    case StateHighway => "state_highway"
    case DistrictRoad => "district_road"
    case VillageRoad => "village_road"
    case PrivateRoad => "private_road"
  }

  function ParseRoadType(s: string): (r: Option<RoadType>)
    ensures r.Some? ==> RoadTypeName(r.value) == s
    ensures forall t :: RoadTypeName(t) == s ==> r == Some(t)
  {
    if s == "national_highway" then Some(NationalHighway) else if s == "state_highway" then Some(StateHighway)
    else if s == "district_road" then Some(DistrictRoad) else if s == "village_road" then Some(VillageRoad)
    else if s == "private_road" then Some(PrivateRoad) else None
  }

  datatype Image = Image(publicId: string, url: string)
  datatype Area = Area(value: int, unit: Option<string>)
  datatype Location = Location(address: string, city: string, state: string, pincode: Option<string>)
  datatype Distance = Distance(value: Option<int>, unit: string)
  datatype RoadAccess = RoadAccess(hasRoadAccess: bool, distanceFromRoad: Distance, roadType: Option<string>)
  datatype Amenities = Amenities(electricity: bool, water: bool, drainage: bool, boundaryWall: bool)

  /** A property document. Enumerated fields hold the stored text, which the validators check;
      numbers are whole numbers and timestamps are in milliseconds. */
  datatype Property = Property(id: Id, seller: Id, title: string, description: Option<string>,
                               propertyType: string, area: Area, price: int, location: Location,
                               roadAccess: RoadAccess, amenities: Amenities, facing: Option<string>,
                               images: seq<Image>, status: string, isFeatured: bool,
                               createdAt: int, updatedAt: int)

  const PROPERTY_NOT_FOUND: ApiError := ApiError(404, "Property not found.")

  /** The `maxlength` bounds, in UTF-16 code units as Mongoose counts them. */
  const TITLE_MAX: nat := 120
  const DESCRIPTION_MAX: nat := 2000
  const MAX_IMAGES: nat := 10

  /** `/^\d{6}$/`; the match validator lets an empty string through. */
  predicate PincodeOk(p: Option<string>)
  {
    p.None? || p.value == [] || (|p.value| == 6 && forall i :: 0 <= i < 6 ==> IsDigit(p.value[i]))
  }

  /** The enum validator's message. */
  function EnumMessage(value: string, path: string): string
  {
    "`" + value + "` is not a valid enum value for path `" + path + "`."
  }

  /** The `min: 0` validator's message. */
  function MinMessage(path: string, value: int): string
  {
    "Path `" + path + "` (" + IntText(value) + ") is less than minimum allowed value (0)."
  }

  function Check(ok: bool, message: string): seq<string>
  {
    if ok then [] else [message]
  }

  function ImageErrors(images: seq<Image>): (r: seq<string>)
    ensures r == [] <==> forall i :: 0 <= i < |images| ==> images[i].publicId != [] && images[i].url != []
  {
    if images == [] then []
    else
      Check(images[0].publicId != [], "Path `public_id` is required.") +
      Check(images[0].url != [], "Path `url` is required.") + ImageErrors(images[1..])
  }

  predicate ListingFieldsOk(p: Property)
  {
    p.seller != [] && p.title != [] && Utf16Length(p.title) <= TITLE_MAX &&
    (p.description.None? || Utf16Length(p.description.value) <= DESCRIPTION_MAX) &&
    ParsePropertyType(p.propertyType).Some?
  }

  function ListingFieldErrors(p: Property): (r: seq<string>)
    ensures r == [] <==> ListingFieldsOk(p)
  {
    Check(p.seller != [], "Path `seller` is required.") +
    Check(p.title != [], "Property title is required") +
    Check(Utf16Length(p.title) <= TITLE_MAX, "Title cannot exceed 120 characters") +
    Check(p.description.None? || Utf16Length(p.description.value) <= DESCRIPTION_MAX, "Description cannot exceed 2000 characters") +
    Check(p.propertyType != [], "Property type is required") +
    Check(p.propertyType == [] || ParsePropertyType(p.propertyType).Some?, EnumMessage(p.propertyType, "propertyType"))
  }

  predicate MeasureFieldsOk(p: Property)
  {
    p.area.value >= 0 && (p.area.unit.None? || ParseAreaUnit(p.area.unit.value).Some?) && p.price >= 0 &&
    p.location.address != [] && p.location.city != [] && p.location.state != [] &&
    PincodeOk(p.location.pincode)
  }

  function MeasureFieldErrors(p: Property): (r: seq<string>)
    ensures r == [] <==> MeasureFieldsOk(p)
  {
    Check(p.area.value >= 0, MinMessage("area.value", p.area.value)) +
    Check(p.area.unit.None? || ParseAreaUnit(p.area.unit.value).Some?,
          EnumMessage(if p.area.unit.Some? then p.area.unit.value else "", "area.unit")) +
    Check(p.price >= 0, MinMessage("price", p.price)) +
    Check(p.location.address != [], "Address is required") +
    Check(p.location.city != [], "City is required") +
    Check(p.location.state != [], "State is required") +
    Check(PincodeOk(p.location.pincode), "Invalid pincode")
  }

  predicate RoadFieldsOk(r: RoadAccess)
  {
    (r.distanceFromRoad.value.None? || r.distanceFromRoad.value.value >= 0) &&
    ParseDistanceUnit(r.distanceFromRoad.unit).Some? &&
    (r.roadType.None? || ParseRoadType(r.roadType.value).Some?)
  }

  function RoadFieldErrors(r: RoadAccess): (e: seq<string>)
    ensures e == [] <==> RoadFieldsOk(r)
  {
    var d := r.distanceFromRoad;
    Check(d.value.None? || d.value.value >= 0,
          MinMessage("roadAccess.distanceFromRoad.value", if d.value.Some? then d.value.value else 0)) +
    Check(ParseDistanceUnit(d.unit).Some?, EnumMessage(d.unit, "roadAccess.distanceFromRoad.unit")) +
    Check(r.roadType.None? || ParseRoadType(r.roadType.value).Some?,
          EnumMessage(if r.roadType.Some? then r.roadType.value else "", "roadAccess.roadType"))
  }

  predicate TailFieldsOk(p: Property)
  {
    (p.facing.None? || ParseFacing(p.facing.value).Some?) &&
    |p.images| <= MAX_IMAGES &&
    (forall i :: 0 <= i < |p.images| ==> p.images[i].publicId != [] && p.images[i].url != []) &&
    ParseListingStatus(p.status).Some?
  }

  function TailFieldErrors(p: Property): (r: seq<string>)
    ensures r == [] <==> TailFieldsOk(p)
  {
    Check(p.facing.None? || ParseFacing(p.facing.value).Some?,
          EnumMessage(if p.facing.Some? then p.facing.value else "", "facing")) +
    Check(|p.images| <= MAX_IMAGES, "Maximum 10 images allowed") +
    ImageErrors(p.images) +
    Check(ParseListingStatus(p.status).Some?, EnumMessage(p.status, "status"))
  }

  /** The validation messages of a document, in the schema's path order; there are none exactly
      when the document satisfies every constraint. */
  function PropertyErrors(p: Property): (r: seq<string>)
    ensures r == [] <==> PropertyValid(p)
  {
    ListingFieldErrors(p) + MeasureFieldErrors(p) + RoadFieldErrors(p.roadAccess) + TailFieldErrors(p)
  }

  /** Every field constraint of the schema. */
  predicate PropertyValid(p: Property)
  {
    ListingFieldsOk(p) && MeasureFieldsOk(p) && RoadFieldsOk(p.roadAccess) && TailFieldsOk(p)
  }

  /** `Property.findById(id)`: the position of the property with that id. */
  function FindProperty(ps: seq<Property>, id: Id): (r: Option<nat>)
    ensures r.Some? ==> r.value < |ps| && ps[r.value].id == id
    ensures r.None? <==> forall k :: 0 <= k < |ps| ==> ps[k].id != id
  {
    FirstIndex(ps, (p: Property) => p.id == id)
  }
}
