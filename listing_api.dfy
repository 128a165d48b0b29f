/** The client's listing mappers: the normalisers it applies before sending a listing, the
    mapping of a stored property to the app's `Listing`, the amenity flags, and the choice and
    construction of the multipart upload. */
module ListingApi {
  import opened Common
  import opened Text
  import opened Collections
  import PropertyController
  import PropertyModel

  // ---------------------------------------------------------------------------------------------
  // Normalisers

  /** `normalizeFacing` on the client: a missing or empty value is dropped, anything else gets the
      text transformation the server applies too. */
  function ClientFacing(facing: Option<string>): (r: Option<string>)
    ensures !Present(facing) ==> r.None?
    ensures Present(facing) ==> r.Some? && NoSep(r.value) && IsLower(r.value)
  {
    if !Present(facing) then None else Some(PropertyController.FacingText(facing.value))
  }

  /** The server's own `normalizeFacing` leaves whatever the client sends unchanged. */
  lemma ServerKeepsClientFacing(facing: Option<string>)
    ensures PropertyController.NormalizeFacing(ClientFacing(facing)) == ClientFacing(facing)
  {
    if Present(facing) {
      PropertyController.FacingTextIdempotent(facing.value);
    }
  }

  const DEFAULT_AREA_UNIT := "sqft"

  /** `normalizeAreaUnit` on the client: a missing or empty unit becomes "sqft"; otherwise the
      trimmed, lower-cased unit, with "acre" spelled "acres". */
  function ClientAreaUnit(unit: Option<string>): (r: string)
    ensures !Present(unit) ==> r == DEFAULT_AREA_UNIT
    ensures Present(unit) ==> IsLower(r) && (r == [] || (!IsSpace(r[0]) && !IsSpace(r[|r| - 1])))
    ensures Present(unit) && ToLower(Trim(unit.value)) == "acre" ==> r == "acres"
  {
    if !Present(unit) then DEFAULT_AREA_UNIT
    else
      PropertyController.AreaUnitTextNormal(unit.value);
      PropertyController.AreaUnitText(unit.value)
  }

  lemma DefaultUnitNormal()
    ensures PropertyController.AreaUnitText(DEFAULT_AREA_UNIT) == DEFAULT_AREA_UNIT
  {
    PropertyController.StoredUnitWord(PropertyModel.Sqft);
    PropertyController.PlainWordUnchanged(DEFAULT_AREA_UNIT);
  }

  /** The server's `normalizeAreaUnit` leaves the unit the client sends unchanged. */
  lemma ServerKeepsClientUnit(unit: Option<string>)
    ensures PropertyController.NormalizeAreaUnit(Some(ClientAreaUnit(unit))) == Some(ClientAreaUnit(unit))
  {
    if Present(unit) {
      PropertyController.AreaUnitTextIdempotent(unit.value);
    } else {
      DefaultUnitNormal();
    }
  }

  // ---------------------------------------------------------------------------------------------
  // Amenities

  /** The server's amenity record: four flags. */
  datatype AmenityFlags = AmenityFlags(electricity: bool, water: bool, drainage: bool, boundaryWall: bool)

  const ELECTRICITY := "Electricity"
  const WATER := "Water Connection"
  const DRAINAGE := "Drainage"
  const BOUNDARY_WALL := "Boundary Wall"

  predicate AnySet(f: AmenityFlags)
  {
    f.electricity || f.water || f.drainage || f.boundaryWall
  }

  /** The position of a name in the fixed order the mapper lists amenities in. */
  function Rank(name: string): nat
  {
    if name == ELECTRICITY then 0 else if name == WATER then 1 else if name == DRAINAGE then 2 else 3
  }

  /** The amenity names `mapPropertyToListing` shows: exactly the set flags, in the fixed order
      Electricity, Water Connection, Drainage, Boundary Wall; none for a missing record. */
  function AmenityNames(a: Option<AmenityFlags>): (r: seq<string>)
    ensures ELECTRICITY in r <==> a.Some? && a.value.electricity
    ensures WATER in r <==> a.Some? && a.value.water
    ensures DRAINAGE in r <==> a.Some? && a.value.drainage
    ensures BOUNDARY_WALL in r <==> a.Some? && a.value.boundaryWall
    ensures forall k :: 0 <= k < |r| ==> r[k] in [ELECTRICITY, WATER, DRAINAGE, BOUNDARY_WALL]
  {
    if a.None? then []
    else
      var f := a.value;
      (if f.electricity then [ELECTRICITY] else []) + (if f.water then [WATER] else []) +
      (if f.drainage then [DRAINAGE] else []) + (if f.boundaryWall then [BOUNDARY_WALL] else [])
  }

  /** The four names are told apart by their lengths, so each has its own rank. */
  lemma RankValues()
    ensures Rank(ELECTRICITY) == 0 && Rank(WATER) == 1 && Rank(DRAINAGE) == 2 && Rank(BOUNDARY_WALL) == 3
  {
    assert |ELECTRICITY| == 11 && |WATER| == 16 && |DRAINAGE| == 8 && |BOUNDARY_WALL| == 13;
  }

  /** Strictly increasing rank: the fixed order, with no name twice. */
  predicate RankSorted(names: seq<string>)
  {
    forall j, k :: 0 <= j < k < |names| ==> Rank(names[j]) < Rank(names[k])
  }

  /** Every name in `names` ranks at least `n`. */
  predicate RanksFrom(names: seq<string>, n: nat)
  {
    forall k :: 0 <= k < |names| ==> n <= Rank(names[k])
  }

  /** One optional name of rank `n` in front of a sorted tail ranked above it stays sorted. */
  lemma SortedCons(x: seq<string>, n: nat, y: seq<string>)
    requires OneOfRank(x, n)
    requires RankSorted(y) && RanksFrom(y, n + 1)
    ensures RankSorted(x + y) && RanksFrom(x + y, n)
  {
  }

  /** At most one name, of rank `n`. */
  predicate OneOfRank(x: seq<string>, n: nat)
  {
    |x| <= 1 && forall k :: 0 <= k < |x| ==> Rank(x[k]) == n
  }

  /** Four optional names of ranks 0 to 3, put together in that order, are sorted. */
  lemma FourSorted(e: seq<string>, w: seq<string>, d: seq<string>, b: seq<string>)
    requires OneOfRank(e, 0) && OneOfRank(w, 1) && OneOfRank(d, 2) && OneOfRank(b, 3)
    ensures RankSorted(((e + w) + d) + b)
  {
    assert ((e + w) + d) + b == e + (w + (d + b));
    SortedCons(b, 3, []);
    assert b + [] == b;
    SortedCons(d, 2, b);
    SortedCons(w, 1, d + b);
    SortedCons(e, 0, w + (d + b));
  }

  /** The names come in the fixed order, each at most once. */
  lemma AmenityNamesOrdered(a: Option<AmenityFlags>)
    ensures RankSorted(AmenityNames(a))
  {
    if a.Some? {
      var f := a.value;
      RankValues();
      FourSorted(if f.electricity then [ELECTRICITY] else [], if f.water then [WATER] else [],
                 if f.drainage then [DRAINAGE] else [], if f.boundaryWall then [BOUNDARY_WALL] else []);
    }
  }

  /** `a.toLowerCase().includes(k1) || a.toLowerCase().includes(k2)`. */
  predicate NameMentions(name: string, k1: string, k2: string)
  {
    Contains(ToLower(name), k1) || Contains(ToLower(name), k2)
  }

  /** `amenities.some(a => a.toLowerCase().includes(k1) || a.toLowerCase().includes(k2))`. */
  predicate Mentions(names: seq<string>, k1: string, k2: string)
  {
    exists k :: 0 <= k < |names| && NameMentions(names[k], k1, k2)
  }

  /** The flags `createListing` derives from a list of amenity names: none for a missing or
      empty list, otherwise each flag set when some name mentions its keyword. */
  function AmenityFlagsOf(names: Option<seq<string>>): (r: Option<AmenityFlags>)
    ensures r.None? <==> names.None? || names.value == []
    ensures r.Some? ==> r.value.electricity == Mentions(names.value, "power", "electricity")
    ensures r.Some? ==> r.value.water == Mentions(names.value, "water", "water")
    ensures r.Some? ==> r.value.drainage == Mentions(names.value, "drainage", "drainage")
    ensures r.Some? ==> r.value.boundaryWall == Mentions(names.value, "boundary", "wall")
  {
    if names.None? || names.value == [] then None
    else
      var n := names.value;
      Some(AmenityFlags(Mentions(n, "power", "electricity"), Mentions(n, "water", "water"),
                        Mentions(n, "drainage", "drainage"), Mentions(n, "boundary", "wall")))
  }

  /** The displayed names, lower-cased. */
  lemma LowerNames()
    ensures ToLower(ELECTRICITY) == "electricity" && ToLower(WATER) == "water connection"
    ensures ToLower(DRAINAGE) == "drainage" && ToLower(BOUNDARY_WALL) == "boundary wall"
  {
    LowerPointwise(ELECTRICITY, "electricity");
    LowerPointwise(WATER, "water connection");
    LowerPointwise(DRAINAGE, "drainage");
    LowerPointwise(BOUNDARY_WALL, "boundary wall");
  }

  /** Which keywords each lower-cased name contains: its own and no other. */
  lemma ElectricityWords(e: string)
    requires e == "electricity"
    ensures Contains(e, "electricity") && !Contains(e, "water") && !Contains(e, "drainage")
    ensures !Contains(e, "boundary") && !Contains(e, "wall")
  {
    assert 'w' !in e && 'd' !in e && 'b' !in e;
    ContainsAt(e, "electricity", 0);
    AbsentCharNotContained(e, "water", 0);
    AbsentCharNotContained(e, "drainage", 0);
    AbsentCharNotContained(e, "boundary", 0);
    AbsentCharNotContained(e, "wall", 0);
  }

  lemma WaterChars(w: string)
    requires w == "water connection"
    ensures 'p' !in w && 'l' !in w && 'd' !in w && 'b' !in w
  {
    var front, back := "water", " connection";
    assert w == front + back;
    assert 'p' !in front && 'l' !in front && 'd' !in front && 'b' !in front;
    assert 'p' !in back && 'l' !in back && 'd' !in back && 'b' !in back;
  }

  lemma WaterWords(w: string)
    requires w == "water connection"
    ensures Contains(w, "water") && !Contains(w, "power") && !Contains(w, "electricity")
    ensures !Contains(w, "drainage") && !Contains(w, "boundary") && !Contains(w, "wall")
  {
    WaterChars(w);
    ContainsAt(w, "water", 0);
    AbsentCharNotContained(w, "power", 0);
    AbsentCharNotContained(w, "electricity", 1);
    AbsentCharNotContained(w, "drainage", 0);
    AbsentCharNotContained(w, "boundary", 0);
    AbsentCharNotContained(w, "wall", 2);
  }

  lemma DrainageWords(d: string)
    requires d == "drainage"
    ensures Contains(d, "drainage") && !Contains(d, "power") && !Contains(d, "electricity")
    ensures !Contains(d, "water") && !Contains(d, "boundary") && !Contains(d, "wall")
  {
    assert 'p' !in d && 'l' !in d && 'w' !in d && 'b' !in d;
    ContainsAt(d, "drainage", 0);
    AbsentCharNotContained(d, "power", 0);
    AbsentCharNotContained(d, "electricity", 1);
    AbsentCharNotContained(d, "water", 0);
    AbsentCharNotContained(d, "boundary", 0);
    AbsentCharNotContained(d, "wall", 0);
  }

  lemma BoundaryWallWords(b: string)
    requires b == "boundary wall"
    ensures Contains(b, "boundary") && !Contains(b, "power") && !Contains(b, "electricity")
    ensures !Contains(b, "water") && !Contains(b, "drainage")
  {
    assert 'p' !in b && 'e' !in b && 'i' !in b;
    ContainsAt(b, "boundary", 0);
    AbsentCharNotContained(b, "power", 0);
    AbsentCharNotContained(b, "electricity", 0);
    AbsentCharNotContained(b, "water", 3);
    AbsentCharNotContained(b, "drainage", 3);
  }

  /** Each displayed name mentions its own keywords and none of the others'. */
  lemma NameKeywords()
    ensures NameMentions(ELECTRICITY, "power", "electricity") && !NameMentions(ELECTRICITY, "water", "water")
    ensures !NameMentions(ELECTRICITY, "drainage", "drainage") && !NameMentions(ELECTRICITY, "boundary", "wall")
    ensures NameMentions(WATER, "water", "water") && !NameMentions(WATER, "power", "electricity")
    ensures !NameMentions(WATER, "drainage", "drainage") && !NameMentions(WATER, "boundary", "wall")
    ensures NameMentions(DRAINAGE, "drainage", "drainage") && !NameMentions(DRAINAGE, "power", "electricity")
    ensures !NameMentions(DRAINAGE, "water", "water") && !NameMentions(DRAINAGE, "boundary", "wall")
    ensures NameMentions(BOUNDARY_WALL, "boundary", "wall") && !NameMentions(BOUNDARY_WALL, "power", "electricity")
    ensures !NameMentions(BOUNDARY_WALL, "water", "water") && !NameMentions(BOUNDARY_WALL, "drainage", "drainage")
  {
    LowerNames();
    ElectricityWords(ToLower(ELECTRICITY));
    WaterWords(ToLower(WATER));
    DrainageWords(ToLower(DRAINAGE));
    BoundaryWallWords(ToLower(BOUNDARY_WALL));
  }

  /** When exactly one of the four names mentions a keyword pair, the displayed names mention it
      exactly when that name is shown. */
  lemma MentionsIffShown(f: AmenityFlags, k1: string, k2: string, name: string)
    requires NameMentions(ELECTRICITY, k1, k2) <==> name == ELECTRICITY
    requires NameMentions(WATER, k1, k2) <==> name == WATER
    requires NameMentions(DRAINAGE, k1, k2) <==> name == DRAINAGE
    requires NameMentions(BOUNDARY_WALL, k1, k2) <==> name == BOUNDARY_WALL
    ensures var n := AmenityNames(Some(f)); Mentions(n, k1, k2) <==> name in n
  {
    var n := AmenityNames(Some(f));
    forall k | 0 <= k < |n| ensures NameMentions(n[k], k1, k2) <==> n[k] == name {
      assert n[k] in [ELECTRICITY, WATER, DRAINAGE, BOUNDARY_WALL];
    }
    if name in n {
      var k :| 0 <= k < |n| && n[k] == name;
    }
  }

  /** Each flag is recovered from the displayed names. */
  lemma FlagRecovered(f: AmenityFlags)
    ensures var n := AmenityNames(Some(f));
      Mentions(n, "power", "electricity") == f.electricity && Mentions(n, "water", "water") == f.water &&
      Mentions(n, "drainage", "drainage") == f.drainage && Mentions(n, "boundary", "wall") == f.boundaryWall
  {
    NameKeywords();
    MentionsIffShown(f, "power", "electricity", ELECTRICITY);
    MentionsIffShown(f, "water", "water", WATER);
    MentionsIffShown(f, "drainage", "drainage", DRAINAGE);
    MentionsIffShown(f, "boundary", "wall", BOUNDARY_WALL);
  }

  /** Round trip: the flags a property is shown with, sent back through `createListing`, give the
      same flags whenever at least one is set, and no amenity record when none is. */
  lemma AmenityRoundTrip(f: AmenityFlags)
    ensures AmenityFlagsOf(Some(AmenityNames(Some(f)))) == if AnySet(f) then Some(f) else None
  {
    if AnySet(f) {
      FlagRecovered(f);
    } else {
      assert AmenityNames(Some(f)) == [];
    }
  }

  // ---------------------------------------------------------------------------------------------
  // Images

  /** An entry of a stored property's `images`: a URL string, an uploaded-image object whose
      `url` may be missing, or a null entry. */
  datatype ImageEntry = ImageText(s: string) | ImageMedia(url: Option<string>) | ImageNull

  /** `typeof img === 'string' ? img : img?.url`, with `filter(Boolean)` deciding to keep it. */
  function ImageUrl(img: ImageEntry): (r: Option<string>)
    ensures r.Some? ==> r.value != []
  {
    match img
    case ImageText(s) => if s != [] then Some(s) else None
    case ImageMedia(url) => if Present(url) then url else None
    case ImageNull => None
  }

  /** What one entry contributes to the mapped list. */
  function Urls(img: ImageEntry): (r: seq<string>)
    ensures |r| <= 1 && forall k :: 0 <= k < |r| ==> r[k] != []
  {
    match ImageUrl(img)
    case Some(u) => [u]
    case None => []
  }

  /** The mapped images: the URL of every entry that has a non-empty one, in order. */
  function MapImages(images: seq<ImageEntry>): (r: seq<string>)
    ensures |r| <= |images|
    ensures forall k :: 0 <= k < |r| ==> r[k] != []
  {
    if images == [] then [] else Urls(images[0]) + MapImages(images[1..])
  }

  /** Mapping keeps the order: it distributes over concatenation. */
  lemma {:induction false} MapImagesConcat(a: seq<ImageEntry>, b: seq<ImageEntry>)
    ensures MapImages(a + b) == MapImages(a) + MapImages(b)
  {
    if a != [] {
      assert (a + b)[0] == a[0] && (a + b)[1..] == a[1..] + b;
      MapImagesConcat(a[1..], b);
      calc {
        MapImages(a + b);
        Urls(a[0]) + MapImages(a[1..] + b);
        Urls(a[0]) + (MapImages(a[1..]) + MapImages(b));
        (Urls(a[0]) + MapImages(a[1..])) + MapImages(b);
        MapImages(a) + MapImages(b);
      }
    } else {
      assert a + b == b;
    }
  }

  /** Images stored as non-empty URL strings come back unchanged. */
  lemma {:induction false} MapImagesOfUrls(images: seq<ImageEntry>)
    requires forall k :: 0 <= k < |images| ==> images[k].ImageText? && images[k].s != []
    ensures |MapImages(images)| == |images|
    ensures forall k :: 0 <= k < |images| ==> MapImages(images)[k] == images[k].s
  {
    if images != [] {
      MapImagesOfUrls(images[1..]);
    }
  }

  // ---------------------------------------------------------------------------------------------
  // Stored property to client listing

  /** A stored property as it arrives in a reply. `mongoId` is the `_id` field; absent fields are
      `None`. */
  datatype RawProperty = RawProperty(
    id: Option<string>, mongoId: Option<string>, sellerId: Option<string>, seller: Option<string>,
    sellerName: Option<string>, title: string, description: string, propertyType: string, price: int,
    areaValue: Option<int>, areaObjectUnit: Option<string>, areaUnit: Option<string>,
    address: Option<string>, city: Option<string>, state: Option<string>, pincode: Option<string>,
    amenities: Option<AmenityFlags>, images: Option<seq<ImageEntry>>, status: string,
    contactViews: Option<int>, facing: Option<string>,
    latitude: Option<int>, lat: Option<int>, longitude: Option<int>, lng: Option<int>,
    createdAt: Option<string>, updatedAt: Option<string>)

  /** The client's `Listing`. `id` is `None` when the reply carries neither `id` nor `_id`. */
  datatype Listing = Listing(
    id: Option<string>, sellerId: string, sellerName: string, title: string, description: string,
    propertyType: string, price: int, area: int, areaUnit: string,
    address: string, city: string, state: string, pincode: string,
    amenities: seq<string>, images: seq<string>, status: string, contactViews: int, facing: Option<string>,
    latitude: int, longitude: int, createdAt: Option<string>, updatedAt: Option<string>)

  /** JavaScript `a ?? b ?? 0` on optional numbers: unlike `||`, a present 0 is kept. */
  function Coalesce(a: Option<int>, b: Option<int>): (r: int)
    ensures a.Some? ==> r == a.value
    ensures a.None? && b.Some? ==> r == b.value
    ensures a.None? && b.None? ==> r == 0
  {
    match a
    case Some(x) => x
    case None => match b case Some(y) => y case None => 0
  }

  /** JavaScript `a || b` on optional strings. */
  function OrElse(a: Option<string>, b: Option<string>): (r: Option<string>)
    ensures Present(a) ==> r == a
    ensures !Present(a) ==> r == b
  {
    if Present(a) then a else b
  }

  /** JavaScript `a || ''`. */
  function OrEmpty(a: Option<string>): (r: string)
    ensures Present(a) ==> r == a.value
    ensures !Present(a) ==> r == []
  {
    if Present(a) then a.value else []
  }

  /** `mapPropertyToListing`. */
  function MapProperty(p: RawProperty): (l: Listing)
    ensures l.id == OrElse(p.id, p.mongoId)
    ensures Present(p.id) || Present(p.mongoId) ==> l.id.Some? && l.id.value != []
    ensures l.sellerId == OrEmpty(OrElse(p.sellerId, p.seller))
    ensures l.title == p.title && l.description == p.description && l.price == p.price
    ensures l.propertyType == p.propertyType && l.status == p.status && l.facing == p.facing
    ensures l.address == OrEmpty(p.address) && l.city == OrEmpty(p.city)
    ensures l.state == OrEmpty(p.state) && l.pincode == OrEmpty(p.pincode)
    ensures Present(p.city) ==> l.city == p.city.value
    ensures l.amenities == AmenityNames(p.amenities)
    ensures forall k :: 0 <= k < |l.images| ==> l.images[k] != []
    ensures p.images.None? ==> l.images == []
    ensures p.contactViews.None? ==> l.contactViews == 0
    ensures p.areaObjectUnit.None? && p.areaUnit.None? ==> l.areaUnit == DEFAULT_AREA_UNIT
    ensures l.latitude == Coalesce(p.latitude, p.lat) && l.longitude == Coalesce(p.longitude, p.lng)
    ensures l.createdAt == p.createdAt && l.updatedAt == p.updatedAt
  {
    Listing(
      OrElse(p.id, p.mongoId), OrEmpty(OrElse(p.sellerId, p.seller)), OrEmpty(p.sellerName),
      p.title, p.description, p.propertyType, p.price,
      if p.areaValue.Some? then p.areaValue.value else 0,
      if p.areaObjectUnit.Some? then p.areaObjectUnit.value
      else if p.areaUnit.Some? then p.areaUnit.value else DEFAULT_AREA_UNIT,
      OrEmpty(p.address), OrEmpty(p.city), OrEmpty(p.state), OrEmpty(p.pincode),
      AmenityNames(p.amenities),
      if p.images.Some? then MapImages(p.images.value) else [],
      p.status,
      if p.contactViews.Some? then p.contactViews.value else 0,
      p.facing, Coalesce(p.latitude, p.lat), Coalesce(p.longitude, p.lng), p.createdAt, p.updatedAt)
  }

  // ---------------------------------------------------------------------------------------------
  // createListing

  /** `/^(file|content|ph):/i`: a URI of a picture on the device rather than on the web. */
  predicate IsLocalImageUri(uri: string)
  {
    var l := ToLower(uri);
    StartsWith(l, "file:") || StartsWith(l, "content:") || StartsWith(l, "ph:")
  }

  /** The scheme test ignores case. */
  lemma LocalUriIgnoresCase(uri: string)
    ensures IsLocalImageUri(ToLower(uri)) == IsLocalImageUri(uri)
  {
    ToLowerIsLower(uri);
  }

  /** A web address is not a local picture. */
  lemma WebUriNotLocal(uri: string)
    requires StartsWith(uri, "https://")
    ensures !IsLocalImageUri(uri)
  {
    var l := ToLower(uri);
    assert uri[0] == 'h';
    assert l[0] == 'h';
  }

  /** The pictures `createListing` uploads: the local ones, in order. */
  function LocalUris(images: Option<seq<string>>): (r: seq<string>)
    ensures forall k :: 0 <= k < |r| ==> IsLocalImageUri(r[k])
    ensures r == [] <==> images.None? || forall k :: 0 <= k < |images.value| ==> !IsLocalImageUri(images.value[k])
  {
    var all := if images.Some? then images.value else [];
    var r := Filter(all, IsLocalImageUri);
    assert r == [] <==> forall k :: 0 <= k < |all| ==> !IsLocalImageUri(all[k]) by {
      if r != [] {
        FilterMembers(all, IsLocalImageUri, r[0]);
      }
      forall k | 0 <= k < |all| && IsLocalImageUri(all[k]) ensures r != [] {
        FilterMembers(all, IsLocalImageUri, all[k]);
      }
    }
    r
  }

  /** The fields of a `Partial<Listing>` that `createListing` reads. */
  datatype ListingDraft = ListingDraft(
    title: Option<string>, description: Option<string>, propertyType: Option<string>, price: Option<int>,
    facing: Option<string>, area: Option<int>, areaUnit: Option<string>,
    address: Option<string>, city: Option<string>, state: Option<string>, pincode: Option<string>,
    lat: Option<int>, lng: Option<int>, amenities: Option<seq<string>>, images: Option<seq<string>>)

  datatype Location = Location(address: string, city: string, state: string, pincode: string, latitude: int, longitude: int)

  /** The request body `createListing` builds before choosing how to send it. */
  datatype Payload = Payload(
    title: Option<string>, description: Option<string>, propertyType: Option<string>, price: Option<int>,
    facing: Option<string>, areaValue: Option<int>, areaUnit: string, location: Location,
    amenities: Option<AmenityFlags>)

  /** JavaScript `n || 0`. */
  function OrZero(n: Option<int>): int
  {
    if n.Some? then n.value else 0
  }

  function BuildPayload(d: ListingDraft): (p: Payload)
    ensures p.facing == ClientFacing(d.facing) && p.areaUnit == ClientAreaUnit(d.areaUnit)
    ensures p.amenities == AmenityFlagsOf(d.amenities)
    ensures p.location.address == OrEmpty(d.address) && p.location.city == OrEmpty(d.city)
    ensures p.location.state == OrEmpty(d.state) && p.location.pincode == OrEmpty(d.pincode)
    ensures p.title == d.title && p.description == d.description && p.price == d.price
  {
    Payload(d.title, d.description, d.propertyType, d.price, ClientFacing(d.facing), d.area,
            ClientAreaUnit(d.areaUnit),
            Location(OrEmpty(d.address), OrEmpty(d.city), OrEmpty(d.state), OrEmpty(d.pincode),
                     OrZero(d.lat), OrZero(d.lng)),
            AmenityFlagsOf(d.amenities))
  }

  /** A value put in the multipart form: text, one of the JSON-encoded parts, or a picture. */
  datatype FormValue =
    | TextPart(s: string)
    | AreaPart(value: Option<int>, unit: string)
    | LocationPart(location: Location)
    | AmenitiesPart(flags: AmenityFlags)
    | ImagePart(uri: string, name: string, mime: string)

  /** The form fields appended before the pictures: title, description, type (default "land"),
      price (default 0), facing only when there is one, area, location, and amenities only when
      there are some. */
  function PayloadFields(p: Payload): (r: seq<(string, FormValue)>)
    ensures |r| >= 6
    ensures r[0] == ("title", TextPart(OrEmpty(p.title))) && r[1] == ("description", TextPart(OrEmpty(p.description)))
    ensures r[3] == ("price", TextPart(IntText(OrZero(p.price))))
    ensures |r| == 6 + (if Present(p.facing) then 1 else 0) + (if p.amenities.Some? then 1 else 0)
  {
    [("title", TextPart(OrEmpty(p.title))), ("description", TextPart(OrEmpty(p.description))),
     ("propertyType", TextPart(if Present(p.propertyType) then p.propertyType.value else "land")),
     ("price", TextPart(IntText(OrZero(p.price))))] +
    (if Present(p.facing) then [("facing", TextPart(p.facing.value))] else []) +
    [("area", AreaPart(p.areaValue, p.areaUnit)), ("location", LocationPart(p.location))] +
    (if p.amenities.Some? then [("amenities", AmenitiesPart(p.amenities.value))] else [])
  }

  /** Some field of the form is named `key`. */
  predicate HasKey(fields: seq<(string, FormValue)>, key: string)
  {
    exists k :: 0 <= k < |fields| && fields[k].0 == key
  }

  lemma HasKeyConcat(x: seq<(string, FormValue)>, y: seq<(string, FormValue)>, key: string)
    ensures HasKey(x + y, key) <==> HasKey(x, key) || HasKey(y, key)
  {
    if HasKey(x + y, key) {
      var k :| 0 <= k < |x + y| && (x + y)[k].0 == key;
      if k >= |x| {
        assert y[k - |x|].0 == key;
      }
    }
    if HasKey(x, key) {
      var k :| 0 <= k < |x| && x[k].0 == key;
      assert (x + y)[k].0 == key;
    }
    if HasKey(y, key) {
      var k :| 0 <= k < |y| && y[k].0 == key;
      assert (x + y)[k + |x|].0 == key;
    }
  }

  /** A form made of four runs has a key exactly when one of the runs has it. */
  lemma HasKeyConcat4(a: seq<(string, FormValue)>, b: seq<(string, FormValue)>, c: seq<(string, FormValue)>,
                      d: seq<(string, FormValue)>, key: string)
    ensures HasKey(((a + b) + c) + d, key) <==> HasKey(a, key) || HasKey(b, key) || HasKey(c, key) || HasKey(d, key)
  {
    HasKeyConcat(a, b, key);
    HasKeyConcat(a + b, c, key);
    HasKeyConcat((a + b) + c, d, key);
  }

  /** The form carries a "facing" part exactly when there is a facing, an "amenities" part
      exactly when there are amenity flags, and no "images" part before the pictures. */
  lemma PayloadFieldKeys(p: Payload)
    ensures HasKey(PayloadFields(p), "facing") <==> Present(p.facing)
    ensures HasKey(PayloadFields(p), "amenities") <==> p.amenities.Some?
    ensures !HasKey(PayloadFields(p), "images")
  {
    var head := [("title", TextPart(OrEmpty(p.title))), ("description", TextPart(OrEmpty(p.description))),
                 ("propertyType", TextPart(if Present(p.propertyType) then p.propertyType.value else "land")),
                 ("price", TextPart(IntText(OrZero(p.price))))];
    var facing := if Present(p.facing) then [("facing", TextPart(p.facing.value))] else [];
    var mid := [("area", AreaPart(p.areaValue, p.areaUnit)), ("location", LocationPart(p.location))];
    var amenities := if p.amenities.Some? then [("amenities", AmenitiesPart(p.amenities.value))] else [];
    assert PayloadFields(p) == ((head + facing) + mid) + amenities;
    assert |"title"| == 5 && |"description"| == 11 && |"propertyType"| == 12 && |"price"| == 5;
    assert |"area"| == 4 && |"location"| == 8 && |"amenities"| == 9 && |"facing"| == 6 && |"images"| == 6;
    assert "facing"[0] != "images"[0];
    assert !HasKey(head, "facing") && !HasKey(mid, "facing") && !HasKey(amenities, "facing");
    assert !HasKey(head, "amenities") && !HasKey(mid, "amenities") && !HasKey(facing, "amenities");
    assert !HasKey(head, "images") && !HasKey(mid, "images") && !HasKey(facing, "images") && !HasKey(amenities, "images");
    HasKeyConcat4(head, facing, mid, amenities, "facing");
    HasKeyConcat4(head, facing, mid, amenities, "amenities");
    HasKeyConcat4(head, facing, mid, amenities, "images");
    if Present(p.facing) {
      assert facing[0].0 == "facing";
    }
    if p.amenities.Some? {
      assert amenities[0].0 == "amenities";
    }
  }

  /** The price sent as text reads back as the same number. */
  lemma PricePartRoundTrip(p: Payload)
    ensures ParseInt(PayloadFields(p)[3].1.s) == Some(OrZero(p.price))
  {
    IntTextRoundTrip(OrZero(p.price));
  }

  /** `property-${Date.now()}-${index}.jpg`. */
  function ImageName(stamp: int, index: nat): string
  {
    "property-" + IntText(stamp) + "-" + NatText(index) + ".jpg"
  }

  /** The `k`-th picture part: the local URI, named `property-<stamp>-<k>.jpg`, as a JPEG. */
  function PicturePart(uri: string, stamp: int, k: nat): (string, FormValue)
  {
    ("images", ImagePart(uri, ImageName(stamp, k), "image/jpeg"))
  }

  /** The multipart form: the payload fields, then one picture part per local URI, in order.
      `stamps[k]` is the clock reading when the `k`-th picture is appended. */
  method BuildFormData(p: Payload, localUris: seq<string>, stamps: seq<int>) returns (form: seq<(string, FormValue)>)
    requires |stamps| == |localUris|
    ensures |form| == |PayloadFields(p)| + |localUris|
    ensures form[..|PayloadFields(p)|] == PayloadFields(p)
    ensures forall k :: 0 <= k < |localUris| ==> form[|PayloadFields(p)| + k] == PicturePart(localUris[k], stamps[k], k)
  {
    var fixed := PayloadFields(p);
    var n := |fixed|;
    form := fixed;
    var i := 0;
    while i < |localUris|
      invariant 0 <= i <= |localUris|
      invariant |form| == n + i
      invariant form[..n] == fixed
      invariant forall k :: 0 <= k < i ==> form[n + k] == PicturePart(localUris[k], stamps[k], k)
    {
      var part := PicturePart(localUris[i], stamps[i], i);
      assert (form + [part])[..n] == form[..n];
      form := form + [part];
      i := i + 1;
    }
  }

  /** How `createListing` sends the listing: a multipart upload of the local pictures, or a JSON
      body carrying the image list as given. */
  datatype CreateRequest =
    | Multipart(form: seq<(string, FormValue)>)
    | JsonBody(payload: Payload, images: seq<string>)

  method CreateListingRequest(d: ListingDraft, stamps: seq<int>) returns (req: CreateRequest)
    requires |stamps| == |LocalUris(d.images)|
    ensures req.Multipart? <==> d.images.Some? && exists k :: 0 <= k < |d.images.value| && IsLocalImageUri(d.images.value[k])
    ensures req.Multipart? ==> |req.form| == |PayloadFields(BuildPayload(d))| + |LocalUris(d.images)|
    ensures req.JsonBody? ==> req.payload == BuildPayload(d) && req.images == if d.images.Some? then d.images.value else []
  {
    var payload := BuildPayload(d);
    var local := LocalUris(d.images);
    if |local| > 0 {
      var form := BuildFormData(payload, local, stamps);
      req := Multipart(form);
    } else {
      req := JsonBody(payload, if d.images.Some? then d.images.value else []);
    }
  }
}
