/** The listing handlers: field normalisers, the public catalogue with its filter and pages, and
    the seller's create, update and delete operations behind the ownership gate. */
module PropertyController {
  import opened Common
  import opened Text
  import opened Collections
  import opened UserModel
  import opened PropertyModel
  import opened ErrorMiddleware
  import opened Store

  const UPDATE_FORBIDDEN: ApiError := ApiError(403, "You are not authorized to update this property.")
  const DELETE_FORBIDDEN: ApiError := ApiError(403, "You are not authorized to delete this property.")
  const IMAGE_FORBIDDEN: ApiError := ApiError(403, "Not authorized.")
  const IMAGES_FULL: ApiError := ApiError(400, "Maximum 10 images already uploaded.")
  const IMAGE_NOT_FOUND: ApiError := ApiError(404, "Image not found on this property.")
  const DELETED_MESSAGE: string := "Property deleted successfully."

  /** The placeholder a listing created without any image receives. */
  const DEFAULT_IMAGE: Image :=
    Image("default_property_image", "https://images.unsplash.com/photo-1560448204-e02f11c3d0e2?w=800")

  const MAX_LIMIT: int := 50
  const DEFAULT_LIMIT: int := 10

  // ---------------------------------------------------------------- normalisers

  /** Lower-case ASCII letters and dashes only: the shape of every stored enumeration value. */
  predicate PlainWord(s: string)
  {
    forall i :: 0 <= i < |s| ==> ('a' <= s[i] <= 'z') || s[i] == '-'
  }

  lemma PlainWordIsNormal(s: string)
    requires PlainWord(s)
    ensures NoSep(s) && NoSpace(s) && IsLower(s)
  {
    forall i | 0 <= i < |s| ensures !IsSep(s[i]) && !IsSpace(s[i]) && LowerChar(s[i]) == s[i] {
      assert ('a' <= s[i] <= 'z') || s[i] == '-';
    }
  }

  lemma NoSepNoSpace(s: string)
    requires NoSep(s)
    ensures NoSpace(s)
  {
    forall i | 0 <= i < |s| ensures !IsSpace(s[i]) { assert !IsSep(s[i]); }
  }

  /** What `normalizeFacing` makes of a non-empty string: trimmed, lower-cased, and every run of
      white space and underscores turned into one "-". */
  function FacingText(s: string): (r: string)
    ensures NoSep(r) && IsLower(r)
    ensures Letters(r) == Letters(ToLower(Trim(s)))
  {
    var t := ToLower(Trim(s));
    ToLowerIsLower(Trim(s));
    DashRunsLower(t);
    DashRunsKeepsLetters(t);
    DashRuns(t)
  }

  /** `normalizeFacing` on a string field: an absent or empty value is passed through. */
  function NormalizeFacing(v: Option<string>): (r: Option<string>)
    ensures !Present(v) ==> r == v
    ensures Present(v) ==> r.Some? && NoSep(r.value) && IsLower(r.value)
  {
    if !Present(v) then v else Some(FacingText(v.value))
  }

  /** Normalising a facing twice gives what normalising once gives. */
  lemma FacingTextIdempotent(s: string)
    ensures FacingText(FacingText(s)) == FacingText(s)
  {
    var r := FacingText(s);
    NoSepNoSpace(r);
    assert Trim(r) == r;
    ToLowerIsLower(r);
    DashRunsIdentity(r);
  }

  /** The stored compass values are already normal. */
  lemma CanonicalFacing(f: Facing)
    ensures FacingText(FacingName(f)) == FacingName(f)
  {
    var s := FacingName(f);
    assert PlainWord(s);
    PlainWordIsNormal(s);
    ToLowerIsLower(s);
    DashRunsIdentity(s);
  }

  /** "acre" is the one spelling `normalizeAreaUnit` corrects. */
  function Respell(n: string): (r: string)
    ensures n != "acre" ==> r == n
    ensures n == "acre" ==> r == "acres"
  {
    if n == "acre" then "acres" else n
  }

  /** What `normalizeAreaUnit` makes of a non-empty string: trimmed and lower-cased, with "acre"
      spelled "acres". */
  function AreaUnitText(s: string): string
  {
    Respell(ToLower(Trim(s)))
  }

  lemma AcresNormal()
    ensures IsLower("acres") && !IsSpace("acres"[0]) && !IsSpace("acres"[4])
  {
    assert PlainWord("acres");
    PlainWordIsNormal("acres");
  }

  /** Lower-casing keeps a trimmed text trimmed. */
  lemma LowerTrimmedEnds(t: string)
    requires t == [] || (!IsSpace(t[0]) && !IsSpace(t[|t| - 1]))
    ensures var n := ToLower(t); IsLower(n) && (n == [] || (!IsSpace(n[0]) && !IsSpace(n[|n| - 1])))
  {
    ToLowerIsLower(t);
    if t != [] {
      LowerKeepsSpace(t[0]);
      LowerKeepsSpace(t[|t| - 1]);
    }
  }

  /** A normalised unit is lower-case and neither starts nor ends with white space. */
  lemma AreaUnitTextNormal(s: string)
    ensures var r := AreaUnitText(s); IsLower(r) && (r == [] || (!IsSpace(r[0]) && !IsSpace(r[|r| - 1])))
  {
    var n := ToLower(Trim(s));
    if n == "acre" {
      assert AreaUnitText(s) == "acres";
      AcresNormal();
    } else {
      assert AreaUnitText(s) == n;
      LowerTrimmedEnds(Trim(s));
    }
  }

  /** Only "acre" is respelled: the result is "acres" exactly when the trimmed, lower-cased input
      is "acre" or "acres", and any other input keeps its trimmed, lower-cased text. */
  lemma AcreBecomesAcres(s: string)
    ensures AreaUnitText(s) == "acres" <==> ToLower(Trim(s)) == "acre" || ToLower(Trim(s)) == "acres"
    ensures ToLower(Trim(s)) != "acre" ==> AreaUnitText(s) == ToLower(Trim(s))
  {
  }

  /** `normalizeAreaUnit` on a string field: an absent or empty value is passed through. */
  function NormalizeAreaUnit(v: Option<string>): (r: Option<string>)
    ensures !Present(v) ==> r == v
    ensures Present(v) ==> r.Some? && IsLower(r.value)
  {
    if !Present(v) then v else AreaUnitTextNormal(v.value); Some(AreaUnitText(v.value))
  }

  lemma AreaUnitTextIdempotent(s: string)
    ensures AreaUnitText(AreaUnitText(s)) == AreaUnitText(s)
  {
    var r := AreaUnitText(s);
    AreaUnitTextNormal(s);
    assert TrimStart(r) == r;
    assert TrimEnd(r) == r;
    ToLowerIsLower(r);
    assert r != "acre";
  }

  /** A word of lower-case letters and dashes other than "acre" is kept as it is; "acre" becomes
      "acres". */
  lemma PlainWordUnchanged(s: string)
    requires PlainWord(s)
    ensures AreaUnitText(s) == if s == "acre" then "acres" else s
  {
    PlainWordIsNormal(s);
    TrimNoSpace(s);
    LowerPointwise(s, s);
  }

  lemma StoredUnitWord(u: AreaUnit)
    ensures PlainWord(AreaUnitName(u)) && AreaUnitName(u) != "acre"
  {
    var s := AreaUnitName(u);
    assert PlainWord(s) && (|s| != 4 || s[0] != 'a');
    assert |"acre"| == 4 && "acre"[0] == 'a';
  }

  lemma AcreRespelled()
    ensures AreaUnitText("acre") == "acres"
  {
    assert PlainWord("acre");
    PlainWordUnchanged("acre");
  }

  /** The stored unit names are already normal, and "acre" becomes "acres". */
  lemma CanonicalAreaUnit(u: AreaUnit)
    ensures AreaUnitText(AreaUnitName(u)) == AreaUnitName(u)
    ensures AreaUnitText("acre") == AreaUnitName(Acres)
  {
    StoredUnitWord(u);
    PlainWordUnchanged(AreaUnitName(u));
    AcreRespelled();
  }

  // ---------------------------------------------------------------- the public catalogue

  /** The query-string parameters `getAllProperties` reads; `None` when a parameter is absent. */
  datatype ListQuery = ListQuery(city: Option<string>, propertyType: Option<string>,
                                 hasRoadAccess: Option<string>, minPrice: Option<string>,
                                 maxPrice: Option<string>, page: Option<string>, limit: Option<string>)

  /** The MongoDB filter built from the parameters; `status: "active"` is always part of it. */
  datatype PropertyQuery = PropertyQuery(cityPattern: Option<string>, propertyType: Option<string>,
                                         hasRoadAccess: Option<bool>, minPrice: Option<int>,
                                         maxPrice: Option<int>)

  /** The filter of `getAllProperties`: empty parameters add nothing, `hasRoadAccess` is compared
      with "true" whenever present, and `number` stands for `Number` on a price bound. */
  function BuildQuery(q: ListQuery, number: string -> int): (r: PropertyQuery)
    ensures r.cityPattern.Some? <==> Present(q.city)
    ensures r.propertyType.Some? <==> Present(q.propertyType)
    ensures r.hasRoadAccess.Some? <==> q.hasRoadAccess.Some?
    ensures r.hasRoadAccess.Some? ==> (r.hasRoadAccess.value <==> q.hasRoadAccess.value == "true")
    ensures r.minPrice.Some? <==> Present(q.minPrice)
    ensures r.maxPrice.Some? <==> Present(q.maxPrice)
  {
    PropertyQuery(
      if Present(q.city) then q.city else None,
      if Present(q.propertyType) then q.propertyType else None,
      if q.hasRoadAccess.Some? then Some(q.hasRoadAccess.value == "true") else None,
      if Present(q.minPrice) then Some(number(q.minPrice.value)) else None,
      if Present(q.maxPrice) then Some(number(q.maxPrice.value)) else None)
  }

  /** Whether a property satisfies the filter; `cityMatches(pattern, city)` stands for the
      case-insensitive regular expression built from the `city` parameter. */
  predicate Matches(f: PropertyQuery, p: Property, cityMatches: (string, string) -> bool)
  {
    p.status == DEFAULT_STATUS &&
    (f.cityPattern.None? || cityMatches(f.cityPattern.value, p.location.city)) &&
    (f.propertyType.None? || p.propertyType == f.propertyType.value) &&
    (f.hasRoadAccess.None? || p.roadAccess.hasRoadAccess == f.hasRoadAccess.value) &&
    (f.minPrice.None? || p.price >= f.minPrice.value) &&
    (f.maxPrice.None? || p.price <= f.maxPrice.value)
  }

  /** Without parameters the catalogue is every active listing, and a price bound always holds
      of what it lets through. */
  lemma QueryBounds(q: ListQuery, number: string -> int, p: Property, cityMatches: (string, string) -> bool)
    ensures q == ListQuery(None, None, None, None, None, q.page, q.limit) ==>
      (Matches(BuildQuery(q, number), p, cityMatches) <==> p.status == DEFAULT_STATUS)
    ensures Matches(BuildQuery(q, number), p, cityMatches) && Present(q.minPrice) ==> p.price >= number(q.minPrice.value)
    ensures Matches(BuildQuery(q, number), p, cityMatches) && Present(q.maxPrice) ==> p.price <= number(q.maxPrice.value)
  {
  }

  /** `parseInt(text) || fallback`, with an absent parameter parsing to NaN. */
  function ParamOr(text: Option<string>, fallback: int): (r: int)
    ensures fallback != 0 ==> r != 0
    ensures text.None? ==> r == fallback
  {
    OrDefault(if text.Some? then ParseInt(text.value) else None, fallback)
  }

  /** `Math.max(1, parseInt(page) || 1)`. */
  function Page(text: Option<string>): (p: int)
    ensures p >= 1
    ensures text.None? ==> p == 1
    ensures text.Some? && ParseInt(text.value).Some? && ParseInt(text.value).value >= 1 ==>
      p == ParseInt(text.value).value
  {
    var n := ParamOr(text, 1);
    if n < 1 then 1 else n
  }

  /** `Math.min(50, parseInt(limit) || 10)`: at most 50, never 0, 10 by default. A negative
      parameter comes through. */
  function Limit(text: Option<string>): (l: int)
    ensures l <= MAX_LIMIT && l != 0
    ensures text.None? ==> l == DEFAULT_LIMIT
    ensures text.Some? && ParseInt(text.value).Some? && 0 < ParseInt(text.value).value <= MAX_LIMIT ==>
      l == ParseInt(text.value).value
  {
    var n := ParamOr(text, DEFAULT_LIMIT);
    if n < MAX_LIMIT then n else MAX_LIMIT
  }

  /** `Math.ceil(total / limit)`: the least whole number of pages whose product with the limit
      reaches the total, for either sign of the limit. */
  function PageCount(total: nat, limit: int): (pages: int)
    requires limit != 0
    ensures limit > 0 ==> pages * limit >= total && (pages - 1) * limit < total
    ensures limit < 0 ==> pages * limit <= total && (pages - 1) * limit > total
  {
    if limit > 0 then
      var q := (total + limit - 1) / limit;
      CeilingBounds(total, limit);
      q
    else
      var q := total / (-limit);
      FloorBounds(total, -limit);
      -q
  }

  lemma CeilingBounds(total: nat, limit: int)
    requires limit > 0
    ensures var q := (total + limit - 1) / limit; q * limit >= total && (q - 1) * limit < total
  {
    var n := total + limit - 1;
    var q := n / limit;
    assert n == q * limit + n % limit;
  }

  lemma FloorBounds(total: nat, m: int)
    requires m > 0
    ensures var q := total / m; q * m <= total && (q + 1) * m > total
  {
    var q := total / m;
    assert total == q * m + total % m;
  }

  /** The skip `(page - 1) * limit` is negative exactly for a later page with a negative limit. */
  lemma SkipSign(page: int, limit: int)
    requires page >= 1 && limit != 0
    ensures (page - 1) * limit < 0 <==> page > 1 && limit < 0
  {
    if page > 1 {
      if limit < 0 { assert (page - 1) * limit <= limit; } else { assert (page - 1) * limit >= limit; }
    }
  }

  /** Positions `skip` up to `skip + count` of `s`, as `skip` then `limit` select them. */
  function Window<T>(s: seq<T>, skip: nat, count: nat): (r: seq<T>)
    ensures |r| == (if skip >= |s| then 0 else if |s| - skip < count then |s| - skip else count)
    ensures forall i :: 0 <= i < |r| ==> skip + i < |s| && r[i] == s[skip + i]
  {
    if skip >= |s| then [] else if |s| - skip < count then s[skip..] else s[skip..skip + count]
  }

  /** A listing as public reads return it: every field except `seller`. */
  datatype PublicProperty = PublicProperty(id: Id, title: string, description: Option<string>,
                                           propertyType: string, area: Area, price: int, location: Location,
                                           roadAccess: RoadAccess, amenities: Amenities, facing: Option<string>,
                                           images: seq<Image>, status: string, isFeatured: bool,
                                           createdAt: int, updatedAt: int)

  /** The stored document with the seller put back. */
  function WithSeller(v: PublicProperty, seller: Id): Property
  {
    Property(v.id, seller, v.title, v.description, v.propertyType, v.area, v.price, v.location,
             v.roadAccess, v.amenities, v.facing, v.images, v.status, v.isFeatured, v.createdAt, v.updatedAt)
  }

  /** `.select("-seller")`: the view loses the seller and nothing else. */
  function WithoutSeller(p: Property): (v: PublicProperty)
    ensures WithSeller(v, p.seller) == p
  {
    PublicProperty(p.id, p.title, p.description, p.propertyType, p.area, p.price, p.location,
                   p.roadAccess, p.amenities, p.facing, p.images, p.status, p.isFeatured, p.createdAt, p.updatedAt)
  }

  /** Two listings that differ only in their seller look the same to the public. */
  lemma SellerHidden(p: Property, seller: Id)
    ensures WithoutSeller(p.(seller := seller)) == WithoutSeller(p)
  {
  }

  function Views(ps: seq<Property>): (r: seq<PublicProperty>)
    ensures |r| == |ps| && forall i :: 0 <= i < |ps| ==> r[i] == WithoutSeller(ps[i])
  {
    if ps == [] then [] else [WithoutSeller(ps[0])] + Views(ps[1..])
  }

  /** The body of a catalogue reply. */
  datatype ListingPage = ListingPage(total: nat, page: int, pages: int, properties: seq<PublicProperty>)

  /** The listings that pass the filter, newest first: the one order every page is cut from. */
  function CatalogueOrder(properties: seq<Property>, f: PropertyQuery, cityMatches: (string, string) -> bool)
    : (s: seq<Property>)
    ensures |s| == MatchCount(properties, f, cityMatches)
    ensures SortedDesc(s, (p: Property) => p.createdAt)
    ensures multiset(s) == multiset(Filter(properties, (p: Property) => Matches(f, p, cityMatches)))
  {
    var matched := Filter(properties, (p: Property) => Matches(f, p, cityMatches));
    var s := SortDesc(matched, (p: Property) => p.createdAt);
    assert |multiset(s)| == |multiset(matched)|;
    s
  }

  /** The listings on one page: those that pass the filter, newest first, from position `skip`,
      at most `count` of them, without their seller. */
  function Catalogue(properties: seq<Property>, f: PropertyQuery, cityMatches: (string, string) -> bool,
                     skip: nat, count: nat): (r: seq<PublicProperty>)
    ensures var total := MatchCount(properties, f, cityMatches);
      |r| == (if skip >= total then 0 else if total - skip < count then total - skip else count)
    ensures r == Views(Window(CatalogueOrder(properties, f, cityMatches), skip, count))
    ensures SortedDesc(r, (v: PublicProperty) => v.createdAt)
    ensures forall v :: v in r ==> exists p :: p in properties && Matches(f, p, cityMatches) && v == WithoutSeller(p)
  {
    var keep := (p: Property) => Matches(f, p, cityMatches);
    var sorted := CatalogueOrder(properties, f, cityMatches);
    CatalogueViews(properties, keep, sorted, skip, count);
    Views(Window(sorted, skip, count))
  }

  /** The number of listings that pass the filter, as `countDocuments` gives it. */
  function MatchCount(properties: seq<Property>, f: PropertyQuery, cityMatches: (string, string) -> bool): nat
  {
    |Filter(properties, (p: Property) => Matches(f, p, cityMatches))|
  }

  /** `getAllProperties`. `compiles(pattern)` says whether `new RegExp(pattern, "i")` accepts the
      `city` parameter; one it rejects throws a `SyntaxError` before anything is read, which the
      error handler turns into the generic 500. A negative `limit` reads at most that many listings
      in absolute value, as the driver does; with it any page after the first has a negative skip,
      which MongoDB refuses. */
  function GetAllProperties(properties: seq<Property>, q: ListQuery, number: string -> int,
                            compiles: string -> bool, cityMatches: (string, string) -> bool)
    : (r: Result<ListingPage>)
    ensures r.Err? <==> (Present(q.city) && !compiles(q.city.value)) || (Page(q.page) > 1 && Limit(q.limit) < 0)
    ensures r.Err? ==> r.error == INTERNAL_ERROR
    ensures r.Ok? ==>
      var f := BuildQuery(q, number);
      var page := Page(q.page);
      var limit := Limit(q.limit);
      var skip := (page - 1) * limit;
      skip >= 0 &&
      r.value == ListingPage(MatchCount(properties, f, cityMatches), page,
                             PageCount(MatchCount(properties, f, cityMatches), limit),
                             Catalogue(properties, f, cityMatches, skip, if limit < 0 then -limit else limit))
  {
    var f := BuildQuery(q, number);
    var page := Page(q.page);
    var limit := Limit(q.limit);
    var skip := (page - 1) * limit;
    SkipSign(page, limit);
    if f.cityPattern.Some? && !compiles(f.cityPattern.value) then Err(INTERNAL_ERROR)
    else if skip < 0 then Err(INTERNAL_ERROR)
    else
      var total := MatchCount(properties, f, cityMatches);
      Ok(ListingPage(total, page, PageCount(total, limit),
                     Catalogue(properties, f, cityMatches, skip, if limit < 0 then -limit else limit)))
  }

  /** Two windows side by side make one window twice as long. */
  lemma WindowConcat<T>(s: seq<T>, skip: nat, a: nat, b: nat)
    ensures Window(s, skip, a) + Window(s, skip + a, b) == Window(s, skip, a + b)
  {
    if skip < |s| && skip + a < |s| {
      var end := if |s| - skip < a + b then |s| else skip + a + b;
      assert s[skip..skip + a] + s[skip + a..end] == s[skip..end];
    }
  }

  lemma ViewsConcat(a: seq<Property>, b: seq<Property>)
    ensures Views(a + b) == Views(a) + Views(b)
  {
    assert forall i :: 0 <= i < |a + b| ==> Views(a + b)[i] == (Views(a) + Views(b))[i];
  }

  /** The `count` listings after a window continue it. */
  lemma CatalogueContinues(properties: seq<Property>, f: PropertyQuery, cityMatches: (string, string) -> bool,
                           skip: nat, count: nat)
    ensures Catalogue(properties, f, cityMatches, skip, count) +
            Catalogue(properties, f, cityMatches, skip + count, count) ==
            Catalogue(properties, f, cityMatches, skip, 2 * count)
  {
    var sorted := CatalogueOrder(properties, f, cityMatches);
    WindowConcat(sorted, skip, count, count);
    ViewsConcat(Window(sorted, skip, count), Window(sorted, skip + count, count));
  }

  /** Page after page, the catalogue neither skips nor repeats a listing: with a positive limit,
      page `n + 1` continues page `n` over the same sorted list (pages counted from 0 here). */
  lemma {:induction false} NextPageContinues(properties: seq<Property>, f: PropertyQuery,
                                             cityMatches: (string, string) -> bool, page: nat, limit: nat)
    ensures Catalogue(properties, f, cityMatches, page * limit, limit) +
            Catalogue(properties, f, cityMatches, (page + 1) * limit, limit) ==
            Catalogue(properties, f, cityMatches, page * limit, 2 * limit)
  {
    NextSkip(page, limit);
    CatalogueContinues(properties, f, cityMatches, page * limit, limit);
  }

  lemma NextSkip(page: nat, limit: nat)
    ensures page * limit >= 0 && (page + 1) * limit == page * limit + limit
  {
  }

  /** A page at least as long as the matches, from the start, shows every match exactly once. */
  lemma {:induction false} WholeCatalogue(properties: seq<Property>, f: PropertyQuery,
                                          cityMatches: (string, string) -> bool, count: nat)
    requires count >= MatchCount(properties, f, cityMatches)
    ensures Catalogue(properties, f, cityMatches, 0, count) == Views(CatalogueOrder(properties, f, cityMatches))
  {
    var sorted := CatalogueOrder(properties, f, cityMatches);
    assert Window(sorted, 0, count) == sorted;
  }

  lemma CatalogueViews(properties: seq<Property>, keep: Property -> bool, sorted: seq<Property>,
                       skip: nat, count: nat)
    requires multiset(sorted) == multiset(Filter(properties, keep))
    requires SortedDesc(sorted, (p: Property) => p.createdAt)
    ensures var views := Views(Window(sorted, skip, count));
      SortedDesc(views, (v: PublicProperty) => v.createdAt) &&
      forall v :: v in views ==> exists p :: p in properties && keep(p) && v == WithoutSeller(p)
  {
    var shown := Window(sorted, skip, count);
    var views := Views(shown);
    forall v | v in views ensures exists p :: p in properties && keep(p) && v == WithoutSeller(p) {
      var i :| 0 <= i < |views| && views[i] == v;
      var p := shown[i];
      assert p in sorted;
      assert p in multiset(Filter(properties, keep));
      FilterMembers(properties, keep, p);
    }
  }

  /** `getProperty`: the public view of one listing. */
  function GetProperty(properties: seq<Property>, id: Id): (r: Result<PublicProperty>)
    ensures r.Err? <==> forall k :: 0 <= k < |properties| ==> properties[k].id != id
    ensures r.Err? ==> r.error == PROPERTY_NOT_FOUND
    ensures r.Ok? ==> exists k :: 0 <= k < |properties| && properties[k].id == id && r.value == WithoutSeller(properties[k])
  {
    match FindProperty(properties, id)
    case None => Err(PROPERTY_NOT_FOUND)
    case Some(k) => Ok(WithoutSeller(properties[k]))
  }

  // ---------------------------------------------------------------- the seller's listings

  /** `getMyListings`: the caller's listings, newest first, with their count; the seller is kept. */
  function GetMyListings(properties: seq<Property>, seller: Id): (r: (nat, seq<Property>))
    ensures r.0 == |r.1|
    ensures SortedDesc(r.1, (p: Property) => p.createdAt)
    ensures forall p :: p in r.1 <==> p in properties && p.seller == seller
    ensures forall p :: multiset(r.1)[p] == if p.seller == seller then multiset(properties)[p] else 0
  {
    var mine := Filter(properties, (p: Property) => p.seller == seller);
    var sorted := SortDesc(mine, (p: Property) => p.createdAt);
    forall p ensures p in sorted <==> p in properties && p.seller == seller {
      FilterMembers(properties, (p: Property) => p.seller == seller, p);
      assert p in sorted <==> p in multiset(sorted);
    }
    forall p ensures multiset(sorted)[p] == if p.seller == seller then multiset(properties)[p] else 0 {
      FilterMultiplicity(properties, (p: Property) => p.seller == seller, p);
    }
    (|sorted|, sorted)
  }

  /** The area of a request body. */
  datatype AreaInput = AreaInput(value: int, unit: Option<string>)

  /** The fields of a create request, already parsed from the multipart body. */
  datatype PropertyInput = PropertyInput(title: string, description: Option<string>, propertyType: string,
                                         price: int, area: AreaInput, location: Location,
                                         roadAccess: Option<RoadAccess>, amenities: Option<Amenities>,
                                         facing: Option<string>)

  /** The schema defaults of the nested objects a request leaves out. */
  const DEFAULT_ROAD_ACCESS: RoadAccess := RoadAccess(false, Distance(None, "meters"), None)
  const NO_AMENITIES: Amenities := Amenities(false, false, false, false)

  /** Images for URLs sent in the body; `mint(i)` stands for the timestamp-and-random public id
      given to the `i`-th. */
  function MintImages(urls: seq<string>, mint: nat -> string): (r: seq<Image>)
    ensures |r| == |urls| && forall i :: 0 <= i < |urls| ==> r[i] == Image(mint(i), urls[i])
  {
    seq(|urls|, i requires 0 <= i < |urls| => Image(mint(i), urls[i]))
  }

  /** The images a new listing starts with: the uploaded files, else the URLs in the body, else
      the placeholder, so there is always at least one. */
  function ImagesFor(uploaded: seq<Image>, urls: seq<string>, mint: nat -> string): (r: seq<Image>)
    ensures |r| >= 1
    ensures uploaded != [] ==> r == uploaded
    ensures uploaded == [] && urls != [] ==> r == MintImages(urls, mint)
    ensures uploaded == [] && urls == [] ==> r == [DEFAULT_IMAGE]
  {
    if uploaded != [] then uploaded else if urls != [] then MintImages(urls, mint) else [DEFAULT_IMAGE]
  }

  /** The document `Property.create` is given: the text fields trimmed by the schema, the facing
      and unit normalised, and the schema defaults for what the request leaves out. */
  function NewProperty(id: Id, seller: Id, input: PropertyInput, images: seq<Image>, now: int): Property
  {
    var unit := if input.area.unit.None? then Some(DEFAULT_AREA_UNIT) else NormalizeAreaUnit(input.area.unit);
    Property(id, seller, Trim(input.title),
             if input.description.Some? then Some(Trim(input.description.value)) else None,
             input.propertyType, Area(input.area.value, unit), input.price, input.location,
             if input.roadAccess.Some? then input.roadAccess.value else DEFAULT_ROAD_ACCESS,
             if input.amenities.Some? then input.amenities.value else NO_AMENITIES,
             NormalizeFacing(input.facing), images, DEFAULT_STATUS, false, now, now)
  }

  /** A created listing belongs to its creator, is active, not featured, and shows the facing and
      unit in their normal form. */
  lemma NewPropertyShape(id: Id, seller: Id, input: PropertyInput, images: seq<Image>, now: int)
    ensures var p := NewProperty(id, seller, input, images, now);
      p.seller == seller && p.status == DEFAULT_STATUS && !p.isFeatured && p.images == images &&
      p.createdAt == now && p.updatedAt == now &&
      (Present(input.facing) ==> NoSep(p.facing.value) && IsLower(p.facing.value)) &&
      (p.area.unit.Some? && p.area.unit.value != [] ==> IsLower(p.area.unit.value))
  {
    if input.area.unit.None? {
      assert PlainWord(DEFAULT_AREA_UNIT);
      PlainWordIsNormal(DEFAULT_AREA_UNIT);
    }
  }

  /** Mongoose validation of a document about to be written: the document itself when it passes,
      else the production reply listing every failed constraint. */
  function Validated(p: Property): (r: Result<Property>)
    ensures r.Ok? <==> PropertyValid(p)
    ensures r.Ok? ==> r.value == p
  {
    if PropertyValid(p) then Ok(p) else Err(ValidationFailure(PropertyErrors(p)))
  }

  lemma AppendKeepsProperties(ps: seq<Property>, p: Property)
    requires PropertiesValid(ps) && PropertyValid(p)
    requires forall k :: 0 <= k < |ps| ==> ps[k].id != p.id
    ensures PropertiesValid(ps + [p])
  {
  }

    /** `Property.create`: the document is stored when it passes validation, and nothing is
      written otherwise. */
  method Insert(db: Database, p: Property) returns (r: Result<Property>)
    requires db.Valid()
    requires forall k :: 0 <= k < |db.properties| ==> db.properties[k].id != p.id
    modifies db
    ensures db.Valid()
    ensures db.users == old(db.users) && db.payments == old(db.payments) && db.unlocks == old(db.unlocks)
    ensures r == Validated(p)
    ensures db.properties == if r.Ok? then old(db.properties) + [p] else old(db.properties)
  {
    r := Validated(p);
    if r.Ok? {
      AppendKeepsProperties(db.properties, p);
      db.properties := db.properties + [p];
    }
  }

/** `createProperty` for a caller the route has authenticated as a seller. `uploaded` is what
      the image host returned for the attached files. */
  method CreateProperty(db: Database, caller: User, input: PropertyInput, uploaded: seq<Image>,
                        urls: seq<string>, mint: nat -> string, newId: Id, now: int)
    returns (r: Result<Property>)
    requires db.Valid() && caller.role == Seller
    requires forall k :: 0 <= k < |db.properties| ==> db.properties[k].id != newId
    modifies db
    ensures db.Valid()
    ensures db.users == old(db.users) && db.payments == old(db.payments) && db.unlocks == old(db.unlocks)
    ensures r == Validated(NewProperty(newId, caller.id, input, ImagesFor(uploaded, urls, mint), now))
    ensures db.properties == if r.Ok? then old(db.properties) + [r.value] else old(db.properties)
    ensures r.Ok? ==> r.value.seller == caller.id && |r.value.images| >= 1
  {
    var images: seq<Image> := [];
    if |uploaded| > 0 {
      images := uploaded;
    } else if |urls| > 0 {
      images := MintImages(urls, mint);
    }
    if |images| == 0 {
      images := [DEFAULT_IMAGE];
    }
    var p := NewProperty(newId, caller.id, input, images, now);
    r := Insert(db, p);
  }

  /** The 404 and 403 checks the seller's operations share: the position of the listing with
      that id, provided the caller is its seller. */
  function OwnerGate(properties: seq<Property>, id: Id, caller: Id, forbidden: ApiError): (r: Result<nat>)
    requires forbidden.statusCode == 403
    ensures r.Ok? ==> r.value < |properties| && properties[r.value].id == id && properties[r.value].seller == caller
    ensures r == Err(PROPERTY_NOT_FOUND) <==> forall k :: 0 <= k < |properties| ==> properties[k].id != id
    ensures r.Err? && r != Err(PROPERTY_NOT_FOUND) ==>
      r.error == forbidden && exists k :: 0 <= k < |properties| && properties[k].id == id && properties[k].seller != caller
  {
    match FindProperty(properties, id)
    case None => Err(PROPERTY_NOT_FOUND)
    case Some(k) => if properties[k].seller != caller then Err(forbidden) else Ok(k)
  }

  /** Under the unique id, the gate lets the caller through exactly when the listing is theirs. */
  lemma OwnerGateOwned(properties: seq<Property>, id: Id, caller: Id, forbidden: ApiError, k: nat)
    requires forbidden.statusCode == 403 && DistinctPropertyIds(properties)
    requires k < |properties| && properties[k].id == id
    ensures OwnerGate(properties, id, caller, forbidden).Ok? <==> properties[k].seller == caller
    ensures OwnerGate(properties, id, caller, forbidden).Ok? ==> OwnerGate(properties, id, caller, forbidden).value == k
  {
  }

  /** The fields of an update request; `None` for a field the body does not carry. The body is
      spread into the update as it is, so it may carry `seller` too. */
  datatype Patch = Patch(seller: Option<Id>, title: Option<string>, description: Option<string>,
                         propertyType: Option<string>, price: Option<int>, area: Option<AreaInput>,
                         location: Option<Location>, roadAccess: Option<RoadAccess>,
                         amenities: Option<Amenities>, facing: Option<string>, status: Option<string>,
                         isFeatured: Option<bool>)

  const EMPTY_PATCH: Patch := Patch(None, None, None, None, None, None, None, None, None, None, None, None)

  function Pick<T>(o: Option<T>, current: T): T
  {
    if o.Some? then o.value else current
  }

  /** The document `findByIdAndUpdate` produces: each field the body carries replaces the stored
      one (trimmed or normalised as on create), the new images are pushed after the old ones. */
  function ApplyPatch(p: Property, u: Patch, newImages: seq<Image>, now: int): (q: Property)
    ensures q.id == p.id && q.createdAt == p.createdAt && q.updatedAt == now
    ensures q.images == p.images + newImages
    ensures u == EMPTY_PATCH ==> q == p.(images := p.images + newImages, updatedAt := now)
  {
    Property(p.id, Pick(u.seller, p.seller),
             if u.title.Some? then Trim(u.title.value) else p.title,
             if u.description.Some? then Some(Trim(u.description.value)) else p.description,
             Pick(u.propertyType, p.propertyType),
             if u.area.Some? then Area(u.area.value.value, NormalizeAreaUnit(u.area.value.unit)) else p.area,
             Pick(u.price, p.price), Pick(u.location, p.location), Pick(u.roadAccess, p.roadAccess),
             Pick(u.amenities, p.amenities),
             if u.facing.Some? then NormalizeFacing(u.facing) else p.facing,
             p.images + newImages, Pick(u.status, p.status), Pick(u.isFeatured, p.isFeatured),
             p.createdAt, now)
  }

  /** The files `updateProperty` uploads: as many of the attached ones as still fit under the
      cap of ten, in order. */
  function AcceptedImages(current: nat, files: seq<Image>): (r: seq<Image>)
    requires files != [] ==> current < MAX_IMAGES
    ensures |r| <= |files| && r == files[..|r|]
    ensures files != [] ==> current + |r| <= MAX_IMAGES
    ensures |r| == |files| || current + |r| == MAX_IMAGES
  {
    if files == [] then []
    else if |files| <= MAX_IMAGES - current then files
    else files[..MAX_IMAGES - current]
  }

  lemma ReplaceKeepsProperties(ps: seq<Property>, i: nat, q: Property)
    requires PropertiesValid(ps) && i < |ps| && q.id == ps[i].id && PropertyValid(q)
    ensures PropertiesValid(ps[i := q])
  {
    var qs := ps[i := q];
    assert forall k :: 0 <= k < |qs| ==> qs[k].id == ps[k].id;
  }

    /** The write of `findByIdAndUpdate` with validators on: the stored document at position `i`
      becomes `q` when `q` passes validation, and nothing is written otherwise. */
  method Replace(db: Database, i: nat, q: Property) returns (r: Result<Property>)
    requires db.Valid() && i < |db.properties| && q.id == db.properties[i].id
    modifies db
    ensures db.Valid()
    ensures db.users == old(db.users) && db.payments == old(db.payments) && db.unlocks == old(db.unlocks)
    ensures r == Validated(q)
    ensures db.properties == if r.Ok? then old(db.properties)[i := q] else old(db.properties)
  {
    r := Validated(q);
    if r.Ok? {
      ReplaceKeepsProperties(db.properties, i, q);
      db.properties := db.properties[i := q];
    }
  }

/** `updateProperty` for a caller the route has authenticated as a seller; `files` stands for
      the attached files as the image host would store them. */
  method UpdateProperty(db: Database, caller: User, id: Id, patch: Patch, files: seq<Image>, now: int)
    returns (r: Result<Property>)
    requires db.Valid() && caller.role == Seller
    modifies db
    ensures db.Valid()
    ensures db.users == old(db.users) && db.payments == old(db.payments) && db.unlocks == old(db.unlocks)
    ensures var g := OwnerGate(old(db.properties), id, caller.id, UPDATE_FORBIDDEN);
      g.Err? ==> r == Err(g.error) && db.properties == old(db.properties)
    ensures var g := OwnerGate(old(db.properties), id, caller.id, UPDATE_FORBIDDEN);
      g.Ok? && files != [] && |old(db.properties)[g.value].images| >= MAX_IMAGES ==>
        r == Err(IMAGES_FULL) && db.properties == old(db.properties)
    ensures var g := OwnerGate(old(db.properties), id, caller.id, UPDATE_FORBIDDEN);
      g.Ok? && (files == [] || |old(db.properties)[g.value].images| < MAX_IMAGES) ==>
        var p := old(db.properties)[g.value];
        var q := ApplyPatch(p, patch, AcceptedImages(|p.images|, files), now);
        r == Validated(q) &&
        db.properties == if r.Ok? then old(db.properties)[g.value := q] else old(db.properties)
    ensures r.Ok? ==> |r.value.images| <= MAX_IMAGES
  {
    var g := OwnerGate(db.properties, id, caller.id, UPDATE_FORBIDDEN);
    if g.Err? {
      return Err(g.error);
    }
    var i := g.value;
    var p := db.properties[i];
    var newImages: seq<Image> := [];
    if |files| > 0 {
      var remaining := MAX_IMAGES - |p.images|;
      if remaining <= 0 {
        return Err(IMAGES_FULL);
      }
      newImages := AcceptedImages(|p.images|, files);
    }
    var q := ApplyPatch(p, patch, newImages, now);
    r := Replace(db, i, q);
  }

  lemma RemoveKeepsProperties(ps: seq<Property>, i: nat, qs: seq<Property>)
    requires PropertiesValid(ps) && i < |ps| && qs == ps[..i] + ps[i + 1..]
    ensures PropertiesValid(qs)
    ensures forall k :: 0 <= k < |qs| ==> qs[k].id != ps[i].id
  {
    assert forall k :: 0 <= k < |qs| ==> qs[k] == (if k < i then ps[k] else ps[k + 1]);
  }

  /** `deleteProperty` for a caller the route has authenticated as a seller. `destroyed` is the
      outcome of deleting the listing's images from Cloudinary, which is only asked for when there
      are images; a rejected deletion is the generic 500, with the listing still stored. */
  method DeleteProperty(db: Database, caller: User, id: Id, destroyed: bool) returns (r: Result<string>)
    requires db.Valid() && caller.role == Seller
    modifies db
    ensures db.Valid()
    ensures db.users == old(db.users) && db.payments == old(db.payments) && db.unlocks == old(db.unlocks)
    ensures var g := OwnerGate(old(db.properties), id, caller.id, DELETE_FORBIDDEN);
      g.Err? ==> r == Err(g.error) && db.properties == old(db.properties)
    ensures var g := OwnerGate(old(db.properties), id, caller.id, DELETE_FORBIDDEN);
      g.Ok? && old(db.properties)[g.value].images != [] && !destroyed ==>
        r == Err(INTERNAL_ERROR) && db.properties == old(db.properties)
    ensures var g := OwnerGate(old(db.properties), id, caller.id, DELETE_FORBIDDEN);
      g.Ok? && (old(db.properties)[g.value].images == [] || destroyed) ==>
        r == Ok(DELETED_MESSAGE) && db.properties == old(db.properties)[..g.value] + old(db.properties)[g.value + 1..]
    ensures r.Ok? ==> forall k :: 0 <= k < |db.properties| ==> db.properties[k].id != id
  {
    var g := OwnerGate(db.properties, id, caller.id, DELETE_FORBIDDEN);
    if g.Err? {
      return Err(g.error);
    }
    var i := g.value;
    if db.properties[i].images != [] && !destroyed {
      return Err(INTERNAL_ERROR);
    }
    RemoveKeepsProperties(db.properties, i, db.properties[..i] + db.properties[i + 1..]);
    db.properties := db.properties[..i] + db.properties[i + 1..];
    r := Ok(DELETED_MESSAGE);
  }

  /** `images.filter(img => img.public_id !== publicId)`: every image with that public id goes,
      the others stay in order. */
  function WithoutImage(images: seq<Image>, publicId: string): (r: seq<Image>)
    ensures forall img :: img in r <==> img in images && img.publicId != publicId
    ensures (exists k :: 0 <= k < |images| && images[k].publicId == publicId) ==> |r| < |images|
    ensures (forall k :: 0 <= k < |images| ==> images[k].publicId != publicId) ==> r == images
  {
    var keep := (img: Image) => img.publicId != publicId;
    forall img ensures img in Filter(images, keep) <==> img in images && keep(img) {
      FilterMembers(images, keep, img);
    }
    if exists k :: 0 <= k < |images| && images[k].publicId == publicId then
      var k :| 0 <= k < |images| && images[k].publicId == publicId;
      FilterShorter(images, keep, k);
      Filter(images, keep)
    else
      FilterAll(images, keep);
      Filter(images, keep)
  }

  /** Dropping images from a valid listing leaves it valid. */
  lemma FewerImagesValid(p: Property, images: seq<Image>, now: int)
    requires PropertyValid(p) && |images| <= |p.images| && forall img :: img in images ==> img in p.images
    ensures PropertyValid(p.(images := images, updatedAt := now))
  {
    var q := p.(images := images, updatedAt := now);
    forall i | 0 <= i < |images| ensures images[i].publicId != [] && images[i].url != [] {
      assert images[i] in p.images;
    }
    assert TailFieldsOk(q);
  }

  /** `deletePropertyImage` for a caller the route has authenticated as a seller; the reply
      carries the images that remain. `publicId` is the route parameter as the router hands it
      over, and `decode` is `decodeURIComponent`, applied to it once more: `None` stands for the
      `URIError` a malformed escape such as "100%" throws, which reaches the error handler as an
      error that is not operational, so the reply is the generic 500 and nothing changes.
      `destroyed` is the outcome of the Cloudinary deletion; a rejected one is the same 500, with
      the listing unchanged. */
  method DeletePropertyImage(db: Database, caller: User, id: Id, publicId: string,
                             decode: string -> Option<string>, destroyed: bool, now: int)
    returns (r: Result<seq<Image>>)
    requires db.Valid() && caller.role == Seller
    modifies db
    ensures db.Valid()
    ensures db.users == old(db.users) && db.payments == old(db.payments) && db.unlocks == old(db.unlocks)
    ensures var g := OwnerGate(old(db.properties), id, caller.id, IMAGE_FORBIDDEN);
      g.Err? ==> r == Err(g.error) && db.properties == old(db.properties)
    ensures var g := OwnerGate(old(db.properties), id, caller.id, IMAGE_FORBIDDEN);
      g.Ok? && decode(publicId).None? ==> r == Err(INTERNAL_ERROR) && db.properties == old(db.properties)
    ensures var g := OwnerGate(old(db.properties), id, caller.id, IMAGE_FORBIDDEN);
      g.Ok? && decode(publicId).Some? ==>
        var p := old(db.properties)[g.value];
        var target := decode(publicId).value;
        ((forall k :: 0 <= k < |p.images| ==> p.images[k].publicId != target) ==>
           r == Err(IMAGE_NOT_FOUND) && db.properties == old(db.properties)) &&
        ((exists k :: 0 <= k < |p.images| && p.images[k].publicId == target) && !destroyed ==>
           r == Err(INTERNAL_ERROR) && db.properties == old(db.properties)) &&
        ((exists k :: 0 <= k < |p.images| && p.images[k].publicId == target) && destroyed ==>
           r == Ok(WithoutImage(p.images, target)) &&
           db.properties == old(db.properties)[g.value := p.(images := WithoutImage(p.images, target), updatedAt := now)])
  {
    var g := OwnerGate(db.properties, id, caller.id, IMAGE_FORBIDDEN);
    if g.Err? {
      return Err(g.error);
    }
    var decoded := decode(publicId);
    if decoded.None? {
      return Err(INTERNAL_ERROR);
    }
    var target := decoded.value;
    var i := g.value;
    var p := db.properties[i];
    if forall k :: 0 <= k < |p.images| ==> p.images[k].publicId != target {
      return Err(IMAGE_NOT_FOUND);
    }
    if !destroyed {
      return Err(INTERNAL_ERROR);
    }
    var images := WithoutImage(p.images, target);
    var q := p.(images := images, updatedAt := now);
    FewerImagesValid(p, images, now);
    ReplaceKeepsProperties(db.properties, i, q);
    db.properties := db.properties[i := q];
    r := Ok(images);
  }
}
