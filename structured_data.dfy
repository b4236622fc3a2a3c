/**
 * The JSON-LD block of a page: a schema.org `RealEstateAgent` for the
 * organisation, a `RealEstateListing` for one listing, or nothing. The
 * objects carry `@context` (section 3.1 of JSON-LD 1.1) and `@type`
 * (section 3.5 of JSON-LD 1.1).
 */
module StructuredData {
  import opened Wrappers
  import opened Text
  import opened Json
  import opened Listing

  /** The kinds of block a page may ask for. */
  datatype Kind = PropertyKind | OrganizationKind | BreadcrumbKind

  const SchemaContext: string := "https://schema.org"
  const ListingUrlPrefix: string := "https://vhorizonproperties.com/property/"

  /** The keys of the organisation object, in source order. */
  const OrganizationKeys: seq<string> := ["@context", "@type", "name", "url", "logo", "description", "address"]

  /** The keys of a listing object, in source order. */
  const ListingKeys: seq<string> :=
    ["@context", "@type", "name", "description", "url", "image", "price", "address", "numberOfRooms", "numberOfBathroomsTotal", "floorSize"]

  lemma OrganizationKeysDistinct()
    ensures forall i, j :: 0 <= i < j < |OrganizationKeys| ==> OrganizationKeys[i] != OrganizationKeys[j]
  {
  }

  lemma ListingKeysDistinct()
    ensures forall i, j :: 0 <= i < j < |ListingKeys| ==> ListingKeys[i] != ListingKeys[j]
  {
  }

  /** The organisation's postal address. */
  const OrganizationAddress: Value :=
    Obj(Zip(["@type", "addressCountry", "addressRegion"], [Str("PostalAddress"), Str("IN"), Str("Delhi")]))

  /** The values of the organisation object, beside `OrganizationKeys`. */
  const OrganizationValues: seq<Value> :=
    [ Str(SchemaContext), Str("RealEstateAgent"), Str("V Horizon Properties"),
      Str("https://vhorizonproperties.com"), Str("https://vhorizonproperties.com/logo.png"),
      Str("Leading real estate agency in Delhi NCR"), OrganizationAddress ]

  /** `https://vhorizonproperties.com/property/${data.id}`. */
  function ListingUrl(id: int): (r: string)
    ensures |ListingUrlPrefix| < |r| && r[..|ListingUrlPrefix|] == ListingUrlPrefix
  {
    ListingUrlPrefix + IntString(id)
  }

  /** The values of a listing object, beside `ListingKeys`. */
  function ListingValues(data: Property): (vs: seq<Value>)
    ensures |vs| == |ListingKeys|
  {
    [ Str(SchemaContext), Str("RealEstateListing"), Str(data.title), Str(data.description),
      Str(ListingUrl(data.id)), Str(data.heroImage),
      Obj(Zip(["@type", "price", "priceCurrency"], [Str("PriceSpecification"), Num(data.price), Str("INR")])),
      Obj(Zip(["@type", "addressLocality", "addressCountry"], [Str("PostalAddress"), Str(data.location), Str("IN")])),
      Num(data.beds), Num(data.baths),
      Obj(Zip(["@type", "value", "unitCode"], [Str("QuantitativeValue"), Num(data.sqft), Str("SQF")])) ]
  }

  /** `getStructuredData()`: the object for the asked kind, or `null`. */
  function GetStructuredData(kind: Kind, data: Option<Property>): (r: Value)
    ensures r.Null? || r.Obj?
    ensures r.Null? <==> kind.BreadcrumbKind? || (kind.PropertyKind? && data.None?)
  {
    match kind
    case OrganizationKind => Obj(Zip(OrganizationKeys, OrganizationValues))
    case PropertyKind => if data.None? then Null else Obj(Zip(ListingKeys, ListingValues(data.value)))
    case BreadcrumbKind => Null
  }

  /** The object placed in the `application/ld+json` script, or nothing when there is no object. */
  function Render(kind: Kind, data: Option<Property>): (r: Option<Value>)
    ensures r.None? <==> !Truthy(GetStructuredData(kind, data))
    ensures r.Some? ==> r.value == GetStructuredData(kind, data) && r.value.Obj?
  {
    var d := GetStructuredData(kind, data);
    if Truthy(d) then Some(d) else None
  }

  /** Each key of the organisation object reads the value beside it. */
  lemma OrganizationField(data: Option<Property>, i: nat, key: string)
    requires i < |OrganizationKeys| && OrganizationKeys[i] == key
    ensures Get(GetStructuredData(OrganizationKind, data).fields, key) == OrganizationValues[i]
  {
    OrganizationKeysDistinct();
    ZipGet(OrganizationKeys, OrganizationValues, i);
  }

  /** Each key of a listing object reads the value beside it. */
  lemma ListingField(data: Property, i: nat, key: string)
    requires i < |ListingKeys| && ListingKeys[i] == key
    ensures Get(GetStructuredData(PropertyKind, Some(data)).fields, key) == ListingValues(data)[i]
  {
    ListingKeysDistinct();
    ZipGet(ListingKeys, ListingValues(data), i);
  }

  /** Each key of a three-field nested object (address, price, floor size) reads the value beside it. */
  lemma NestedField(ks: seq<string>, vs: seq<Value>, i: nat, key: string)
    requires |ks| == |vs| == 3 && i < 3 && ks[i] == key
    requires ks[0] != ks[1] && ks[0] != ks[2] && ks[1] != ks[2]
    ensures Get(Zip(ks, vs), key) == vs[i]
  {
    ZipGet(ks, vs, i);
  }

  /** The organisation is a schema.org `RealEstateAgent` object. */
  lemma OrganizationShape(data: Option<Property>)
    ensures GetStructuredData(OrganizationKind, data).Obj?
    ensures Get(GetStructuredData(OrganizationKind, data).fields, "@context") == Str(SchemaContext)
    ensures Get(GetStructuredData(OrganizationKind, data).fields, "@type") == Str("RealEstateAgent")
  {
    OrganizationField(data, 0, "@context");
    OrganizationField(data, 1, "@type");
  }

  /** The organisation's address is a `PostalAddress` in Delhi, IN. */
  lemma OrganizationAddressShape(data: Option<Property>)
    ensures Get(GetStructuredData(OrganizationKind, data).fields, "address") == OrganizationAddress
    ensures Get(OrganizationAddress.fields, "addressCountry") == Str("IN")
    ensures Get(OrganizationAddress.fields, "addressRegion") == Str("Delhi")
  {
    OrganizationField(data, 6, "address");
    var ks := ["@type", "addressCountry", "addressRegion"];
    var vs := [Str("PostalAddress"), Str("IN"), Str("Delhi")];
    NestedField(ks, vs, 1, "addressCountry");
    NestedField(ks, vs, 2, "addressRegion");
  }

  /** A listing block is a schema.org `RealEstateListing` that names the listing. */
  lemma ListingShape(data: Property)
    ensures GetStructuredData(PropertyKind, Some(data)).Obj?
    ensures Get(GetStructuredData(PropertyKind, Some(data)).fields, "@type") == Str("RealEstateListing")
    ensures Get(GetStructuredData(PropertyKind, Some(data)).fields, "name") == Str(data.title)
  {
    ListingField(data, 1, "@type");
    ListingField(data, 2, "name");
  }

  /** A listing block links to the listing's own page. */
  lemma ListingPage(data: Property)
    ensures Get(GetStructuredData(PropertyKind, Some(data)).fields, "url") == Str(ListingUrl(data.id))
  {
    ListingField(data, 4, "url");
  }

  /** `numberOfRooms` is the bed count and `numberOfBathroomsTotal` the bath count. */
  lemma ListingRooms(data: Property)
    ensures Get(GetStructuredData(PropertyKind, Some(data)).fields, "numberOfRooms") == Num(data.beds)
    ensures Get(GetStructuredData(PropertyKind, Some(data)).fields, "numberOfBathroomsTotal") == Num(data.baths)
  {
    ListingField(data, 8, "numberOfRooms");
    ListingField(data, 9, "numberOfBathroomsTotal");
  }

  /** The price specification carries the listing's price in INR. */
  lemma ListingPrice(data: Property)
    ensures Get(GetStructuredData(PropertyKind, Some(data)).fields, "price") == ListingValues(data)[6]
    ensures Get(ListingValues(data)[6].fields, "price") == Num(data.price)
    ensures Get(ListingValues(data)[6].fields, "priceCurrency") == Str("INR")
  {
    ListingField(data, 6, "price");
    var ks := ["@type", "price", "priceCurrency"];
    var vs := [Str("PriceSpecification"), Num(data.price), Str("INR")];
    assert ListingValues(data)[6] == Obj(Zip(ks, vs));
    NestedField(ks, vs, 1, "price");
    NestedField(ks, vs, 2, "priceCurrency");
  }

  /** The floor size carries the listing's square feet with the unit code SQF. */
  lemma ListingFloorSize(data: Property)
    ensures Get(GetStructuredData(PropertyKind, Some(data)).fields, "floorSize") == ListingValues(data)[10]
    ensures Get(ListingValues(data)[10].fields, "value") == Num(data.sqft)
    ensures Get(ListingValues(data)[10].fields, "unitCode") == Str("SQF")
  {
    ListingField(data, 10, "floorSize");
    var ks := ["@type", "value", "unitCode"];
    var vs := [Str("QuantitativeValue"), Num(data.sqft), Str("SQF")];
    assert ListingValues(data)[10] == Obj(Zip(ks, vs));
    NestedField(ks, vs, 1, "value");
    NestedField(ks, vs, 2, "unitCode");
  }

  /** The listing's address is its location, in IN. */
  lemma ListingAddress(data: Property)
    ensures Get(GetStructuredData(PropertyKind, Some(data)).fields, "address") == ListingValues(data)[7]
    ensures Get(ListingValues(data)[7].fields, "addressLocality") == Str(data.location)
    ensures Get(ListingValues(data)[7].fields, "addressCountry") == Str("IN")
  {
    ListingField(data, 7, "address");
    var ks := ["@type", "addressLocality", "addressCountry"];
    var vs := [Str("PostalAddress"), Str(data.location), Str("IN")];
    assert ListingValues(data)[7] == Obj(Zip(ks, vs));
    NestedField(ks, vs, 1, "addressLocality");
    NestedField(ks, vs, 2, "addressCountry");
  }

  /** Different listings get different page URLs. */
  lemma ListingUrlsDistinct(a: int, b: int)
    ensures ListingUrl(a) == ListingUrl(b) <==> a == b
  {
    if ListingUrl(a) == ListingUrl(b) {
      assert ListingUrl(a)[|ListingUrlPrefix|..] == IntString(a);
      assert ListingUrl(b)[|ListingUrlPrefix|..] == IntString(b);
      IntStringInjective(a, b);
    }
  }
}
