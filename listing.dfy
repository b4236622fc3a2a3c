/**
 * A property listing as the storefront's components see it. Numbers are
 * whole numbers; the optional catalogue fields are `Option`s.
 */
module Listing {
  import opened Wrappers

  datatype Property = Property(
    id: int,
    title: string,
    description: string,
    location: string,
    area: string,
    price: int,
    propertyKind: string,
    status: string,
    beds: int,
    baths: int,
    sqft: int,
    heroImage: string,
    size: Option<int>,
    bedrooms: Option<int>,
    bathrooms: Option<int>,
    propertyType: Option<string>,
    amenities: Option<seq<string>>)
}
