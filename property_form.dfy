/**
 * The admin property editor: its schema, the values the form is reset to,
 * the database row it writes and the choice between update and insert.
 * zod's `.url()` verdict on the hero image is the parameter `urlAccepted`;
 * the numeric inputs are taken as already coerced to whole numbers.
 */
module PropertyForm {
  import opened Wrappers
  import opened Listing

  datatype FormValues = FormValues(
    title: string, location: string, area: string, price: int,
    kind: string, status: string, beds: int, baths: int, sqft: int,
    description: string, heroImage: string)

  const Kinds: seq<string> := ["villa", "penthouse", "estate", "commercial", "residential"]
  const Statuses: seq<string> := ["sale", "rent", "lease"]

  /** `propertySchema`. */
  predicate SchemaValid(v: FormValues, urlAccepted: bool) {
    && |v.title| >= 5 && |v.location| >= 2 && |v.area| >= 2 && |v.description| >= 10
    && v.price >= 0 && v.beds >= 0 && v.baths >= 0 && v.sqft >= 0
    && v.kind in Kinds && v.status in Statuses
    && urlAccepted
  }

  datatype FormField = Title | Location | Area | Price | Kind | Status | Beds | Baths | Sqft | Description | HeroImage

  const AllFields: set<FormField> := {Title, Location, Area, Price, Kind, Status, Beds, Baths, Sqft, Description, HeroImage}

  /** The rule of each field: minimum lengths for the texts, no negative numbers, the two enumerations and a URL. */
  predicate Broken(v: FormValues, urlAccepted: bool, f: FormField) {
    match f
    case Title => |v.title| < 5
    case Location => |v.location| < 2
    case Area => |v.area| < 2
    case Price => v.price < 0
    case Kind => v.kind !in Kinds
    case Status => v.status !in Statuses
    case Beds => v.beds < 0
    case Baths => v.baths < 0
    case Sqft => v.sqft < 0
    case Description => |v.description| < 10
    case HeroImage => !urlAccepted
  }

  lemma AllFieldsListed()
    ensures forall f: FormField :: f in AllFields
  {
    forall f: FormField ensures f in AllFields {
      match f
      case Title => case Location => case Area => case Price => case Kind => case Status =>
      case Beds => case Baths => case Sqft => case Description => case HeroImage =>
    }
  }

  /** The fields the schema rejects: the form submits exactly when there are none. */
  function FailingFields(v: FormValues, urlAccepted: bool): (r: set<FormField>)
    ensures forall f :: f in r <==> Broken(v, urlAccepted, f)
    ensures r == {} <==> SchemaValid(v, urlAccepted)
  {
    var r := set f | f in AllFields && Broken(v, urlAccepted, f);
    AllFieldsListed();
    if SchemaValid(v, urlAccepted) then
      assert forall f :: !Broken(v, urlAccepted, f);
      r
    else
      if |v.title| < 5 then assert Title in r; r
      else if |v.location| < 2 then assert Location in r; r
      else if |v.area| < 2 then assert Area in r; r
      else if v.price < 0 then assert Price in r; r
      else if v.kind !in Kinds then assert Kind in r; r
      else if v.status !in Statuses then assert Status in r; r
      else if v.beds < 0 then assert Beds in r; r
      else if v.baths < 0 then assert Baths in r; r
      else if v.sqft < 0 then assert Sqft in r; r
      else if |v.description| < 10 then assert Description in r; r
      else assert HeroImage in r; r
  }

  /** The blank form: a residential listing for sale, zero numbers and empty text. */
  const Defaults := FormValues("", "", "", 0, "residential", "sale", 0, 0, 0, "", "")

  /** The reset effect: the edited property's own values, or the blank form when adding. */
  function ResetValues(property: Option<Property>): (v: FormValues)
    ensures property.None? ==> v == Defaults
    ensures property.Some? ==>
      var p := property.value;
      && v.title == p.title && v.location == p.location && v.area == p.area && v.price == p.price
      && v.kind == p.propertyKind && v.status == p.status && v.beds == p.beds && v.baths == p.baths
      && v.sqft == p.sqft && v.description == p.description && v.heroImage == p.heroImage
  {
    if property.None? then Defaults
    else
      var p := property.value;
      FormValues(p.title, p.location, p.area, p.price, p.propertyKind, p.status, p.beds, p.baths, p.sqft, p.description, p.heroImage)
  }

  /** The blank form never passes the schema: its title is empty. */
  lemma DefaultsAreIncomplete(urlAccepted: bool)
    ensures !SchemaValid(Defaults, urlAccepted)
    ensures Title in FailingFields(Defaults, urlAccepted) && Description in FailingFields(Defaults, urlAccepted)
  {
  }

  const AgentId := "ag_02"

  /** The `properties` row the mutation writes, one field per column. */
  datatype DbRow = DbRow(
    title: string, location: string, area: string, price: int,
    kind: string, status: string, beds: int, baths: int, sqft: int,
    description: string, hero_image: string, agent_id: string)

  /** `dbValues`: every form field in its column, `heroImage` in `hero_image`, and always the fixed agent. */
  function DbValues(v: FormValues): (row: DbRow)
    ensures row.agent_id == AgentId
    ensures row.hero_image == v.heroImage
  {
    DbRow(v.title, v.location, v.area, v.price, v.kind, v.status, v.beds, v.baths, v.sqft, v.description, v.heroImage, AgentId)
  }

  /** Reading a row back into the form (with `hero_image` as `heroImage`, and the agent dropped). */
  function FormOfRow(row: DbRow): FormValues {
    FormValues(row.title, row.location, row.area, row.price, row.kind, row.status, row.beds, row.baths, row.sqft, row.description, row.hero_image)
  }

  /** The row keeps every form value: reading it back gives the form, and rows differ exactly when forms do. */
  lemma DbValuesRoundTrip(v: FormValues, w: FormValues)
    ensures FormOfRow(DbValues(v)) == v
    ensures DbValues(v) == DbValues(w) <==> v == w
  {
    assert FormOfRow(DbValues(w)) == w;
  }

  /** What the mutation sends: an update of the edited property's row, or an insert. */
  datatype Mutation = Update(id: int, row: DbRow) | Insert(row: DbRow)

  /** The mutation and the toast shown when it succeeds. */
  function Save(property: Option<Property>, v: FormValues): (r: (Mutation, string))
    ensures property.Some? <==> r.0.Update?
    ensures r.0.Update? ==> r.0.id == property.value.id
    ensures r.0.row == DbValues(v)
    ensures r.1 == (if property.Some? then "Property updated" else "Property added")
  {
    if property.Some? then (Update(property.value.id, DbValues(v)), "Property updated")
    else (Insert(DbValues(v)), "Property added")
  }

  /** Saving an edited property without touching the form writes back its own values, by its own id. */
  lemma UntouchedEditWritesBack(p: Property)
    ensures var m := Save(Some(p), ResetValues(Some(p))).0;
      && m.Update? && m.id == p.id
      && m.row.title == p.title && m.row.price == p.price && m.row.kind == p.propertyKind
      && m.row.hero_image == p.heroImage && m.row.agent_id == AgentId
  {
  }
}
