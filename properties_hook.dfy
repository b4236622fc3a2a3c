/**
 * The properties hook: database rows (plain JSON objects) mapped to the
 * camelCase shape the components read, with the bundled listings as the
 * fallback, and the lookup by id.
 */
module PropertiesHook {
  import opened Wrappers
  import opened Json

  /** A listing as the hook hands it out: an object's fields. */
  type Row = seq<Field>

  /** `x || []`: a falsy array field becomes the empty array. */
  function ArrayOrEmpty(v: Value): (r: Value)
    ensures Truthy(v) ==> r == v
    ensures !Truthy(v) ==> r == Arr([])
  {
    if Truthy(v) then v else Arr([])
  }

  /** The keys the mapping writes, in source order. */
  const AliasKeys: seq<string> := ["heroImage", "agentId", "superArea", "carpetArea", "currentRent", "virtualTourUrl", "amenities", "gallery"]

  /** The values written under `AliasKeys`, read from the snake_case columns. */
  function AliasValues(item: Row): (vs: seq<Value>)
    ensures |vs| == |AliasKeys|
  {
    [ Get(item, "hero_image"), Get(item, "agent_id"), Get(item, "super_area"),
      Get(item, "carpet_area"), Get(item, "current_rent"), Get(item, "virtual_tour_url"),
      ArrayOrEmpty(Get(item, "amenities")), ArrayOrEmpty(Get(item, "gallery")) ]
  }

  /** The assignments after the spread. */
  function Aliases(item: Row): seq<Field> {
    Zip(AliasKeys, AliasValues(item))
  }

  /** No key is written twice. */
  lemma AliasKeysDistinct()
    ensures forall i, j :: 0 <= i < j < |AliasKeys| ==> AliasKeys[i] != AliasKeys[j]
  {
  }

  /** The `id` column is not one of the aliases: every alias key is longer. */
  lemma IdNotAliased()
    ensures "id" !in AliasKeys
  {
    forall k | k in AliasKeys ensures |k| > 2 {
    }
  }

  /**
   * The camelCase copy of one row: `{...item, heroImage: item.hero_image, …,
   * amenities: item.amenities || [], gallery: item.gallery || []}`. The
   * row's own keys stay first, in their order.
   */
  function MapRow(item: Row): (r: Row)
    ensures IsPrefix(Keys(item), Keys(r))
    ensures forall k :: k !in AliasKeys ==> Get(r, k) == Get(item, k)
  {
    PutAllExtendsKeys(item, Aliases(item));
    assert forall k :: k !in AliasKeys ==> Get(PutAll(item, Aliases(item)), k) == Get(item, k) by {
      forall k | k !in AliasKeys ensures Get(PutAll(item, Aliases(item)), k) == Get(item, k) {
        PutAllOther(item, Aliases(item), k);
      }
    }
    PutAll(item, Aliases(item))
  }

  /** Each key of `AliasKeys` ends up with its value from `AliasValues`. */
  lemma MapRowAlias(item: Row, i: nat)
    requires i < |AliasKeys|
    ensures Get(MapRow(item), AliasKeys[i]) == AliasValues(item)[i]
  {
    var u := Aliases(item);
    AliasKeysDistinct();
    assert WellFormed(u) by {
      forall i, j | 0 <= i < j < |u| ensures u[i].key != u[j].key {
        assert u[i].key == AliasKeys[i] && u[j].key == AliasKeys[j];
      }
    }
    PutAllGet(item, u, i);
  }

  /** Each alias reads its snake_case column, and a falsy `amenities` or `gallery` reads as `[]`. */
  lemma MapRowFields(item: Row)
    ensures Get(MapRow(item), "heroImage") == Get(item, "hero_image")
    ensures Get(MapRow(item), "agentId") == Get(item, "agent_id")
    ensures Get(MapRow(item), "superArea") == Get(item, "super_area")
    ensures Get(MapRow(item), "carpetArea") == Get(item, "carpet_area")
    ensures Get(MapRow(item), "currentRent") == Get(item, "current_rent")
    ensures Get(MapRow(item), "virtualTourUrl") == Get(item, "virtual_tour_url")
    ensures Get(MapRow(item), "amenities") == ArrayOrEmpty(Get(item, "amenities"))
    ensures Get(MapRow(item), "gallery") == ArrayOrEmpty(Get(item, "gallery"))
  {
    MapRowAlias(item, 0);
    MapRowAlias(item, 1);
    MapRowAlias(item, 2);
    MapRowAlias(item, 3);
    MapRowAlias(item, 4);
    MapRowAlias(item, 5);
    MapRowAlias(item, 6);
    MapRowAlias(item, 7);
  }

  /** What the `properties` query returned: an error, or possibly missing rows. */
  datatype QueryOutcome = QueryError | QueryData(rows: Option<seq<Row>>)

  /** `data.map(...)`. */
  function MapRows(rows: seq<Row>): (r: seq<Row>)
    ensures |r| == |rows|
    ensures forall i :: 0 <= i < |rows| ==> r[i] == MapRow(rows[i])
  {
    seq(|rows|, i requires 0 <= i < |rows| => MapRow(rows[i]))
  }

  /**
   * The query function: an error, missing rows or no rows fall back to the
   * bundled listings `fallback`; otherwise every row is mapped, in order.
   */
  function LoadProperties(outcome: QueryOutcome, fallback: seq<Row>): (r: seq<Row>)
    ensures outcome.QueryError? ==> r == fallback
    ensures outcome.QueryData? && (outcome.rows.None? || outcome.rows.value == []) ==> r == fallback
    ensures outcome.QueryData? && outcome.rows.Some? && outcome.rows.value != [] ==>
      |r| == |outcome.rows.value| &&
      forall i :: 0 <= i < |r| ==> r[i] == MapRow(outcome.rows.value[i])
  {
    match outcome
    case QueryError => fallback
    case QueryData(rows) =>
      if rows.None? || rows.value == [] then fallback else MapRows(rows.value)
  }

  /** `p.id === id`: only a number field equal to `id` matches. */
  predicate HasId(p: Row, id: int) {
    Get(p, "id") == Num(id)
  }

  /** The position of the first `true` at or after `k`, if any. */
  function FirstTrue(flags: seq<bool>, k: nat): (r: Option<nat>)
    requires k <= |flags|
    ensures r.None? <==> forall i :: k <= i < |flags| ==> !flags[i]
    ensures r.Some? ==> k <= r.value < |flags| && flags[r.value] && forall j :: k <= j < r.value ==> !flags[j]
    decreases |flags| - k
  {
    if k == |flags| then None
    else if flags[k] then Some(k)
    else FirstTrue(flags, k + 1)
  }

  /** Which listings carry id `id`, position by position. */
  function Matches(properties: seq<Row>, id: int): (flags: seq<bool>)
    ensures |flags| == |properties|
    ensures forall i :: 0 <= i < |properties| ==> flags[i] == HasId(properties[i], id)
  {
    seq(|properties|, i requires 0 <= i < |properties| => HasId(properties[i], id))
  }

  /** The position of the first listing with id `id`, if any. */
  function FirstWithId(properties: seq<Row>, id: int): (r: Option<nat>)
    ensures r.None? <==> forall i :: 0 <= i < |properties| ==> !HasId(properties[i], id)
    ensures r.Some? ==> r.value < |properties| && HasId(properties[r.value], id) &&
                        forall j :: 0 <= j < r.value ==> !HasId(properties[j], id)
  {
    FirstTrue(Matches(properties, id), 0)
  }

  /** `properties.find(p => p.id === id)`: the first listing with that id, if any. */
  function GetPropertyById(properties: seq<Row>, id: int): (r: Option<Row>)
    ensures r.None? <==> forall i :: 0 <= i < |properties| ==> !HasId(properties[i], id)
    ensures r.Some? ==> (exists i :: 0 <= i < |properties| && properties[i] == r.value && HasId(r.value, id) &&
                                     forall j :: 0 <= j < i ==> !HasId(properties[j], id))
  {
    match FirstWithId(properties, id)
    case None => None
    case Some(i) => Some(properties[i])
  }

  /** The mapping does not touch `id`, so a listing is found under the id its row had. */
  lemma MapRowKeepsId(item: Row, id: int)
    ensures HasId(MapRow(item), id) <==> HasId(item, id)
  {
    IdNotAliased();
    assert Get(MapRow(item), "id") == Get(item, "id");
  }

  /** The first position depends only on which listings carry the id. */
  lemma SameIdsSamePosition(xs: seq<Row>, ys: seq<Row>, id: int)
    requires |xs| == |ys|
    requires forall i :: 0 <= i < |xs| ==> (HasId(xs[i], id) <==> HasId(ys[i], id))
    ensures FirstWithId(xs, id) == FirstWithId(ys, id)
  {
    var a, b := FirstWithId(xs, id), FirstWithId(ys, id);
    if a.Some? && b.Some? {
      assert !(a.value < b.value) && !(b.value < a.value);
    }
  }

  /** Mapping the rows keeps the position of the first row with a given id. */
  lemma MappedPositionKept(rows: seq<Row>, id: int)
    ensures FirstWithId(MapRows(rows), id) == FirstWithId(rows, id)
  {
    var mapped := MapRows(rows);
    forall i | 0 <= i < |rows| ensures HasId(mapped[i], id) <==> HasId(rows[i], id) {
      MapRowKeepsId(rows[i], id);
    }
    SameIdsSamePosition(mapped, rows, id);
  }

  /** Looking an id up among the loaded listings finds the mapped first row with that id. */
  lemma LoadedLookup(rows: seq<Row>, id: int)
    ensures GetPropertyById(MapRows(rows), id) ==
      (match GetPropertyById(rows, id) case None => None case Some(row) => Some(MapRow(row)))
  {
    MappedPositionKept(rows, id);
  }
}
