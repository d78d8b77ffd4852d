/**
 * The item and location schemas, their list routes, and the stock view
 * (`GET /stock`): stock rows joined with their item and location, filtered
 * by a search text and ordered by location, then item.
 */
module Inventory {
  import opened Wrappers
  import opened Schema
  import opened StockLedger
  import opened Sorting

  datatype Item = Item(
    id: int,
    sku: string,
    name: string,
    unit: string,
    barcode: Option<string>,
    minStock: Option<int>)

  datatype Location = Location(id: int, code: string, description: Option<string>)

  /** A validated item create request. */
  datatype ItemInput = ItemInput(
    sku: string,
    name: string,
    unit: string,
    barcode: Option<string>,
    minStock: Option<int>)

  /** A validated location create request. */
  datatype LocationInput = LocationInput(code: string, description: Option<string>)

  /** What the item schema accepts. */
  predicate ValidItemBody(body: Json)
  {
    && body.JObj?
    && IsNonEmptyString(Get(body.fields, "sku"))
    && IsNonEmptyString(Get(body.fields, "name"))
    && IsOptionalString(Get(body.fields, "unit"))
    && IsOptionalString(Get(body.fields, "barcode"))
    && (Get(body.fields, "minStock").None? || IsNonNegativeInt(Get(body.fields, "minStock")))
  }

  /**
   * `itemSchema.safeParse`: `sku` and `name` non-empty, `unit` defaults to
   * "pcs" when absent, `minStock` when present a non-negative integer.
   */
  function ParseItem(body: Json): (r: Result<ItemInput>)
    ensures r.Success? <==> ValidItemBody(body)
    ensures r.Success? ==>
      && Get(body.fields, "sku") == Some(JStr(r.value.sku)) && r.value.sku != ""
      && Get(body.fields, "name") == Some(JStr(r.value.name)) && r.value.name != ""
      && (Get(body.fields, "unit").None? ==> r.value.unit == "pcs")
      && (Get(body.fields, "unit").Some? ==> Get(body.fields, "unit") == Some(JStr(r.value.unit)))
      && Get(body.fields, "barcode") == OptStrJson(r.value.barcode)
      && Get(body.fields, "minStock") == OptIntJson(r.value.minStock)
      && (r.value.minStock.Some? ==> r.value.minStock.value >= 0)
  {
    match body
    case JObj(f) =>
      var unit := if "unit" in f then (match f["unit"] case JStr(u) => Success(u) case _ => Failure(ValidationError))
                  else Success("pcs");
      (match (NonEmptyString(Get(f, "sku")), NonEmptyString(Get(f, "name")), unit,
              OptionalString(Get(f, "barcode")), OptionalNonNegativeInt(Get(f, "minStock")))
       case (Success(sku), Success(name), Success(u), Success(barcode), Success(minStock)) =>
         Success(ItemInput(sku, name, u, barcode, minStock))
       case _ => Failure(ValidationError))
    case _ => Failure(ValidationError)
  }

  /** `locationSchema.safeParse`: a non-empty `code`, an optional description. */
  function ParseLocation(body: Json): (r: Result<LocationInput>)
    ensures r.Success? <==>
      body.JObj? && IsNonEmptyString(Get(body.fields, "code"))
      && IsOptionalString(Get(body.fields, "description"))
    ensures r.Success? ==>
      && Get(body.fields, "code") == Some(JStr(r.value.code)) && r.value.code != ""
      && Get(body.fields, "description") == OptStrJson(r.value.description)
  {
    match body
    case JObj(f) =>
      (match (NonEmptyString(Get(f, "code")), OptionalString(Get(f, "description")))
       case (Success(code), Success(description)) => Success(LocationInput(code, description))
       case _ => Failure(ValidationError))
    case _ => Failure(ValidationError)
  }

  function ItemId(it: Item): int
  {
    it.id
  }

  function LocationId(l: Location): int
  {
    l.id
  }

  /** `GET /items`: every item, newest id first. */
  function ListItems(items: map<int, Item>): (r: seq<Item>)
    requires forall k :: k in items ==> items[k].id == k
    ensures |r| == |items|
    ensures forall i, j :: 0 <= i < j < |r| ==> r[i].id > r[j].id
    ensures forall i :: 0 <= i < |r| ==> r[i].id in items && items[r[i].id] == r[i]
    ensures forall k :: k in items ==> items[k] in r
  {
    ListByIdDesc(items, ItemId)
  }

  /** `GET /locations`: every location, newest id first. */
  function ListLocations(locations: map<int, Location>): (r: seq<Location>)
    requires forall k :: k in locations ==> locations[k].id == k
    ensures |r| == |locations|
    ensures forall i, j :: 0 <= i < j < |r| ==> r[i].id > r[j].id
    ensures forall i :: 0 <= i < |r| ==> r[i].id in locations && locations[r[i].id] == r[i]
    ensures forall k :: k in locations ==> locations[k] in r
  {
    ListByIdDesc(locations, LocationId)
  }

  /** `q` occurs in `s` starting at index `i`. */
  predicate OccursAt(s: string, q: string, i: int)
  {
    0 <= i && i + |q| <= |s| && s[i..i + |q|] == q
  }

  /** The substring test behind Prisma's `contains`. */
  function Contains(s: string, q: string): (r: bool)
    decreases |s|
  {
    (|q| <= |s| && s[..|q|] == q) || (|s| > 0 && Contains(s[1..], q))
  }

  lemma {:induction false} ContainsIffOccurs(s: string, q: string)
    ensures Contains(s, q) <==> exists i :: OccursAt(s, q, i)
    decreases |s|
  {
    if |q| <= |s| && s[..|q|] == q {
      assert OccursAt(s, q, 0);
    } else if |s| > 0 {
      ContainsIffOccurs(s[1..], q);
      if exists i :: OccursAt(s[1..], q, i) {
        var i :| OccursAt(s[1..], q, i);
        assert s[i + 1..i + 1 + |q|] == s[1..][i..i + |q|];
        assert OccursAt(s, q, i + 1);
      }
      if exists i :: OccursAt(s, q, i) {
        var i :| OccursAt(s, q, i);
        if i > 0 {
          assert s[1..][i - 1..i - 1 + |q|] == s[i..i + |q|];
          assert OccursAt(s[1..], q, i - 1);
        }
      }
    }
  }

  /**
   * The `where` of the stock view: no filter when `q` is absent or empty,
   * otherwise the item's sku, name or barcode must contain `q`.
   */
  function Matches(item: Item, q: Option<string>): (r: bool)
    ensures r <==>
      || q.None? || q.value == ""
      || (exists i :: OccursAt(item.sku, q.value, i))
      || (exists i :: OccursAt(item.name, q.value, i))
      || (item.barcode.Some? && exists i :: OccursAt(item.barcode.value, q.value, i))
  {
    match q
    case None => true
    case Some(s) =>
      ContainsIffOccurs(item.sku, s);
      ContainsIffOccurs(item.name, s);
      ContainsIffOccurs(if item.barcode.Some? then item.barcode.value else "", s);
      s == ""
      || Contains(item.sku, s)
      || Contains(item.name, s)
      || (item.barcode.Some? && Contains(item.barcode.value, s))
  }

  /** (locationId, itemId) order: location first, then item. */
  predicate Before(a: Pair, b: Pair)
  {
    a.1 < b.1 || (a.1 == b.1 && a.0 < b.0)
  }

  lemma {:induction false} FirstExists(s: set<Pair>)
    requires s != {}
    ensures exists m :: m in s && forall y :: y in s && y != m ==> Before(m, y)
    decreases |s|
  {
    if forall y :: y !in s {
      // then s would equal the empty set
      assert false;
    }
    var x :| x in s;
    if s - {x} != {} {
      FirstExists(s - {x});
      var m :| m in s - {x} && forall y :: y in s - {x} && y != m ==> Before(m, y);
      var first := if Before(x, m) then x else m;
      forall y | y in s && y != first
        ensures Before(first, y)
      {
        if y != x {
          assert y in s - {x};
        }
      }
      assert first in s;
    } else {
      assert s == {x};
    }
  }

  function First(s: set<Pair>): (m: Pair)
    requires s != {}
    ensures m in s && forall y :: y in s && y != m ==> Before(m, y)
  {
    FirstExists(s);
    var m :| m in s && forall y :: y in s && y != m ==> Before(m, y);
    m
  }

  /** The keys in (locationId, itemId) order. */
  function SortPairs(s: set<Pair>): (r: seq<Pair>)
    ensures |r| == |s|
    ensures forall p :: p in r <==> p in s
    ensures forall i, j :: 0 <= i < j < |r| ==> Before(r[i], r[j])
    decreases |s|
  {
    if s == {} then []
    else
      var m := First(s);
      var rest := SortPairs(s - {m});
      assert forall p :: p in rest ==> Before(m, p);
      [m] + rest
  }

  /** A row of the stock view: the stock row with its item and location. */
  datatype StockRow = StockRow(itemId: int, locationId: int, quantity: int, item: Item, location: Location)

  /** Every stock row names an existing item and location. */
  predicate References(stock: StockMap, items: map<int, Item>, locations: map<int, Location>)
  {
    forall p :: p in stock ==> p.0 in items && p.1 in locations
  }

  /** `GET /stock`. */
  function StockView(stock: StockMap, items: map<int, Item>, locations: map<int, Location>, q: Option<string>)
    : (r: seq<StockRow>)
    requires References(stock, items, locations)
    ensures forall i, j :: 0 <= i < j < |r| ==>
      Before((r[i].itemId, r[i].locationId), (r[j].itemId, r[j].locationId))
    ensures forall row :: row in r <==>
      && (row.itemId, row.locationId) in stock
      && row.quantity == stock[(row.itemId, row.locationId)]
      && row.item == items[row.itemId]
      && row.location == locations[row.locationId]
      && Matches(row.item, q)
    ensures |r| == |set p | p in stock && Matches(items[p.0], q)|
  {
    var keys := set p | p in stock && Matches(items[p.0], q);
    var sorted := SortPairs(keys);
    forall i | 0 <= i < |sorted|
      ensures sorted[i] in keys && sorted[i] in stock
    {
      assert sorted[i] in sorted;
    }
    var r := seq(|sorted|, i requires 0 <= i < |sorted| =>
      var p := sorted[i];
      StockRow(p.0, p.1, stock[p], items[p.0], locations[p.1]));
    assert forall i :: 0 <= i < |r| ==> (r[i].itemId, r[i].locationId) == sorted[i];
    forall row: StockRow | && (row.itemId, row.locationId) in keys
                 && row.quantity == stock[(row.itemId, row.locationId)]
                 && row.item == items[row.itemId]
                 && row.location == locations[row.locationId]
      ensures row in r
    {
      var i :| 0 <= i < |sorted| && sorted[i] == (row.itemId, row.locationId);
      assert r[i] == row;
    }
    r
  }

  /** Without a search text the view keeps every stock row. */
  lemma UnfilteredViewListsEveryRow(stock: StockMap, items: map<int, Item>, locations: map<int, Location>, q: Option<string>)
    requires References(stock, items, locations)
    requires q == None || q == Some("")
    ensures |StockView(stock, items, locations, q)| == |stock|
    ensures forall p :: p in stock ==>
      StockRow(p.0, p.1, stock[p], items[p.0], locations[p.1]) in StockView(stock, items, locations, q)
  {
    var keys := set p | p in stock && Matches(items[p.0], q);
    assert keys == stock.Keys;
  }
}
