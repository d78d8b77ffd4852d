/**
 * The three movement documents (receipt, dispatch, stocktake): one shape,
 * parameterised by the document kind, and the zod schemas that validate a
 * create request.
 */
module Documents {
  import opened Wrappers
  import opened Schema
  import opened StockLedger

  datatype DocKind = Receipt | Dispatch | Stocktake

  datatype Status = Draft | Posted

  /** A stored document: header, status and its lines in submitted order. */
  datatype Document = Document(
    id: int,
    number: string,
    counterparty: Option<string>,
    date: Option<string>,
    status: Status,
    lines: seq<Line>)

  /** A validated create request. */
  datatype CreateRequest = CreateRequest(
    number: string,
    counterparty: Option<string>,
    date: Option<string>,
    lines: seq<Line>)

  /**
   * The stock rule fixed by each kind: a receipt line adds its `qty` to the
   * row, a dispatch line subtracts it, a stocktake line overwrites the row
   * with its `countedQty`.
   */
  function PolicyOf(kind: DocKind): (p: Policy)
    ensures kind == Receipt ==> forall s, l :: Qty(Upsert(s, p, l), Key(l)) == Qty(s, Key(l)) + l.amount
    ensures kind == Dispatch ==> forall s, l :: Qty(Upsert(s, p, l), Key(l)) == Qty(s, Key(l)) - l.amount
    ensures kind == Stocktake ==> forall s, l :: Qty(Upsert(s, p, l), Key(l)) == l.amount
  {
    match kind
    case Receipt => Increment
    case Dispatch => Decrement
    case Stocktake => Set
  }

  /** The key of a line's quantity in the request body. */
  function AmountField(kind: DocKind): string
  {
    if kind == Stocktake then "countedQty" else "qty"
  }

  /** The counterparty key: `supplier`, `customer`, or none for stocktakes. */
  function CounterpartyField(kind: DocKind): Option<string>
  {
    match kind
    case Receipt => Some("supplier")
    case Dispatch => Some("customer")
    case Stocktake => None
  }

  /** The quantity check: positive for `qty`, non-negative for `countedQty`. */
  function Amount(kind: DocKind, v: Option<Json>): Result<int>
  {
    if kind == Stocktake then NonNegativeInt(v) else PositiveInt(v)
  }

  /** What the kind's quantity check accepts. */
  predicate IsAmount(kind: DocKind, v: Option<Json>)
  {
    if kind == Stocktake then IsNonNegativeInt(v) else IsPositiveInt(v)
  }

  /** What the line schema accepts. */
  predicate LineOk(kind: DocKind, j: Json)
  {
    && j.JObj?
    && IsPositiveInt(Get(j.fields, "itemId"))
    && IsPositiveInt(Get(j.fields, "locationId"))
    && IsAmount(kind, Get(j.fields, AmountField(kind)))
  }

  /** `line` carries exactly the numbers the JSON line holds. */
  predicate LineEncodes(kind: DocKind, j: Json, line: Line)
  {
    && j.JObj?
    && Get(j.fields, "itemId") == Some(JNum(line.itemId as real))
    && Get(j.fields, "locationId") == Some(JNum(line.locationId as real))
    && Get(j.fields, AmountField(kind)) == Some(JNum(line.amount as real))
  }

  /** A valid line has positive ids and an amount allowed for its kind. */
  predicate ValidLine(kind: DocKind, line: Line)
  {
    line.itemId > 0 && line.locationId > 0
    && (if kind == Stocktake then line.amount >= 0 else line.amount > 0)
  }

  function ParseLine(kind: DocKind, j: Json): (r: Result<Line>)
    ensures r.Success? <==> LineOk(kind, j)
    ensures r.Success? ==> LineEncodes(kind, j, r.value) && ValidLine(kind, r.value)
  {
    match j
    case JObj(f) =>
      (match (PositiveInt(Get(f, "itemId")), PositiveInt(Get(f, "locationId")), Amount(kind, Get(f, AmountField(kind))))
       case (Success(item), Success(loc), Success(amount)) => Success(Line(item, loc, amount))
       case _ => Failure(ValidationError))
    case _ => Failure(ValidationError)
  }

  /** `z.array(line)`: every element must pass, and the order is kept. */
  function ParseLines(kind: DocKind, items: seq<Json>): (r: Result<seq<Line>>)
    ensures r.Success? <==> forall i :: 0 <= i < |items| ==> LineOk(kind, items[i])
    ensures r.Success? ==> |r.value| == |items|
    ensures r.Success? ==> forall i :: 0 <= i < |items| ==>
      LineEncodes(kind, items[i], r.value[i]) && ValidLine(kind, r.value[i])
    decreases |items|
  {
    if items == [] then Success([])
    else
      match (ParseLine(kind, items[0]), ParseLines(kind, items[1..]))
      case (Success(l), Success(ls)) => Success([l] + ls)
      case (Failure(e), _) => Failure(e)
      case (_, Failure(e)) => Failure(e)
  }

  /** What the receipt, dispatch and stocktake schemas accept. */
  predicate ValidCreateBody(kind: DocKind, body: Json)
  {
    && body.JObj?
    && var f := body.fields;
    && IsNonEmptyString(Get(f, "number"))
    && (CounterpartyField(kind).Some? ==> IsOptionalString(Get(f, CounterpartyField(kind).value)))
    && IsOptionalString(Get(f, "date"))
    && Get(f, "lines").Some? && Get(f, "lines").value.JArr?
    && var items := Get(f, "lines").value.items;
    && |items| >= 1
    && forall i :: 0 <= i < |items| ==> LineOk(kind, items[i])
  }

  /**
   * `schema.safeParse(req.body)`: keys outside the schema (a `customer` on a
   * receipt, any counterparty on a stocktake) are stripped.
   */
  function ParseCreate(kind: DocKind, body: Json): (r: Result<CreateRequest>)
    ensures r.Success? <==> ValidCreateBody(kind, body)
    ensures r.Success? ==>
      && Get(body.fields, "number") == Some(JStr(r.value.number))
      && r.value.number != ""
      && Get(body.fields, "date") == OptStrJson(r.value.date)
      && (match CounterpartyField(kind)
          case Some(key) => Get(body.fields, key) == OptStrJson(r.value.counterparty)
          case None => r.value.counterparty == None)
      && Get(body.fields, "lines").Some?
      && Get(body.fields, "lines").value.JArr?
      && var items := Get(body.fields, "lines").value.items;
      && |r.value.lines| == |items| >= 1
      && forall i :: 0 <= i < |items| ==>
           LineEncodes(kind, items[i], r.value.lines[i]) && ValidLine(kind, r.value.lines[i])
  {
    match body
    case JObj(f) =>
      var counterparty :=
        match CounterpartyField(kind)
        case Some(key) => OptionalString(Get(f, key))
        case None => Success(None);
      (match (NonEmptyString(Get(f, "number")), counterparty, OptionalString(Get(f, "date")), Get(f, "lines"))
       case (Success(number), Success(cp), Success(date), Some(JArr(items))) =>
         if |items| < 1 then Failure(ValidationError)
         else
           (match ParseLines(kind, items)
            case Success(lines) => Success(CreateRequest(number, cp, date, lines))
            case Failure(e) => Failure(e))
       case _ => Failure(ValidationError))
    case _ => Failure(ValidationError)
  }

  /**
   * A receipt create is rejected on an empty number, an empty line list or
   * a line whose quantity is not a positive integer.
   */
  lemma ReceiptRejects(body: Json)
    requires body.JObj?
    requires || Get(body.fields, "number") == Some(JStr(""))
             || Get(body.fields, "lines") == Some(JArr([]))
             || (exists i: int, items: seq<Json> :: Get(body.fields, "lines") == Some(JArr(items))
                   && 0 <= i < |items| && items[i].JObj?
                   && Get(items[i].fields, "qty") == Some(JNum(0.0)))
    ensures ParseCreate(Receipt, body).Failure?
  {
  }

  /**
   * A dispatch create is rejected on a fractional or non-positive id or
   * quantity in any line.
   */
  lemma DispatchRejectsNonPositive(body: Json, i: int, items: seq<Json>, key: string)
    requires body.JObj? && Get(body.fields, "lines") == Some(JArr(items))
    requires 0 <= i < |items| && items[i].JObj?
    requires key in {"itemId", "locationId", "qty"}
    requires Get(items[i].fields, key).Some? && Get(items[i].fields, key).value.JNum?
    requires var n := Get(items[i].fields, key).value.n; n <= 0.0 || !IsInteger(n)
    ensures ParseCreate(Dispatch, body).Failure?
  {
  }

  /**
   * A stocktake line may count zero: it parses to a line with amount 0,
   * while the same numbers under `qty` are rejected by the receipt and
   * dispatch schemas.
   */
  lemma StocktakeAcceptsZeroCount(itemId: int, locationId: int)
    requires itemId > 0 && locationId > 0
    ensures var ids := map["itemId" := JNum(itemId as real), "locationId" := JNum(locationId as real)];
      && ParseLine(Stocktake, JObj(ids["countedQty" := JNum(0.0)])) == Success(Line(itemId, locationId, 0))
      && ParseLine(Receipt, JObj(ids["qty" := JNum(0.0)])).Failure?
      && ParseLine(Dispatch, JObj(ids["qty" := JNum(0.0)])).Failure?
  {
  }

  /** A receipt body with a number and one line, and no supplier or date. */
  function OneLineReceipt(number: string, itemId: int, locationId: int, qty: int): Json
  {
    var line := JObj(map["itemId" := JNum(itemId as real), "locationId" := JNum(locationId as real),
                         "qty" := JNum(qty as real)]);
    JObj(map["number" := JStr(number), "lines" := JArr([line])])
  }

  /**
   * Any receipt body with a non-empty number and one line of positive ids
   * and quantity is accepted, and parses to exactly that line.
   */
  lemma OneLineReceiptParses(number: string, itemId: int, locationId: int, qty: int)
    requires number != "" && itemId > 0 && locationId > 0 && qty > 0
    ensures ParseCreate(Receipt, OneLineReceipt(number, itemId, locationId, qty))
      == Success(CreateRequest(number, None, None, [Line(itemId, locationId, qty)]))
  {
    var line := JObj(map["itemId" := JNum(itemId as real), "locationId" := JNum(locationId as real),
                         "qty" := JNum(qty as real)]);
    var l := Line(itemId, locationId, qty);
    assert ParseLine(Receipt, line) == Success(l) by {
      assert PositiveInt(Some(JNum(itemId as real))) == Success(itemId);
      assert PositiveInt(Some(JNum(locationId as real))) == Success(locationId);
      assert PositiveInt(Some(JNum(qty as real))) == Success(qty);
    }
    assert ParseLines(Receipt, [line]) == Success([l]) by {
      assert [line][1..] == [];
      assert ParseLines(Receipt, []) == Success([]);
      assert [l] + [] == [l];
    }
  }
}
