/**
 * The document tables and the stock table behind the receipt, dispatch and
 * stocktake routes: create, list and the unguarded post.
 */
module WarehouseDb {
  import opened Wrappers
  import opened Schema
  import opened StockLedger
  import opened Documents
  import opened Sorting

  class Warehouse {
    /** One table per document kind, keyed by id. */
    var documents: map<DocKind, map<int, Document>>
    /** The next autoincrement id of each document table. */
    var nextId: map<DocKind, int>
    var stock: StockMap

    ghost predicate Valid()
      reads this
    {
      && (forall k: DocKind :: k in documents && k in nextId && nextId[k] >= 1)
      && forall k, id :: k in documents && id in documents[k] ==>
           k in nextId && documents[k][id].id == id && 1 <= id < nextId[k]
    }

    constructor ()
      ensures Valid()
      ensures documents == map[Receipt := map[], Dispatch := map[], Stocktake := map[]]
      ensures nextId == map[Receipt := 1, Dispatch := 1, Stocktake := 1]
      ensures stock == map[]
    {
      documents := map[Receipt := map[], Dispatch := map[], Stocktake := map[]];
      nextId := map[Receipt := 1, Dispatch := 1, Stocktake := 1];
      stock := map[];
      new;
      forall k: DocKind
        ensures k in documents && k in nextId && nextId[k] >= 1
      {
        match k
        case Receipt =>
        case Dispatch =>
        case Stocktake =>
      }
    }

    /**
     * `POST /`: validate the body; on success store the header and the
     * lines in one write. The new document is a draft, an empty `date`
     * is stored as no date, and the stock is not touched.
     */
    method Create(kind: DocKind, body: Json) returns (r: Result<Document>)
      requires Valid()
      modifies this
      ensures Valid()
      ensures stock == old(stock)
      ensures r.Success? <==> ValidCreateBody(kind, body)
      ensures r.Failure? ==>
        r.error == ValidationError && documents == old(documents) && nextId == old(nextId)
      ensures r.Success? ==>
        var req := ParseCreate(kind, body).value;
        && r.value == Document(old(nextId[kind]), req.number, req.counterparty,
                               if req.date == Some("") then None else req.date, Draft, req.lines)
        && r.value.id !in old(documents[kind])
        && documents == old(documents)[kind := old(documents[kind])[r.value.id := r.value]]
        && nextId == old(nextId)[kind := old(nextId[kind]) + 1]
    {
      var parsed := ParseCreate(kind, body);
      if parsed.Failure? {
        return Failure(ValidationError);
      }
      var req := parsed.value;
      var id := nextId[kind];
      var date := if req.date == Some("") then None else req.date;
      var doc := Document(id, req.number, req.counterparty, date, Draft, req.lines);
      documents := documents[kind := documents[kind][id := doc]];
      nextId := nextId[kind := id + 1];
      r := Success(doc);
    }

    /**
     * `POST /:id/post`: mark the document posted, then upsert one stock row
     * per line, in document order. The status is not checked first, so a
     * posted document is applied again.
     */
    method Post(kind: DocKind, id: int) returns (r: Result<()>)
      requires Valid()
      modifies this
      ensures Valid()
      ensures nextId == old(nextId)
      ensures r.Failure? <==> id !in old(documents[kind])
      ensures r.Failure? ==>
        r.error == NotFound && documents == old(documents) && stock == old(stock)
      ensures r.Success? ==>
        var doc := old(documents[kind][id]);
        && documents == old(documents)[kind := old(documents[kind])[id := doc.(status := Posted)]]
        && stock == ApplyAll(old(stock), PolicyOf(kind), doc.lines)
    {
      if id !in documents[kind] {
        return Failure(NotFound);
      }
      var doc := documents[kind][id].(status := Posted);
      documents := documents[kind := documents[kind][id := doc]];
      var policy := PolicyOf(kind);
      var i := 0;
      while i < |doc.lines|
        invariant 0 <= i <= |doc.lines|
        invariant documents == old(documents)[kind := old(documents[kind])[id := doc]]
        invariant nextId == old(nextId)
        invariant stock == ApplyAll(old(stock), policy, doc.lines[..i])
      {
        ApplyAllStep(old(stock), policy, doc.lines, i);
        stock := Upsert(stock, policy, doc.lines[i]);
        i := i + 1;
      }
      assert doc.lines[..|doc.lines|] == doc.lines;
      r := Success(());
    }

    /** `GET /`: every document of the kind, newest id first. */
    function List(kind: DocKind): (r: seq<Document>)
      reads this
      requires Valid()
      ensures |r| == |documents[kind]|
      ensures forall i, j :: 0 <= i < j < |r| ==> r[i].id > r[j].id
      ensures forall i :: 0 <= i < |r| ==> r[i].id in documents[kind] && documents[kind][r[i].id] == r[i]
      ensures forall id :: id in documents[kind] ==> documents[kind][id] in r
    {
      var table := documents[kind];
      assert forall id :: id in table ==> DocId(table[id]) == id;
      ListByIdDesc(table, DocId)
    }
  }

  function DocId(d: Document): int
  {
    d.id
  }

  lemma SingleIncrement(s: StockMap, n: int)
    requires s == map[] || s == map[(1, 2) := n]
    ensures ApplyAll(s, Increment, [Line(1, 2, 10)]) == map[(1, 2) := if s == map[] then 10 else n + 10]
  {
    assert [Line(1, 2, 10)][..0] == [];
  }

  /**
   * Posting a receipt that is already posted applies its increments a
   * second time: the route does not check the status.
   */
  method RepostScenario()
  {
    var w := new Warehouse();
    OneLineReceiptParses("PR-1", 1, 2, 10);
    var created := w.Create(Receipt, OneLineReceipt("PR-1", 1, 2, 10));
    assert created == Success(Document(1, "PR-1", None, None, Draft, [Line(1, 2, 10)]));
    var posted := w.Post(Receipt, 1);
    SingleIncrement(map[], 0);
    assert posted.Success? && w.stock == map[(1, 2) := 10];
    var again := w.Post(Receipt, 1);
    SingleIncrement(map[(1, 2) := 10], 10);
    assert again.Success? && w.stock == map[(1, 2) := 20];
  }
}
