/**
 The list page (`index`): the find query built from the status filter, read
 as a predicate on order documents with the document store's matching rules,
 and the list of enriched rows it yields.
 */
module OrderListing {
  import opened Wrappers
  import opened OrderStatus
  import opened Pricing
  import opened OrderModel
  import opened OrderViews

  /** One alternative of the `$or` on `status`. */
  datatype StatusCond =
    | StatusEquals(value: string)   // { status: value }
    | StatusMissing                 // { status: { $exists: false } }
    | StatusNull                    // { status: null }

  /** The part of the query that constrains `status`. */
  datatype StatusClause =
    | AnyStatus                     // no condition on status
    | AnyOf(conds: seq<StatusCond>) // $or of conditions
    | Exactly(value: string)        // status: value

  /** The find query: `deleted` must equal the given flag, and the status clause must hold. */
  datatype FindQuery = FindQuery(deleted: bool, status: StatusClause)

  /** Whether one condition holds of a status field; `{field: null}` also matches a missing field. */
  predicate CondMatches(c: StatusCond, s: StatusField) {
    match c
    case StatusEquals(v) => s == Str(v)
    case StatusMissing => s.Absent?
    case StatusNull => s.Null? || s.Absent?
  }

  predicate ClauseMatches(c: StatusClause, s: StatusField) {
    match c
    case AnyStatus => true
    case AnyOf(conds) => exists i :: 0 <= i < |conds| && CondMatches(conds[i], s)
    case Exactly(v) => s == Str(v)
  }

  /** Whether a document satisfies a find query. */
  predicate Matches(q: FindQuery, o: Order) {
    o.deleted == q.deleted && ClauseMatches(q.status, o.status)
  }

  /** `req.query.status || ""`: a missing parameter is the empty filter. */
  function StatusFilterOf(param: Option<string>): string {
    param.GetOr("")
  }

  /**
   The query `index` builds from the status filter (the keyword condition is
   not modelled). Read as a predicate: deleted orders never match; the empty
   filter matches every live order; `pending` matches exactly the statuses
   "pending", missing, null and ""; any other filter matches exactly its own
   value.
   */
  function BuildQuery(statusFilter: string): (q: FindQuery)
    ensures forall o: Order :: o.deleted ==> !Matches(q, o)
    ensures statusFilter == "" ==> forall o: Order :: Matches(q, o) <==> !o.deleted
    ensures statusFilter == "pending" ==> forall o: Order :: Matches(q, o) <==>
      !o.deleted && o.status in {Str("pending"), Absent, Null, Str("")}
    ensures statusFilter != "" && statusFilter != "pending" ==> forall o: Order :: Matches(q, o) <==>
      !o.deleted && o.status == Str(statusFilter)
  {
    var status :=
      if statusFilter == "" then AnyStatus
      else if statusFilter == "pending" then AnyOf(PendingConds)
      else Exactly(statusFilter);
    PendingClauseMatches();
    FindQuery(false, status)
  }

  /** The `$or` the `pending` filter builds, alternative by alternative. */
  const PendingConds: seq<StatusCond> := [StatusEquals("pending"), StatusMissing, StatusNull, StatusEquals("")]

  /** The `$or` of the pending filter admits exactly "pending", missing, null and "". */
  lemma PendingClauseMatches()
    ensures forall s :: ClauseMatches(AnyOf(PendingConds), s) <==> s in {Str("pending"), Absent, Null, Str("")}
  {
    var conds := PendingConds;
    forall s | s in {Str("pending"), Absent, Null, Str("")}
      ensures ClauseMatches(AnyOf(conds), s)
    {
      if s == Str("pending") {
        assert CondMatches(conds[0], s);
      } else if s.Absent? {
        assert CondMatches(conds[1], s);
      } else if s.Null? {
        assert CondMatches(conds[2], s);
      } else {
        assert CondMatches(conds[3], s);
      }
    }
  }

  /** The documents a query selects, in the order the store returns them. */
  function Select(q: FindQuery, docs: seq<Order>): (r: seq<Order>)
    ensures |r| <= |docs|
    ensures forall o: Order :: o in r <==> o in docs && Matches(q, o)
    ensures multiset(r) <= multiset(docs)
  {
    if |docs| == 0 then []
    else
      assert docs == [docs[0]] + docs[1..];
      (if Matches(q, docs[0]) then [docs[0]] else []) + Select(q, docs[1..])
  }

  /** A document occurs in the selection exactly as often as in the collection when it matches, else never. */
  lemma {:induction false} SelectMultiplicity(q: FindQuery, docs: seq<Order>, o: Order)
    ensures multiset(Select(q, docs))[o] == if Matches(q, o) then multiset(docs)[o] else 0
  {
    if |docs| > 0 {
      var rest := docs[1..];
      SelectMultiplicity(q, rest, o);
      assert docs == [docs[0]] + rest;
      assert multiset(docs)[o] == multiset([docs[0]])[o] + multiset(rest)[o];
      var head := if Matches(q, docs[0]) then [docs[0]] else [];
      assert Select(q, docs) == head + Select(q, rest);
      assert multiset(Select(q, docs))[o] == multiset(head)[o] + multiset(Select(q, rest))[o];
    }
  }

  /** Selection distributes over concatenation: documents keep their relative order. */
  lemma {:induction false} SelectConcat(q: FindQuery, a: seq<Order>, b: seq<Order>)
    ensures Select(q, a + b) == Select(q, a) + Select(q, b)
  {
    if |a| > 0 {
      assert (a + b)[0] == a[0];
      assert (a + b)[1..] == a[1..] + b;
      SelectConcat(q, a[1..], b);
      var head := if Matches(q, a[0]) then [a[0]] else [];
      assert Select(q, a + b) == head + Select(q, a[1..] + b);
      assert Select(q, a) == head + Select(q, a[1..]);
    } else {
      assert a + b == b;
    }
  }

  /** Rows summarising a selection, one per selected document, name exactly the selected documents. */
  lemma RowsCoverSelection(orders: seq<Order>, rows: seq<OrderSummary>)
    requires |rows| == |orders|
    requires forall k :: 0 <= k < |rows| ==> rows[k] == Summarize(orders[k])
    ensures forall o: Order :: o in orders <==> exists i :: 0 <= i < |rows| && rows[i].order == o
  {
  }

  /**
   `orders.map(enrichOrderSummary)`: one row per document, in order
   (`EnrichOrderSummary` computes exactly `Summarize`).
   */
  function SummarizeAll(orders: seq<Order>): (rows: seq<OrderSummary>)
    ensures |rows| == |orders|
    ensures forall k :: 0 <= k < |rows| ==> rows[k] == Summarize(orders[k])
    ensures forall o: Order :: o in orders <==> exists i :: 0 <= i < |rows| && rows[i].order == o
  {
    var rows := seq(|orders|, k requires 0 <= k < |orders| => Summarize(orders[k]));
    RowsCoverSelection(orders, rows);
    rows
  }

  datatype IndexResult = IndexDenied | Listed(statusFilter: string, rows: seq<OrderSummary>)

  /**
   `index`: behind the permission gate, select the live orders the status
   filter admits and enrich each one as a list row. `docs` is the order
   collection in the order the store's sort returns it.
   */
  function Index(role: Role, statusParam: Option<string>, docs: seq<Order>): (r: IndexResult)
    ensures !HasOrderPermission(role) <==> r == IndexDenied
    ensures r.Listed? ==> r.statusFilter == StatusFilterOf(statusParam)
    ensures r.Listed? ==>
      var q := BuildQuery(r.statusFilter);
      && |r.rows| == |Select(q, docs)|
      && (forall i :: 0 <= i < |r.rows| ==> r.rows[i] == Summarize(Select(q, docs)[i]))
      && (forall o: Order :: o in docs && Matches(q, o) <==> exists i :: 0 <= i < |r.rows| && r.rows[i].order == o)
  {
    if !HasOrderPermission(role) then IndexDenied
    else
      var statusFilter := StatusFilterOf(statusParam);
      Listed(statusFilter, SummarizeAll(Select(BuildQuery(statusFilter), docs)))
  }

  /**
   A live order whose status is a table value, missing, null or empty is
   listed under the filter named by its own badge.
   */
  lemma ListedUnderOwnBadge(o: Order)
    requires !o.deleted
    requires o.status.Str? ==> o.status.text in StatusValues || o.status.text == ""
    ensures Matches(BuildQuery(GetStatusMeta(o.status).value), o)
  {
    match o.status
    case Str(t) =>
      if t == "" || t == "pending" {
        assert GetStatusMeta(o.status) == Pending;
        assert Matches(BuildQuery("pending"), o);
      } else {
        assert GetStatusMeta(o.status).value == t;
        assert Matches(BuildQuery(t), o);
      }
    case _ =>
      assert GetStatusMeta(o.status) == Pending;
      assert Matches(BuildQuery("pending"), o);
  }

  /**
   The converse fails: a non-empty status outside the table shows the
   `pending` badge, but the `pending` filter does not list the order.
   */
  lemma UnknownStatusBadgeNotFiltered(o: Order)
    requires o.status.Str? && o.status.text !in StatusValues && o.status.text != ""
    ensures GetStatusMeta(o.status) == Pending
    ensures !Matches(BuildQuery("pending"), o)
  {
  }
}
