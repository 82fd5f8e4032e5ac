/** What requests are charged (internal/transport/ratelimit.go, weights.gen.go), path by path. */
module Prices {
  import opened Wrappers
  import opened Routing
  import Strings

  function RowsOf(m: Method): seq<OpCost> {
    match m
    case GET => Rows(GET, GETS)
    case POST => Rows(POST, POSTS)
    case PUT => Rows(PUT, PUTS)
    case PATCH => Rows(PATCH, PATCHES)
    case DELETE => Rows(DELETE, DELETES)
    case OtherMethod(_) => []
  }

  lemma OnlyOf(m: Method, n: Method, entries: seq<Entry>, path: string)
    requires m != n
    ensures FirstLiteral(Rows(n, entries), m, path).None? && FirstTemplate(Rows(n, entries), m, path).None?
  {
    OtherVerbsDoNotMatch(Rows(n, entries), m, path);
  }

  // Only the rows of its own method matter to a request.
  lemma OwnRows(m: Method, path: string)
    ensures Found(SPEC_COSTS, m, path) == Found(RowsOf(m), m, path)
  {
    hide DELETES, GETS, PATCHES, POSTS, PUTS, FirstLiteral, FirstTemplate, Rows;
    var d, g, a, o, u := Rows(DELETE, DELETES), Rows(GET, GETS), Rows(PATCH, PATCHES), Rows(POST, POSTS), Rows(PUT, PUTS);
    FirstOfBoth(d, ((g + a) + o) + u, m, path);
    FirstOfBoth((g + a) + o, u, m, path);
    FirstOfBoth(g + a, o, m, path);
    FirstOfBoth(g, a, m, path);
    NothingInNothing(m, path);
    if m != DELETE { OnlyOf(m, DELETE, DELETES, path); }
    if m != GET { OnlyOf(m, GET, GETS, path); }
    if m != PATCH { OnlyOf(m, PATCH, PATCHES, path); }
    if m != POST { OnlyOf(m, POST, POSTS, path); }
    if m != PUT { OnlyOf(m, PUT, PUTS, path); }
  }

  lemma {:induction false} LiteralAt(rows: seq<OpCost>, k: nat, m: Method, path: string)
    requires k < |rows| && rows[k].verb == m && rows[k].path == path
    requires forall j :: 0 <= j < k ==> rows[j].path != path
    ensures FirstLiteral(rows, m, path) == Some(rows[k])
  {
    if k > 0 {
      LiteralAt(rows[1..], k - 1, m, path);
    }
  }

  lemma BareIs(path: string, query: Option<string>)
    requires '?' !in path
    ensures Strings.Before(if query.Some? then path + "?" + query.value else path, '?') == path
  {
    Strings.BeforeFirst(path, '?', if query.Some? then query.value else "");
    if query.Some? {
      assert path + "?" + query.value == path + ['?'] + query.value;
    }
  }

  // The path as it is sent, with or without a query.
  function Sent(path: string, query: Option<string>): string { if query.Some? then path + "?" + query.value else path }

  // A row that is named letter for letter is the one charged.
  lemma ChargedByRow(m: Method, path: string, query: Option<string>, orders: Option<nat>, k: nat)
    requires k < |RowsOf(m)| && RowsOf(m)[k].verb == m && RowsOf(m)[k].path == path && '?' !in path
    requires forall j :: 0 <= j < k ==> RowsOf(m)[j].path != path
    requires !(m == POST && path == "/auth/login")
    ensures var row := RowsOf(m)[k];
            CostOf(m, Sent(path, query), orders)
            == (row.budget, row.weight + if row.perOrders > 0 && orders.Some? then orders.value / row.perOrders else 0)
  {
    hide RowsOf, SPEC_COSTS, FirstLiteral, FirstTemplate, Strings.Before, CostOf;
    LiteralAt(RowsOf(m), k, m, path);
    OwnRows(m, path);
    BareIs(path, query);
    ChargedAs(m, Sent(path, query), path, orders, RowsOf(m)[k]);
  }

  lemma ChargedAs(m: Method, sent: string, path: string, orders: Option<nat>, row: OpCost)
    requires Strings.Before(sent, '?') == path && Found(SPEC_COSTS, m, path) == Some(row)
    requires !(m == POST && path == "/auth/login")
    ensures CostOf(m, sent, orders)
            == (row.budget, row.weight + if row.perOrders > 0 && orders.Some? then orders.value / row.perOrders else 0)
  {
    hide Found, SPEC_COSTS, Strings.Before;
  }

  lemma OrderPaths()
    ensures '?' !in "/orders" && '?' !in "/orders/batch" && '?' !in "/orders/preview"
    ensures "/auth/login" !in ["/orders", "/orders/batch", "/orders/preview"]
  {
  }

  lemma OrderRows()
    ensures var r := RowsOf(POST);
            && |r| == 13
            && r[8] == OpCost(POST, "/orders", OrderClass, 1, 0)
            && r[9] == OpCost(POST, "/orders/batch", OrderClass, 1, 40)
            && r[10] == OpCost(POST, "/orders/preview", OrderClass, 1, 0)
            && (forall j :: 0 <= j < 8 ==> r[j].path != "/orders" && r[j].path != "/orders/batch" && r[j].path != "/orders/preview")
            && r[8].path != r[9].path && r[8].path != r[10].path && r[9].path != r[10].path
  {
    var r := RowsOf(POST);
    assert "/orders/batch"[8] == 'b' && "/orders/preview"[8] == 'p';
    forall j | 0 <= j < 8 ensures r[j].path[1] != 'o' && |r[j].path| > 1 { assert POSTS[j].path[1] != 'o'; }
  }

  /** Placing an order costs one order token; a batch one and another for every forty orders in
      it, if its body is a list; a preview one. */
  lemma OrdersArePriced(query: Option<string>, orders: Option<nat>)
    ensures CostOf(POST, Sent("/orders", query), orders) == (OrderClass, 1)
    ensures CostOf(POST, Sent("/orders/batch", query), orders)
            == (OrderClass, 1 + match orders { case Some(n) => n / 40 case None => 0 })
    ensures CostOf(POST, Sent("/orders/preview", query), orders) == (OrderClass, 1)
  {
    OrderRows();
    OrderPaths();
    hide CostOf, Sent, POSTS, RowsOf;
    ChargedByRow(POST, "/orders", query, orders, 8);
    ChargedByRow(POST, "/orders/batch", query, orders, 9);
    ChargedByRow(POST, "/orders/preview", query, orders, 10);
  }

  lemma EditRow(e: string)
    requires '/' !in e
    ensures Found(RowsOf(PATCH), PATCH, "/orders/" + e)
            == if e == "" then None else Some(OpCost(PATCH, "/orders/{order_id}", OrderClass, 1, 0))
  {
    OrderTemplate(e);
    assert |"/orders/{order_id}"| == 18 && |"/orders/" + e| == 8 + |e|;
    assert RowsOf(PATCH) == [OpCost(PATCH, "/orders/{order_id}", OrderClass, 1, 0)];
    hide Matches, RowsOf;
    FoundInOne(OpCost(PATCH, "/orders/{order_id}", OrderClass, 1, 0), PATCH, "/orders/" + e);
  }

  lemma FoundInOne(row: OpCost, m: Method, path: string)
    requires row.verb == m
    ensures Found([row], m, path) == if row.path == path || Matches(row.path, path) then Some(row) else None
  {
    hide Matches;
    assert [row][1..] == [];
    NothingInNothing(m, path);
  }

  /** Changing an order costs one order token, unless its id is empty. */
  lemma EditsArePriced(id: string, query: string, orders: Option<nat>)
    ensures CostOf(PATCH, OrderPath(id, query), orders) == if id == "" then (RequestClass, 1) else (OrderClass, 1)
  {
    hide Found, SPEC_COSTS, PATCHES, RowsOf, Strings.Before;
    var e := PathEscape(id);
    EscapedIsOneSegment(id);
    assert OrderPath(id, query) == ("/orders/" + e) + ['?'] + query;
    assert '?' !in "/orders/";
    Strings.BeforeFirst("/orders/" + e, '?', query);
    OwnRows(PATCH, "/orders/" + e);
    EditRow(e);
  }

  // The rows before one of the heavy reads have paths of other lengths.
  lemma OtherLengths()
    ensures |GETS| == 39
    ensures forall j :: 0 <= j < 4 ==> |GETS[j].path| != 26
    ensures forall j :: 0 <= j < 7 ==> |GETS[j].path| != 16
    ensures forall j :: 0 <= j < 12 ==> |GETS[j].path| != 6
  {
  }

  lemma OtherLengthsToo()
    ensures |GETS| == 39
    ensures forall j :: 0 <= j < 28 ==> |GETS[j].path| != 15
  {
  }

  lemma NoQueries()
    ensures '?' !in "/account/portfolio-history" && '?' !in "/account/summary"
    ensures '?' !in "/fills" && '?' !in "/orders/history"
  {
  }

  lemma HeavyRows()
    ensures |GETS| == 39
    ensures GETS[4] == Entry("/account/portfolio-history", RequestClass, 5, 0)
    ensures GETS[7] == Entry("/account/summary", RequestClass, 5, 0)
    ensures GETS[12] == Entry("/fills", RequestClass, 5, 0)
    ensures GETS[28] == Entry("/orders/history", RequestClass, 5, 0)
  {
  }

  // A row told from those before it by the length of its path.
  lemma ChargedByLength(path: string, query: Option<string>, orders: Option<nat>, k: nat)
    requires k < |GETS| && GETS[k] == Entry(path, RequestClass, 5, 0) && '?' !in path
    requires forall j :: 0 <= j < k ==> |GETS[j].path| != |path|
    ensures CostOf(GET, Sent(path, query), orders) == (RequestClass, 5)
  {
    hide GETS, CostOf, Sent;
    ChargedByRow(GET, path, query, orders, k);
  }

  /** The heavy reads cost five request tokens. /orders/history is one of them, and not read as
      the order of that name, which would cost one. */
  lemma HeavyReadsArePriced(query: Option<string>, orders: Option<nat>)
    ensures CostOf(GET, Sent("/account/portfolio-history", query), orders) == (RequestClass, 5)
    ensures CostOf(GET, Sent("/account/summary", query), orders) == (RequestClass, 5)
    ensures CostOf(GET, Sent("/fills", query), orders) == (RequestClass, 5)
    ensures CostOf(GET, Sent("/orders/history", query), orders) == (RequestClass, 5)
  {
    hide CostOf, Sent, GETS;
    OtherLengths();
    OtherLengthsToo();
    HeavyRows();
    NoQueries();
    ChargedByLength("/account/portfolio-history", query, orders, 4);
    ChargedByLength("/account/summary", query, orders, 7);
    ChargedByLength("/fills", query, orders, 12);
    ChargedByLength("/orders/history", query, orders, 28);
  }

  /** A login is on a budget of its own; what the table does not know is an ordinary request. */
  lemma TheRestIsPriced(m: Method, path: string, query: Option<string>, orders: Option<nat>)
    requires '?' !in path
    ensures CostOf(POST, Sent("/auth/login", query), orders) == (LoginClass, 1)
    ensures m.OtherMethod? ==> CostOf(m, Sent(path, query), orders) == (RequestClass, 1)
  {
    BareIs(path, query);
    assert '?' !in "/auth/login";
    BareIs("/auth/login", query);
    OwnRows(m, path);
    NothingInNothing(m, path);
    hide SPEC_COSTS, Strings.Before, FirstLiteral, FirstTemplate;
  }
}
