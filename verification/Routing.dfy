/** Which budget a request is charged to (internal/transport/ratelimit.go, weights.gen.go),
    which budget a response describes, and the paths cancels are sent to (orders.go). */
module Routing {
  import opened Wrappers
  import Strings

  datatype Method = GET | POST | PUT | PATCH | DELETE | OtherMethod(name: string)

  datatype Class = RequestClass | OrderClass | CancelClass | LoginClass

  /** A row of the pinned table. `perOrders` above 0 adds a token per that many orders. */
  datatype OpCost = OpCost(verb: Method, path: string, budget: Class, weight: nat, perOrders: nat)

  datatype Entry = Entry(path: string, budget: Class, weight: nat, perOrders: nat)

  function Rows(m: Method, entries: seq<Entry>): seq<OpCost> {
    seq(|entries|, i requires 0 <= i < |entries| =>
      OpCost(m, entries[i].path, entries[i].budget, entries[i].weight, entries[i].perOrders))
  }

  function Req(path: string): Entry { Entry(path, RequestClass, 1, 0) }

  const DELETES: seq<Entry> := [
    Req("/admin/tiers/{address}"), Req("/agents/{address}"), Req("/keys/{key_id}"),
    Entry("/orders", CancelClass, 1, 0), Entry("/orders/{order_id}", CancelClass, 1, 0)]

  const GETS: seq<Entry> := [
    Req("/account"), Req("/account/cancel-on-disconnect"), Req("/account/equity-history"),
    Req("/account/fees"), Entry("/account/portfolio-history", RequestClass, 5, 0),
    Req("/account/rate-limit"), Req("/account/state"), Entry("/account/summary", RequestClass, 5, 0),
    Req("/account/{address}/adl-history"), Req("/admin/tiers"), Req("/agents"), Req("/deposits"),
    Entry("/fills", RequestClass, 5, 0), Req("/funding"), Req("/keys"), Req("/markets"),
    Req("/markets/summary"), Req("/markets/{market_id}/adl-events"), Req("/markets/{market_id}/candles"),
    Req("/markets/{market_id}/funding"), Req("/markets/{market_id}/funding-samples"),
    Req("/markets/{market_id}/mark-price"), Req("/markets/{market_id}/orderbook"),
    Req("/markets/{market_id}/risk-params"), Req("/markets/{market_id}/status"),
    Req("/markets/{market_id}/ticker"), Req("/markets/{market_id}/trades"), Req("/orders"),
    Entry("/orders/history", RequestClass, 5, 0), Req("/orders/{order_id}"), Req("/positions"),
    Req("/positions/closed"), Req("/stats"), Req("/stats/history"), Req("/status"), Req("/stream"),
    Req("/tickers"), Req("/withdrawals"), Req("/ws")]

  const PATCHES: seq<Entry> := [Entry("/orders/{order_id}", OrderClass, 1, 0)]

  const POSTS: seq<Entry> := [
    Req("/account/credit"), Req("/account/deposit"), Req("/account/margin"), Req("/agents/register"),
    Req("/auth/login"), Req("/deposits"), Req("/faucet"), Req("/keys"),
    Entry("/orders", OrderClass, 1, 0), Entry("/orders/batch", OrderClass, 1, 40),
    Entry("/orders/preview", OrderClass, 1, 0), Req("/ws-tokens"), Req("/ws/token")]

  const PUTS: seq<Entry> := [Req("/account/cancel-on-disconnect"), Req("/admin/tiers")]

  const SPEC_COSTS: seq<OpCost> :=
    Rows(DELETE, DELETES) + (Rows(GET, GETS) + Rows(PATCH, PATCHES) + Rows(POST, POSTS) + Rows(PUT, PUTS))

  predicate IsHole(segment: string) { segment != "" && segment[0] == '{' }

  predicate SegmentsMatch(ts: seq<string>, ps: seq<string>) {
    |ts| == |ps| && forall i :: 0 <= i < |ts| ==> ts[i] == ps[i] || (IsHole(ts[i]) && ps[i] != "")
  }

  predicate Matches(template: string, path: string) {
    SegmentsMatch(Strings.Split(template, '/'), Strings.Split(path, '/'))
  }

  method MatchTemplate(template: string, path: string) returns (matches: bool)
    ensures matches == Matches(template, path)
  {
    var ts, ps := Strings.Split(template, '/'), Strings.Split(path, '/');
    if |ts| != |ps| {
      return false;
    }
    for i := 0 to |ts|
      invariant forall j :: 0 <= j < i ==> ts[j] == ps[j] || (IsHole(ts[j]) && ps[j] != "")
    {
      if ts[i] != ps[i] && (!IsHole(ts[i]) || ps[i] == "") {
        return false;
      }
    }
    matches := true;
  }

  // The first row for the method whose path is this one, letter for letter.
  function FirstLiteral(costs: seq<OpCost>, m: Method, path: string): Option<OpCost> {
    if costs == [] then None
    else if costs[0].verb == m && costs[0].path == path then Some(costs[0])
    else FirstLiteral(costs[1..], m, path)
  }

  function FirstTemplate(costs: seq<OpCost>, m: Method, path: string): Option<OpCost> {
    if costs == [] then None
    else if costs[0].verb == m && Matches(costs[0].path, path) then Some(costs[0])
    else FirstTemplate(costs[1..], m, path)
  }

  function Found(costs: seq<OpCost>, m: Method, path: string): Option<OpCost> {
    var literal := FirstLiteral(costs, m, path);
    if literal.Some? then literal else FirstTemplate(costs, m, path)
  }

  /** One pass over the table finds a literal match wherever it stands, else the first template. */
  method Lookup(costs: seq<OpCost>, m: Method, path: string) returns (row: Option<OpCost>)
    ensures row == Found(costs, m, path)
  {
    row := None;
    for i := 0 to |costs|
      invariant FirstLiteral(costs, m, path) == FirstLiteral(costs[i..], m, path)
      invariant FirstTemplate(costs, m, path)
             == if row.Some? then row else FirstTemplate(costs[i..], m, path)
    {
      assert costs[i..][1..] == costs[i + 1..];
      if costs[i].verb == m {
        if costs[i].path == path {
          return Some(costs[i]);
        }
        if row.None? {
          var matches := MatchTemplate(costs[i].path, path);
          if matches {
            row := Some(costs[i]);
          }
        }
      }
    }
  }

  // `orders` is how many orders the body lists, if it parses as a list.
  function CostOf(m: Method, path: string, orders: Option<nat>): (Class, nat) {
    var bare := Strings.Before(path, '?');
    if m == POST && bare == "/auth/login" then (LoginClass, 1)
    else
      match Found(SPEC_COSTS, m, bare)
      case None => (RequestClass, 1)
      case Some(c) =>
        (c.budget, c.weight + if c.perOrders > 0 && orders.Some? then orders.value / c.perOrders else 0)
  }

  // --- the paths of orders.go ----------------------------------------------------------

  // The bytes url.PathEscape leaves alone.
  predicate Plain(c: char) {
    || 'a' <= c <= 'z' || 'A' <= c <= 'Z' || '0' <= c <= '9'
    || c in ['-', '_', '.', '~', '$', '&', '+', ':', '=', '@']
  }

  function Hex(n: nat): char { "0123456789ABCDEF"[n % 16] }

  function EscapeByte(c: char): string {
    if Plain(c) then [c] else ['%', Hex(c as int / 16), Hex(c as int)]
  }

  function PathEscape(s: string): string {
    if s == "" then "" else EscapeByte(s[0]) + PathEscape(s[1..])
  }

  // The encoded query is whatever url.Values makes of the market.
  function OrderPath(id: string, query: string): string { "/orders/" + PathEscape(id) + "?" + query }

  function CancelAllPath(query: Option<string>): string {
    if query.Some? then "/orders?" + query.value else "/orders"
  }

  lemma {:induction false} EscapedIsOneSegment(s: string)
    ensures '/' !in PathEscape(s) && '?' !in PathEscape(s)
    ensures PathEscape(s) == "" <==> s == ""
  {
    if s != "" {
      EscapedIsOneSegment(s[1..]);
      HexIsPlain(s[0] as int / 16);
      HexIsPlain(s[0] as int);
    }
  }

  lemma HexIsPlain(n: nat)
    ensures Hex(n) != '/' && Hex(n) != '?'
  {
  }

  lemma {:induction false} FirstOfBoth(a: seq<OpCost>, b: seq<OpCost>, m: Method, path: string)
    ensures FirstLiteral(a + b, m, path)
            == if FirstLiteral(a, m, path).Some? then FirstLiteral(a, m, path) else FirstLiteral(b, m, path)
    ensures FirstTemplate(a + b, m, path)
            == if FirstTemplate(a, m, path).Some? then FirstTemplate(a, m, path) else FirstTemplate(b, m, path)
  {
    hide Matches;
    if a == [] {
      assert a + b == b;
    } else {
      FirstOfBoth(a[1..], b, m, path);
      assert (a + b)[1..] == a[1..] + b;
    }
  }

  lemma {:induction false} OtherVerbsDoNotMatch(costs: seq<OpCost>, m: Method, path: string)
    requires forall c :: c in costs ==> c.verb != m
    ensures FirstLiteral(costs, m, path).None? && FirstTemplate(costs, m, path).None?
  {
    if costs != [] {
      OtherVerbsDoNotMatch(costs[1..], m, path);
    }
  }

  // A delete is looked up among the five DELETE rows only.
  lemma DeletesOnly(path: string)
    ensures Found(SPEC_COSTS, DELETE, path) == Found(Rows(DELETE, DELETES), DELETE, path)
  {
    hide DELETES, GETS, PATCHES, POSTS, PUTS, FirstLiteral, FirstTemplate;
    var rest := Rows(GET, GETS) + Rows(PATCH, PATCHES) + Rows(POST, POSTS) + Rows(PUT, PUTS);
    OtherVerbsDoNotMatch(rest, DELETE, path);
    FirstOfBoth(Rows(DELETE, DELETES), rest, DELETE, path);
  }

  lemma SplitPath2(a: string)
    requires '/' !in a
    ensures Strings.Split("/" + a, '/') == ["", a]
  {
    assert "" + ['/'] + a == "/" + a;
    Strings.SplitFirst("", '/', a);
    Strings.SplitWhole(a, '/');
  }

  lemma SplitPath3(a: string, b: string)
    requires '/' !in a && '/' !in b
    ensures Strings.Split("/" + a + "/" + b, '/') == ["", a, b]
  {
    assert "" + ['/'] + (a + ['/'] + b) == "/" + a + "/" + b;
    Strings.SplitFirst("", '/', a + ['/'] + b);
    Strings.SplitFirst(a, '/', b);
    Strings.SplitWhole(b, '/');
  }

  lemma SplitPath4(a: string, b: string, c: string)
    requires '/' !in a && '/' !in b && '/' !in c
    ensures Strings.Split("/" + a + "/" + b + "/" + c, '/') == ["", a, b, c]
  {
    var tail := a + ['/'] + (b + ['/'] + c);
    assert "" + ['/'] + tail == "/" + a + "/" + b + "/" + c;
    Strings.SplitFirst("", '/', tail);
    Strings.SplitFirst(a, '/', b + ['/'] + c);
    Strings.SplitFirst(b, '/', c);
    Strings.SplitWhole(c, '/');
  }

  // Of the five DELETE templates only /orders/{order_id} can match a path under /orders/.
  lemma DeleteTemplates(e: string)
    requires '/' !in e
    ensures !Matches("/admin/tiers/{address}", "/orders/" + e)
    ensures !Matches("/agents/{address}", "/orders/" + e)
    ensures !Matches("/keys/{key_id}", "/orders/" + e)
    ensures !Matches("/orders", "/orders/" + e)
    ensures Matches("/orders/{order_id}", "/orders/" + e) <==> e != ""
  {
    hide Matches, IsHole;
    OtherLength(e);
    OrderTemplate(e);
    assert !IsHole("agents") && !IsHole("keys") by { PlainWords(); }
    OtherFirstSegment("agents", "{address}", e);
    assert "/" + "agents" + "/" + "{address}" == "/agents/{address}";
    OtherFirstSegment("keys", "{key_id}", e);
    assert "/" + "keys" + "/" + "{key_id}" == "/keys/{key_id}";
  }

  lemma PlainWords()
    ensures !IsHole("agents") && !IsHole("keys") && IsHole("{order_id}")
  {
    assert "{order_id}"[0] == '{';
  }

  lemma OtherLength(e: string)
    requires '/' !in e
    ensures !Matches("/admin/tiers/{address}", "/orders/" + e)
    ensures !Matches("/orders", "/orders/" + e)
  {
    hide Strings.Split, IsHole;
    assert "/" + "orders" + "/" + e == "/orders/" + e;
    SplitPath3("orders", e);
    assert "/" + "admin" + "/" + "tiers" + "/" + "{address}" == "/admin/tiers/{address}";
    SplitPath4("admin", "tiers", "{address}");
    SplitPath2("orders");
    assert "/" + "orders" == "/orders";
  }

  lemma OrderTemplate(e: string)
    requires '/' !in e
    ensures Matches("/orders/{order_id}", "/orders/" + e) <==> e != ""
  {
    PlainWords();
    hide Strings.Split, IsHole;
    assert "/" + "orders" + "/" + e == "/orders/" + e;
    SplitPath3("orders", e);
    assert "/" + "orders" + "/" + "{order_id}" == "/orders/{order_id}";
    SplitPath3("orders", "{order_id}");
    var ts, ps := Strings.Split("/orders/{order_id}", '/'), Strings.Split("/orders/" + e, '/');
    assert ts[2] == "{order_id}" && ps[2] == e;
    assert "{order_id}" != "";
  }

  lemma OtherFirstSegment(first: string, second: string, e: string)
    requires '/' !in first && '/' !in second && '/' !in e && first != "orders" && !IsHole(first)
    ensures !Matches("/" + first + "/" + second, "/orders/" + e)
  {
    hide Strings.Split;
    assert "/" + "orders" + "/" + e == "/orders/" + e;
    SplitPath3("orders", e);
    SplitPath3(first, second);
    assert Strings.Split("/" + first + "/" + second, '/')[1] == first;
    assert Strings.Split("/orders/" + e, '/')[1] == "orders";
  }

  // Looking from row k on.
  lemma LookFrom(costs: seq<OpCost>, k: nat, m: Method, path: string)
    requires k < |costs| && costs[k].verb == m
    ensures FirstLiteral(costs[k..], m, path)
            == if costs[k].path == path then Some(costs[k]) else FirstLiteral(costs[k + 1..], m, path)
    ensures FirstTemplate(costs[k..], m, path)
            == if Matches(costs[k].path, path) then Some(costs[k]) else FirstTemplate(costs[k + 1..], m, path)
  {
    hide Matches;
    assert costs[k..][1..] == costs[k + 1..];
  }

  lemma FoundAmongDeletes(e: string)
    requires '/' !in e
    ensures Found(Rows(DELETE, DELETES), DELETE, "/orders/" + e)
            == if e == "" then None else Some(OpCost(DELETE, "/orders/{order_id}", CancelClass, 1, 0))
  {
    hide Matches, FirstLiteral, FirstTemplate;
    var r, path := Rows(DELETE, DELETES), "/orders/" + e;
    DeleteTemplates(e);
    LookFrom(r, 0, DELETE, path);
    LookFrom(r, 1, DELETE, path);
    LookFrom(r, 2, DELETE, path);
    LookFrom(r, 3, DELETE, path);
    LookFrom(r, 4, DELETE, path);
    assert path[1] == 'o' && |path| >= 8;
    assert r[0].path[1] == 'a' && r[1].path[1] == 'a' && r[2].path[1] == 'k' && |r[3].path| == 7;
    assert r[4].path[8] == '{';
    assert e == "" ==> |path| == 8;
    assert r[0..] == r && r[5..] == [];
    NothingInNothing(DELETE, path);
  }

  lemma NothingInNothing(m: Method, path: string)
    ensures FirstLiteral([], m, path).None? && FirstTemplate([], m, path).None?
  {
  }

  /** The cancel of a named order is on no budget, whatever the id and the market; an empty
      id makes a path that is read as an ordinary request. */
  lemma CancelOrderClass(id: string, query: string, orders: Option<nat>)
    ensures CostOf(DELETE, OrderPath(id, query), orders)
            == if id == "" then (RequestClass, 1) else (CancelClass, 1)
  {
    hide Found, SPEC_COSTS, DELETES, Strings.Before;
    var e := PathEscape(id);
    EscapedIsOneSegment(id);
    assert OrderPath(id, query) == ("/orders/" + e) + ['?'] + query;
    assert '?' !in "/orders/";
    Strings.BeforeFirst("/orders/" + e, '?', query);
    DeletesOnly("/orders/" + e);
    FoundAmongDeletes(e);
  }

  lemma FoundCancelAll()
    ensures Found(Rows(DELETE, DELETES), DELETE, "/orders") == Some(OpCost(DELETE, "/orders", CancelClass, 1, 0))
  {
    hide Matches, FirstLiteral, FirstTemplate;
    var r, path := Rows(DELETE, DELETES), "/orders";
    LookFrom(r, 0, DELETE, path);
    LookFrom(r, 1, DELETE, path);
    LookFrom(r, 2, DELETE, path);
    LookFrom(r, 3, DELETE, path);
    assert path[1] == 'o' && r[0].path[1] == 'a' && r[1].path[1] == 'a' && r[2].path[1] == 'k';
    assert r[0..] == r;
  }

  /** Cancelling everything, in one market or all, is on no budget either. */
  lemma CancelAllClass(query: Option<string>, orders: Option<nat>)
    ensures CostOf(DELETE, CancelAllPath(query), orders) == (CancelClass, 1)
  {
    hide Found, SPEC_COSTS, DELETES, Strings.Before;
    if query.Some? {
      assert CancelAllPath(query) == "/orders" + ['?'] + query.value;
    }
    assert '?' !in "/orders";
    Strings.BeforeFirst("/orders", '?', if query.Some? then query.value else "");
    DeletesOnly("/orders");
    FoundCancelAll();
  }

  // --- an escaped id reads back --------------------------------------------------------

  function HexValue(c: char): nat {
    if '0' <= c <= '9' then c as int - '0' as int else if 'A' <= c <= 'F' then c as int - 'A' as int + 10 else 0
  }

  function PathUnescape(s: string): string
    decreases |s|
  {
    if s == "" then ""
    else if s[0] == '%' && |s| >= 3 then
      [(16 * HexValue(s[1]) + HexValue(s[2])) as char] + PathUnescape(s[3..])
    else [s[0]] + PathUnescape(s[1..])
  }

  lemma HexReads(n: nat)
    requires n < 16
    ensures HexValue(Hex(n)) == n
  {
  }

  lemma ByteReads(c: char, rest: string)
    requires c as int < 256
    ensures PathUnescape(EscapeByte(c) + rest) == [c] + PathUnescape(rest)
  {
    var s := EscapeByte(c) + rest;
    if Plain(c) {
      assert s == [c] + rest && s[1..] == rest;
    } else {
      HexReads(c as int / 16);
      HexReads(c as int % 16);
      assert Hex(c as int) == Hex(c as int % 16);
      hide Hex, HexValue;
      assert s == ['%', Hex(c as int / 16), Hex(c as int)] + rest && s[3..] == rest;
    }
  }

  predicate Bytes(s: string) { forall i :: 0 <= i < |s| ==> s[i] as int < 256 }

  /** The id in the path of an order reads back as the id that was given, byte for byte. */
  lemma {:induction false} EscapedReadsBack(s: string)
    requires Bytes(s)
    ensures PathUnescape(PathEscape(s)) == s
  {
    hide PathUnescape, EscapeByte;
    if s != "" {
      EscapedReadsBack(s[1..]);
      ByteReads(s[0], PathEscape(s[1..]));
    } else {
      NothingReadsBack();
    }
  }

  lemma NothingReadsBack()
    ensures PathUnescape("") == ""
  {
  }

  // --- which row is found --------------------------------------------------------------

  predicate IsRow(c: OpCost, m: Method, path: string) { c.verb == m && c.path == path }

  predicate FitsRow(c: OpCost, m: Method, path: string) { c.verb == m && Matches(c.path, path) }

  predicate NoneBefore(costs: seq<OpCost>, i: nat, m: Method, path: string)
    requires i <= |costs|
  {
    forall j :: 0 <= j < i ==> !FitsRow(costs[j], m, path)
  }

  lemma {:induction false} LiteralIsRow(costs: seq<OpCost>, m: Method, path: string)
    ensures FirstLiteral(costs, m, path).None? <==> forall c :: c in costs ==> !IsRow(c, m, path)
    ensures FirstLiteral(costs, m, path).Some? ==>
              IsRow(FirstLiteral(costs, m, path).value, m, path) && FirstLiteral(costs, m, path).value in costs
  {
    if costs != [] {
      LiteralIsRow(costs[1..], m, path);
      assert costs == [costs[0]] + costs[1..];
      assert forall c :: c in costs <==> c == costs[0] || c in costs[1..];
      assert IsRow(costs[0], m, path) ==> costs[0] in costs;
    }
  }

  lemma {:induction false} TemplateIsFirst(costs: seq<OpCost>, m: Method, path: string) returns (i: nat)
    ensures i <= |costs| && NoneBefore(costs, i, m, path)
    ensures FirstTemplate(costs, m, path).None? <==> i == |costs|
    ensures i < |costs| ==> FitsRow(costs[i], m, path) && FirstTemplate(costs, m, path) == Some(costs[i])
  {
    hide Matches;
    i := 0;
    if costs != [] && !FitsRow(costs[0], m, path) {
      var k := TemplateIsFirst(costs[1..], m, path);
      i := k + 1;
      forall j | 0 <= j < i ensures !FitsRow(costs[j], m, path) {
        assert j > 0 ==> costs[j] == costs[1..][j - 1];
      }
    }
  }

  /** A row with the request's own path is found wherever it stands; without one the first template
      that fits is; and none is found only if neither is there. */
  lemma LiteralBeforeTemplate(costs: seq<OpCost>, m: Method, path: string) returns (i: nat)
    ensures i <= |costs| && NoneBefore(costs, i, m, path)
    ensures var row := Found(costs, m, path);
            if exists c :: c in costs && IsRow(c, m, path) then row.Some? && row.value in costs && IsRow(row.value, m, path)
            else if i < |costs| then row == Some(costs[i]) && FitsRow(costs[i], m, path)
            else row.None?
  {
    LiteralIsRow(costs, m, path);
    i := TemplateIsFirst(costs, m, path);
    hide FirstLiteral, FirstTemplate, FitsRow, IsRow;
  }
}
