/** The relational condition builder (`sqls.Cnd`): it keeps an ordered list of
    `(query, args)` pairs, an ordered list of order-by columns, the selected columns and a
    mutable paging descriptor, and replays them onto an ORM query chain. The chain is
    modelled as the trace of calls made on it. `Paging.Offset()` is not part of this
    model and is passed in as `offsetOf(page, limit)`. */
module SqlCnd {
  import opened Wrappers
  import opened GoStd
  import opened Values
  import opened SqlUtils
  import FindInSetSql

  datatype ParamPair = ParamPair(query: string, args: seq<Value>)

  datatype OrderByCol = OrderByCol(column: string, asc: bool)

  /** One call made on the `*gorm.DB` chain. */
  datatype Call =
    | Model(model: Value)
    | Select(cols: seq<string>)
    | Where(query: string, args: seq<Value>)
    | Order(clause: string)
    | Limit(n: int64)
    | Offset(n: int64)

  /** The page number and size held by a `*Paging`, read at one moment. */
  datatype PagingView = PagingView(page: int64, limit: int64)

  /** A Go `[]string` passed as one query argument. */
  function StringSlice(values: seq<string>): (v: Value)
    ensures v.Arr? && |v.items| == |values|
    ensures forall i :: 0 <= i < |values| ==> v.items[i] == Str(values[i])
  {
    if values == [] then Arr([]) else Arr(StringSlice(values[..|values| - 1]).items + [Str(values[|values| - 1])])
  }

  /** The column list `Build` selects: every selected column quoted, in order. */
  function WrapAll(isBlank: string -> bool, cols: seq<string>): (r: seq<string>)
    ensures |r| == |cols|
    ensures forall i :: 0 <= i < |cols| ==> r[i] == KeywordWrap(isBlank, cols[i])
  {
    if cols == [] then [] else WrapAll(isBlank, cols[..|cols| - 1]) + [KeywordWrap(isBlank, cols[|cols| - 1])]
  }

  function SelectCalls(isBlank: string -> bool, cols: seq<string>): seq<Call>
  {
    if |cols| > 0 then [Select(WrapAll(isBlank, cols))] else []
  }

  /** One `Where` call per stored pair, in accumulation order. */
  function WhereCalls(ps: seq<ParamPair>): seq<Call>
  {
    if ps == [] then [] else WhereCalls(ps[..|ps| - 1]) + [Where(ps[|ps| - 1].query, ps[|ps| - 1].args)]
  }

  /** The clause passed to `Order` for one order-by column. */
  function OrderClause(o: OrderByCol): string
  {
    o.column + (if o.asc then " ASC" else " DESC")
  }

  function OrderCalls(os: seq<OrderByCol>): seq<Call>
  {
    if os == [] then [] else OrderCalls(os[..|os| - 1]) + [Order(OrderClause(os[|os| - 1]))]
  }

  /** `Limit` when the page size is positive, then `Offset` when the offset is positive. */
  function PagingCalls(pg: Option<PagingView>, offsetOf: (int64, int64) -> int64): seq<Call>
  {
    if pg.None? then []
    else
      (if pg.value.limit > 0 then [Limit(pg.value.limit)] else [])
      + (if offsetOf(pg.value.page, pg.value.limit) > 0 then [Offset(offsetOf(pg.value.page, pg.value.limit))] else [])
  }

  /** The calls `Build` adds to the chain. */
  function BuildTrace(isBlank: string -> bool, offsetOf: (int64, int64) -> int64, cols: seq<string>,
                      ps: seq<ParamPair>, os: seq<OrderByCol>, pg: Option<PagingView>): seq<Call>
  {
    SelectCalls(isBlank, cols) + WhereCalls(ps) + OrderCalls(os) + PagingCalls(pg, offsetOf)
  }

  /** Regrouping a concatenation of five chains. */
  lemma AppendAssoc<T>(a: seq<T>, b: seq<T>, c: seq<T>, d: seq<T>, e: seq<T>)
    ensures a + b + c + d + e == a + (b + c + d + e)
  {
  }

  /** Position of each kind of call in the order `Build` applies them. */
  function Rank(c: Call): nat
  {
    match c
    case Model(_) => 0
    case Select(_) => 1
    case Where(_, _) => 2
    case Order(_) => 3
    case Limit(_) => 4
    case Offset(_) => 5
  }

  predicate AllRank(t: seq<Call>, r: nat) { forall i :: 0 <= i < |t| ==> Rank(t[i]) == r }

  predicate Ranked(t: seq<Call>) { forall i, j :: 0 <= i < j < |t| ==> Rank(t[i]) <= Rank(t[j]) }

  /** The where calls replay the stored pairs one for one, query and arguments unchanged. */
  lemma {:induction false} WhereCallsReplay(ps: seq<ParamPair>)
    ensures |WhereCalls(ps)| == |ps|
    ensures forall i :: 0 <= i < |ps| ==> WhereCalls(ps)[i] == Where(ps[i].query, ps[i].args)
  {
    if ps != [] {
      WhereCallsReplay(ps[..|ps| - 1]);
    }
  }

  /** The order calls follow the order-by columns in call order, ASC or DESC by direction. */
  lemma {:induction false} OrderCallsReplay(os: seq<OrderByCol>)
    ensures |OrderCalls(os)| == |os|
    ensures forall i :: 0 <= i < |os| ==>
      OrderCalls(os)[i] == Order(os[i].column + (if os[i].asc then " ASC" else " DESC"))
  {
    if os != [] {
      OrderCallsReplay(os[..|os| - 1]);
    }
  }

  /** Every call of `t` has a rank between `lo` and `hi`. */
  predicate RankWithin(t: seq<Call>, lo: nat, hi: nat) { forall i :: 0 <= i < |t| ==> lo <= Rank(t[i]) <= hi }

  /** Two ranked chains whose ranks meet at `mid` make a ranked chain. */
  lemma RankedAppend(a: seq<Call>, b: seq<Call>, lo: nat, mid: nat, hi: nat)
    requires lo <= mid <= hi
    requires Ranked(a) && RankWithin(a, lo, mid)
    requires Ranked(b) && RankWithin(b, mid, hi)
    ensures Ranked(a + b) && RankWithin(a + b, lo, hi)
  {
    var t := a + b;
    forall i, j | 0 <= i < j < |t| ensures Rank(t[i]) <= Rank(t[j]) {
      if j < |a| {
        assert t[i] == a[i] && t[j] == a[j];
      } else if i < |a| {
        assert t[i] == a[i] && t[j] == b[j - |a|];
      } else {
        assert t[i] == b[i - |a|] && t[j] == b[j - |a|];
      }
    }
    forall i | 0 <= i < |t| ensures lo <= Rank(t[i]) <= hi {
      if i < |a| {
        assert t[i] == a[i];
      } else {
        assert t[i] == b[i - |a|];
      }
    }
  }

  lemma SelectCallsRanked(isBlank: string -> bool, cols: seq<string>)
    ensures Ranked(SelectCalls(isBlank, cols)) && RankWithin(SelectCalls(isBlank, cols), 1, 1)
  {
  }

  lemma WhereCallsRanked(ps: seq<ParamPair>)
    ensures Ranked(WhereCalls(ps)) && RankWithin(WhereCalls(ps), 2, 2)
  {
    WhereCallsReplay(ps);
  }

  lemma OrderCallsRanked(os: seq<OrderByCol>)
    ensures Ranked(OrderCalls(os)) && RankWithin(OrderCalls(os), 3, 3)
  {
    OrderCallsReplay(os);
  }

  lemma PagingCallsRanked(pg: Option<PagingView>, offsetOf: (int64, int64) -> int64)
    ensures Ranked(PagingCalls(pg, offsetOf)) && RankWithin(PagingCalls(pg, offsetOf), 4, 5)
  {
  }

  /** Build applies the selection first, then every where, then the orders, then limit,
      then offset: the kinds of call never go backwards. */
  lemma BuildTraceRanked(isBlank: string -> bool, offsetOf: (int64, int64) -> int64, cols: seq<string>,
                         ps: seq<ParamPair>, os: seq<OrderByCol>, pg: Option<PagingView>)
    ensures Ranked(BuildTrace(isBlank, offsetOf, cols, ps, os, pg))
  {
    var s, w, o, p := SelectCalls(isBlank, cols), WhereCalls(ps), OrderCalls(os), PagingCalls(pg, offsetOf);
    SelectCallsRanked(isBlank, cols);
    WhereCallsRanked(ps);
    OrderCallsRanked(os);
    PagingCallsRanked(pg, offsetOf);
    RankedAppend(s, w, 1, 1, 2);
    RankedAppend(s + w, o, 1, 2, 3);
    RankedAppend(s + w + o, p, 1, 3, 5);
  }

  /** A `Limit` call appears exactly when there is paging with a positive size, and it
      carries that size; an `Offset` call appears exactly when the offset is positive. */
  lemma PagingCallsIff(pg: Option<PagingView>, offsetOf: (int64, int64) -> int64, n: int64)
    ensures Limit(n) in PagingCalls(pg, offsetOf) <==> pg.Some? && pg.value.limit > 0 && n == pg.value.limit
    ensures Offset(n) in PagingCalls(pg, offsetOf) <==>
      pg.Some? && n == offsetOf(pg.value.page, pg.value.limit) && n > 0
  {
  }

  /** The selection loop of `Build`: each selected column quoted, in order. */
  method QuoteCols(isBlank: string -> bool, selectCols: seq<string>) returns (cols: seq<string>)
    ensures cols == WrapAll(isBlank, selectCols)
  {
    cols := [];
    for i := 0 to |selectCols|
      invariant cols == WrapAll(isBlank, selectCols[..i])
    {
      assert selectCols[..i + 1][..i] == selectCols[..i];
      cols := cols + [KeywordWrap(isBlank, selectCols[i])];
    }
    assert selectCols[..|selectCols|] == selectCols;
  }

  /** The where loop of `Build` and `Count`: one `Where` call per pair, in order. */
  method ReplayWheres(db: seq<Call>, params: seq<ParamPair>) returns (ret: seq<Call>)
    ensures ret == db + WhereCalls(params)
  {
    ret := db;
    for i := 0 to |params|
      invariant ret == db + WhereCalls(params[..i])
    {
      assert params[..i + 1][..i] == params[..i];
      ret := ret + [Where(params[i].query, params[i].args)];
    }
    assert params[..|params|] == params;
  }

  /** The order loop of `Build`: one `Order` call per column, ASC or DESC by direction. */
  method ReplayOrders(db: seq<Call>, orders: seq<OrderByCol>) returns (ret: seq<Call>)
    ensures ret == db + OrderCalls(orders)
  {
    ret := db;
    for i := 0 to |orders|
      invariant ret == db + OrderCalls(orders[..i])
    {
      assert orders[..i + 1][..i] == orders[..i];
      if orders[i].asc {
        ret := ret + [Order(orders[i].column + " ASC")];
      } else {
        ret := ret + [Order(orders[i].column + " DESC")];
      }
    }
    assert orders[..|orders|] == orders;
  }

  /** The limit and offset steps of `Build`, given the paging descriptor's current values. */
  method ApplyPaging(db: seq<Call>, pg: Option<PagingView>, offsetOf: (int64, int64) -> int64)
    returns (ret: seq<Call>)
    ensures ret == db + PagingCalls(pg, offsetOf)
  {
    ret := db;
    if pg.Some? && pg.value.limit > 0 {
      ret := ret + [Limit(pg.value.limit)];
    }
    if pg.Some? && offsetOf(pg.value.page, pg.value.limit) > 0 {
      ret := ret + [Offset(offsetOf(pg.value.page, pg.value.limit))];
    }
  }

  /** `*Paging` of the relational builder: `Page` overwrites it in place. */
  class Paging {
    var page: int64
    var limit: int64

    constructor (page: int64, limit: int64)
      ensures this.page == page && this.limit == limit
    {
      this.page, this.limit := page, limit;
    }
  }

  class Cnd {
    var selectCols: seq<string>
    var params: seq<ParamPair>
    var orders: seq<OrderByCol>
    var paging: Paging?

    /** `NewCnd`: no columns, no conditions, no order, no paging. */
    constructor ()
      ensures selectCols == [] && params == [] && orders == [] && paging == null
    {
      selectCols, params, orders, paging := [], [], [], null;
    }

    /** The paging descriptor's current page and size, if there is one. */
    function PagingNow(): Option<PagingView>
      reads this, paging
    {
      if paging == null then None else Some(PagingView(paging.page, paging.limit))
    }

    method Cols(cols: seq<string>) returns (self: Cnd)
      modifies this
      ensures self == this
      ensures selectCols == old(selectCols) + cols
      ensures params == old(params) && orders == old(orders) && paging == old(paging)
    {
      if |cols| > 0 {
        selectCols := selectCols + cols;
      }
      self := this;
    }

    /** Appends one `(query, args)` pair and touches nothing else. */
    method Where(query: string, args: seq<Value>) returns (self: Cnd)
      modifies this
      ensures self == this
      ensures params == old(params) + [ParamPair(query, args)]
      ensures selectCols == old(selectCols) && orders == old(orders) && paging == old(paging)
    {
      params := params + [ParamPair(query, args)];
      self := this;
    }

    /** The comparison helpers pass their variadic arguments on as ONE argument: the
        stored argument list holds a single slice. */
    method Eq(isBlank: string -> bool, column: string, args: seq<Value>) returns (self: Cnd)
      modifies this
      ensures self == this
      ensures params == old(params) + [ParamPair(KeywordWrap(isBlank, column) + " = ?", [Arr(args)])]
      ensures selectCols == old(selectCols) && orders == old(orders) && paging == old(paging)
    {
      self := Where(KeywordWrap(isBlank, column) + " = ?", [Arr(args)]);
    }

    method NotEq(isBlank: string -> bool, column: string, args: seq<Value>) returns (self: Cnd)
      modifies this
      ensures self == this
      ensures params == old(params) + [ParamPair(KeywordWrap(isBlank, column) + " <> ?", [Arr(args)])]
      ensures selectCols == old(selectCols) && orders == old(orders) && paging == old(paging)
    {
      self := Where(KeywordWrap(isBlank, column) + " <> ?", [Arr(args)]);
    }

    method Gt(isBlank: string -> bool, column: string, args: seq<Value>) returns (self: Cnd)
      modifies this
      ensures self == this
      ensures params == old(params) + [ParamPair(KeywordWrap(isBlank, column) + " > ?", [Arr(args)])]
      ensures selectCols == old(selectCols) && orders == old(orders) && paging == old(paging)
    {
      self := Where(KeywordWrap(isBlank, column) + " > ?", [Arr(args)]);
    }

    method Gte(isBlank: string -> bool, column: string, args: seq<Value>) returns (self: Cnd)
      modifies this
      ensures self == this
      ensures params == old(params) + [ParamPair(KeywordWrap(isBlank, column) + " >= ?", [Arr(args)])]
      ensures selectCols == old(selectCols) && orders == old(orders) && paging == old(paging)
    {
      self := Where(KeywordWrap(isBlank, column) + " >= ?", [Arr(args)]);
    }

    method Lt(isBlank: string -> bool, column: string, args: seq<Value>) returns (self: Cnd)
      modifies this
      ensures self == this
      ensures params == old(params) + [ParamPair(KeywordWrap(isBlank, column) + " < ?", [Arr(args)])]
      ensures selectCols == old(selectCols) && orders == old(orders) && paging == old(paging)
    {
      self := Where(KeywordWrap(isBlank, column) + " < ?", [Arr(args)]);
    }

    method Lte(isBlank: string -> bool, column: string, args: seq<Value>) returns (self: Cnd)
      modifies this
      ensures self == this
      ensures params == old(params) + [ParamPair(KeywordWrap(isBlank, column) + " <= ?", [Arr(args)])]
      ensures selectCols == old(selectCols) && orders == old(orders) && paging == old(paging)
    {
      self := Where(KeywordWrap(isBlank, column) + " <= ?", [Arr(args)]);
    }

    /** Contains: the argument is `%str%`. */
    method Like(isBlank: string -> bool, column: string, str: string) returns (self: Cnd)
      modifies this
      ensures self == this
      ensures params == old(params) + [ParamPair(KeywordWrap(isBlank, column) + " LIKE ?", [Str("%" + str + "%")])]
      ensures selectCols == old(selectCols) && orders == old(orders) && paging == old(paging)
    {
      self := Where(KeywordWrap(isBlank, column) + " LIKE ?", [Str("%" + str + "%")]);
    }

    /** Starts with: the argument is `str%`. */
    method Starting(isBlank: string -> bool, column: string, str: string) returns (self: Cnd)
      modifies this
      ensures self == this
      ensures params == old(params) + [ParamPair(KeywordWrap(isBlank, column) + " LIKE ?", [Str(str + "%")])]
      ensures selectCols == old(selectCols) && orders == old(orders) && paging == old(paging)
    {
      self := Where(KeywordWrap(isBlank, column) + " LIKE ?", [Str(str + "%")]);
    }

    /** Ends with: the argument is `%str`. */
    method Ending(isBlank: string -> bool, column: string, str: string) returns (self: Cnd)
      modifies this
      ensures self == this
      ensures params == old(params) + [ParamPair(KeywordWrap(isBlank, column) + " LIKE ?", [Str("%" + str)])]
      ensures selectCols == old(selectCols) && orders == old(orders) && paging == old(paging)
    {
      self := Where(KeywordWrap(isBlank, column) + " LIKE ?", [Str("%" + str)]);
    }

    method In(isBlank: string -> bool, column: string, params': Value) returns (self: Cnd)
      modifies this
      ensures self == this
      ensures params == old(params) + [ParamPair(KeywordWrap(isBlank, column) + " in (?) ", [params'])]
      ensures selectCols == old(selectCols) && orders == old(orders) && paging == old(paging)
    {
      self := Where(KeywordWrap(isBlank, column) + " in (?) ", [params']);
    }

    method NotIn(isBlank: string -> bool, column: string, params': Value) returns (self: Cnd)
      modifies this
      ensures self == this
      ensures params == old(params) + [ParamPair(KeywordWrap(isBlank, column) + " not in (?) ", [params'])]
      ensures selectCols == old(selectCols) && orders == old(orders) && paging == old(paging)
    {
      self := Where(KeywordWrap(isBlank, column) + " not in (?) ", [params']);
    }

    /** Token membership in a comma-separated text column, with the query as evidently
        intended (see FindInSetSql for the query as written). */
    method FindInSet(isBlank: string -> bool, column: string, value: Value) returns (self: Cnd)
      modifies this
      ensures self == this
      ensures params == old(params) + [ParamPair(FindInSetSql.Query(KeywordWrap(isBlank, column), false), [value])]
      ensures selectCols == old(selectCols) && orders == old(orders) && paging == old(paging)
    {
      self := Where(FindInSetSql.Query(KeywordWrap(isBlank, column), false), [value]);
    }

    method NotFindInSet(isBlank: string -> bool, column: string, value: Value) returns (self: Cnd)
      modifies this
      ensures self == this
      ensures params == old(params) + [ParamPair(FindInSetSql.Query(KeywordWrap(isBlank, column), true), [value])]
      ensures selectCols == old(selectCols) && orders == old(orders) && paging == old(paging)
    {
      self := Where(FindInSetSql.Query(KeywordWrap(isBlank, column), true), [value]);
    }

    /** Array column contains all values (`@>`); the slice is one argument. */
    method PgArrayContainsAll(isBlank: string -> bool, column: string, values: seq<string>) returns (self: Cnd)
      modifies this
      ensures self == this
      ensures params == old(params) + [ParamPair(KeywordWrap(isBlank, column) + " @> ?::text[]", [StringSlice(values)])]
      ensures selectCols == old(selectCols) && orders == old(orders) && paging == old(paging)
    {
      self := Where(KeywordWrap(isBlank, column) + " @> ?::text[]", [StringSlice(values)]);
    }

    /** Array column overlaps the values (`&&`). */
    method PgArrayOverlaps(isBlank: string -> bool, column: string, values: seq<string>) returns (self: Cnd)
      modifies this
      ensures self == this
      ensures params == old(params) + [ParamPair(KeywordWrap(isBlank, column) + " && ?::text[]", [StringSlice(values)])]
      ensures selectCols == old(selectCols) && orders == old(orders) && paging == old(paging)
    {
      self := Where(KeywordWrap(isBlank, column) + " && ?::text[]", [StringSlice(values)]);
    }

    /** Array column is contained in the values (`<@`). */
    method PgArrayContainedBy(isBlank: string -> bool, column: string, values: seq<string>) returns (self: Cnd)
      modifies this
      ensures self == this
      ensures params == old(params) + [ParamPair(KeywordWrap(isBlank, column) + " <@ ?::text[]", [StringSlice(values)])]
      ensures selectCols == old(selectCols) && orders == old(orders) && paging == old(paging)
    {
      self := Where(KeywordWrap(isBlank, column) + " <@ ?::text[]", [StringSlice(values)]);
    }

    /** The value equals some element of the array column. */
    method PgAnyEqual(isBlank: string -> bool, column: string, value: Value) returns (self: Cnd)
      modifies this
      ensures self == this
      ensures params == old(params) + [ParamPair("? = ANY(" + KeywordWrap(isBlank, column) + ")", [value])]
      ensures selectCols == old(selectCols) && orders == old(orders) && paging == old(paging)
    {
      self := Where("? = ANY(" + KeywordWrap(isBlank, column) + ")", [value]);
    }

    /** The value differs from every element of the array column. */
    method PgNotInAll(isBlank: string -> bool, column: string, value: Value) returns (self: Cnd)
      modifies this
      ensures self == this
      ensures params == old(params) + [ParamPair("? <> ALL(" + KeywordWrap(isBlank, column) + ")", [value])]
      ensures selectCols == old(selectCols) && orders == old(orders) && paging == old(paging)
    {
      self := Where("? <> ALL(" + KeywordWrap(isBlank, column) + ")", [value]);
    }

    /** Appends an ascending order on the quoted column. */
    method Asc(isBlank: string -> bool, column: string) returns (self: Cnd)
      modifies this
      ensures self == this
      ensures orders == old(orders) + [OrderByCol(KeywordWrap(isBlank, column), true)]
      ensures selectCols == old(selectCols) && params == old(params) && paging == old(paging)
    {
      orders := orders + [OrderByCol(KeywordWrap(isBlank, column), true)];
      self := this;
    }

    /** Appends a descending order on the quoted column. */
    method Desc(isBlank: string -> bool, column: string) returns (self: Cnd)
      modifies this
      ensures self == this
      ensures orders == old(orders) + [OrderByCol(KeywordWrap(isBlank, column), false)]
      ensures selectCols == old(selectCols) && params == old(params) && paging == old(paging)
    {
      orders := orders + [OrderByCol(KeywordWrap(isBlank, column), false)];
      self := this;
    }

    /** Creates the paging descriptor when there is none; otherwise overwrites both of its
        fields in place, so every holder of the same `*Paging` sees the new values. */
    method Page(page: int64, limit: int64) returns (self: Cnd)
      modifies this, paging
      ensures self == this
      ensures paging != null && paging.page == page && paging.limit == limit
      ensures old(paging) != null ==> paging == old(paging)
      ensures old(paging) == null ==> fresh(paging)
      ensures selectCols == old(selectCols) && params == old(params) && orders == old(orders)
    {
      if paging == null {
        paging := new Paging(page, limit);
      } else {
        paging.page := page;
        paging.limit := limit;
      }
      self := this;
    }

    /** `Limit(n)` is `Page(1, n)`. */
    method Limit(limit: int64) returns (self: Cnd)
      modifies this, paging
      ensures self == this
      ensures paging != null && paging.page == 1 && paging.limit == limit
      ensures old(paging) != null ==> paging == old(paging)
      ensures old(paging) == null ==> fresh(paging)
      ensures selectCols == old(selectCols) && params == old(params) && orders == old(orders)
    {
      self := Page(1, limit);
    }

    /** Replays the condition onto the chain `db`: the quoted selected columns (if any),
        every stored where pair in order, the orders, then limit and offset. The condition
        is not changed. */
    method Build(db: seq<Call>, isBlank: string -> bool, offsetOf: (int64, int64) -> int64)
      returns (ret: seq<Call>)
      ensures ret == db + BuildTrace(isBlank, offsetOf, selectCols, params, orders, PagingNow())
    {
      ghost var sel, wh, ord, pag := SelectCalls(isBlank, selectCols), WhereCalls(params),
        OrderCalls(orders), PagingCalls(PagingNow(), offsetOf);
      ret := db;
      if |selectCols| > 0 {
        var cols := QuoteCols(isBlank, selectCols);
        ret := ret + [Call.Select(cols)];
      }
      assert ret == db + sel;
      ret := ReplayWheres(ret, params);
      ret := ReplayOrders(ret, orders);
      ret := ApplyPaging(ret, PagingNow(), offsetOf);
      assert ret == db + sel + wh + ord + pag;
      AppendAssoc(db, sel, wh, ord, pag);
    }

    /** `FindOne` first forces paging to page 1 of size 1, whatever it was, then builds. */
    method FindOneRequest(db: seq<Call>, isBlank: string -> bool, offsetOf: (int64, int64) -> int64)
      returns (ret: seq<Call>)
      modifies this, paging
      ensures paging != null && paging.page == 1 && paging.limit == 1
      ensures old(paging) != null ==> paging == old(paging)
      ensures selectCols == old(selectCols) && params == old(params) && orders == old(orders)
      ensures ret == db + BuildTrace(isBlank, offsetOf, selectCols, params, orders, Some(PagingView(1, 1)))
    {
      var self := Limit(1);
      ret := Build(db, isBlank, offsetOf);
    }

    /** `Count` replays only the where pairs, after selecting the model. */
    method CountRequest(db: seq<Call>, model: Value) returns (ret: seq<Call>)
      ensures ret == db + [Call.Model(model)] + WhereCalls(params)
    {
      ret := ReplayWheres(db + [Call.Model(model)], params);
    }
  }

  /** After `FindOne` the chain always limits to one row. */
  lemma FindOneLimitsToOne(isBlank: string -> bool, offsetOf: (int64, int64) -> int64, cols: seq<string>,
                           ps: seq<ParamPair>, os: seq<OrderByCol>)
    ensures Limit(1) in BuildTrace(isBlank, offsetOf, cols, ps, os, Some(PagingView(1, 1)))
  {
    var t := BuildTrace(isBlank, offsetOf, cols, ps, os, Some(PagingView(1, 1)));
    var pre := SelectCalls(isBlank, cols) + WhereCalls(ps) + OrderCalls(os);
    assert t[|pre|] == Limit(1);
  }
}
