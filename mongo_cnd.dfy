/** The document-store condition builder (`mongo.Cnd`): it gathers filter entries,
    sort keys, selected columns and a paging descriptor through chained calls, and turns
    them into find options or extra aggregation stages. */
module MongoCnd {
  import opened Wrappers
  import opened GoStd
  import opened Values

  // Query operators (MongoDB's names) and the aggregation stages the builder emits.
  const OpNe := "$ne"
  const OpGt := "$gt"
  const OpGte := "$gte"
  const OpLt := "$lt"
  const OpLte := "$lte"
  const OpRegex := "$regex"
  const OpIn := "$in"
  const OpNin := "$nin"
  const OpOptions := "$options"
  const StageMatch := "$match"
  const StageSort := "$sort"
  const StageLimit := "$limit"
  const StageSkip := "$skip"

  /** A document-store stage or filter document: `bson.M`. */
  type M = map<string, Value>

  datatype Paging = Paging(page: int64, limit: int64)

  /** The driver's `options.FindOptions`, restricted to the fields the builder sets. */
  datatype FindOptions = FindOptions(
    projection: Option<seq<Elem>>,
    sort: Option<seq<Elem>>,
    limit: Option<int64>,
    skip: Option<int64>)

  /** The driver's `options.FindOneOptions`, restricted to the fields the builder could set. */
  datatype FindOneOptions = FindOneOptions(
    projection: Option<seq<Elem>>,
    sort: Option<seq<Elem>>,
    skip: Option<int64>)

  /** A one-operator filter value `{op: value}`. */
  function Operator(op: string, value: Value): (v: Value)
    ensures v.Obj? && v.fields.Keys == {op} && v.fields[op] == value
  {
    Obj(map[op := value])
  }

  /** The projection document that selects `cols`: each column mapped to 1, in order. */
  function Projection(cols: seq<string>): (p: seq<Elem>)
    ensures |p| == |cols|
    ensures forall i :: 0 <= i < |cols| ==> p[i] == E(cols[i], Int(1))
  {
    if cols == [] then [] else Projection(cols[..|cols| - 1]) + [E(cols[|cols| - 1], Int(1))]
  }

  /** The projection names exactly the selected columns, in the order they were selected. */
  lemma ProjectionKeys(cols: seq<string>)
    ensures Keys(Projection(cols)) == cols
  {
  }

  /** The limit both find and aggregate apply: the page size, when positive. */
  function LimitOf(paging: Option<Paging>): (r: Option<int64>)
    ensures r.Some? <==> paging.Some? && paging.value.limit > 0
    ensures r.Some? ==> r.value == paging.value.limit && r.value > 0
  {
    if paging.Some? && paging.value.limit > 0 then Some(paging.value.limit) else None
  }

  /** The skip both find and aggregate apply: `(page - 1) * limit` in 64-bit arithmetic,
      only when page and limit are both positive. */
  function SkipOf(paging: Option<Paging>): (r: Option<int64>)
    ensures r.Some? <==> paging.Some? && paging.value.page > 0 && paging.value.limit > 0
    ensures r.Some? ==> (r.value as int - (paging.value.page as int - 1) * paging.value.limit as int) % Two64 == 0
  {
    if paging.Some? && paging.value.page > 0 && paging.value.limit > 0 then
      Some(Wrap64((paging.value.page as int - 1) * paging.value.limit as int))
    else None
  }

  /** When `(page - 1) * limit` fits 64 bits the skip is exactly the number of records on
      the earlier pages, hence never negative, and the first page skips nothing. */
  lemma SkipIsEarlierPages(p: Paging)
    requires p.page > 0 && p.limit > 0
    requires (p.page as int - 1) * p.limit as int <= MaxInt64
    ensures SkipOf(Some(p)) == Some(((p.page as int - 1) * p.limit as int) as int64)
    ensures SkipOf(Some(p)).value >= 0
    ensures p.page == 1 ==> SkipOf(Some(p)).value == 0
  {
    var earlier, size := p.page as int - 1, p.limit as int;
    ProductNonNegative(earlier, size);
    var n := earlier * size;
    assert SkipOf(Some(p)) == Some(Wrap64(n));
    assert Wrap64(n) as int == n;
    if p.page == 1 {
      assert earlier == 0;
    }
  }

  lemma ProductNonNegative(a: int, b: int)
    requires a >= 0 && b >= 0
    ensures a * b >= 0
  {
  }

  /** Page 2 of 10 skips 10 and takes 10; page 0 gives no skip; limit 0 gives neither. */
  lemma PagingExamples()
    ensures LimitOf(Some(Paging(2, 10))) == Some(10) && SkipOf(Some(Paging(2, 10))) == Some(10)
    ensures LimitOf(Some(Paging(0, 10))) == Some(10) && SkipOf(Some(Paging(0, 10))) == None
    ensures LimitOf(Some(Paging(1, 0))) == None && SkipOf(Some(Paging(1, 0))) == None
    ensures LimitOf(None) == None && SkipOf(None) == None
  {
  }

  /** The `$sort` document the aggregation builds: a map, so a later entry for the same key
      overwrites an earlier one and the order of the keys is not kept. */
  function SortSpec(sort: seq<Elem>): M
  {
    if sort == [] then map[]
    else SortSpec(sort[..|sort| - 1])[sort[|sort| - 1].key := sort[|sort| - 1].value]
  }

  /** Index of the last entry of `sort` with key `k`, if any. */
  function LastIndexOf(sort: seq<Elem>, k: string): (r: Option<nat>)
    ensures r.Some? ==> (r.value < |sort| && sort[r.value].key == k
                         && forall j :: r.value < j < |sort| ==> sort[j].key != k)
    ensures r.None? ==> forall j :: 0 <= j < |sort| ==> sort[j].key != k
  {
    if sort == [] then None
    else if sort[|sort| - 1].key == k then Some(|sort| - 1)
    else LastIndexOf(sort[..|sort| - 1], k)
  }

  /** The `$sort` stage has one key per distinct sort column, and its value is the
      direction given by the LAST call for that column. */
  lemma {:induction false} SortSpecLastWins(sort: seq<Elem>, k: string)
    ensures k in SortSpec(sort) <==> LastIndexOf(sort, k).Some?
    ensures k in SortSpec(sort) ==> SortSpec(sort)[k] == sort[LastIndexOf(sort, k).value].value
  {
    if sort != [] {
      SortSpecLastWins(sort[..|sort| - 1], k);
    }
  }

  /** The stages AggregateWithConditions adds after the caller's: at most a sort stage,
      then the limit stage, then the skip stage. */
  function TrailingStages(sort: seq<Elem>, paging: Option<Paging>): seq<M>
  {
    (if |sort| > 0 then [map[StageSort := Obj(SortSpec(sort))]] else [])
    + (if LimitOf(paging).Some? then [map[StageLimit := Int(LimitOf(paging).value as int)]] else [])
    + (if SkipOf(paging).Some? then [map[StageSkip := Int(SkipOf(paging).value as int)]] else [])
  }

  /** The limit stage is emitted exactly when a limit is set and always precedes the skip
      stage, which is emitted exactly when a skip is set. */
  lemma TrailingStagesOrder(sort: seq<Elem>, paging: Option<Paging>)
    ensures var t := TrailingStages(sort, paging);
      var s := if |sort| > 0 then 1 else 0;
      && |t| == s + (if LimitOf(paging).Some? then 1 else 0) + (if SkipOf(paging).Some? then 1 else 0)
      && (SkipOf(paging).Some? ==> t[|t| - 1] == map[StageSkip := Int(SkipOf(paging).value as int)])
      && (SkipOf(paging).Some? ==> t[|t| - 2] == map[StageLimit := Int(LimitOf(paging).value as int)])
  {
  }

  class Cnd {
    var filter: seq<Elem>
    var selectCols: seq<string>
    var sort: seq<Elem>
    var paging: Option<Paging>

    /** `NewCnd`: an empty condition, which matches everything. */
    constructor ()
      ensures filter == [] && selectCols == [] && sort == [] && paging == None
    {
      filter, selectCols, sort, paging := [], [], [], None;
    }

    /** Appends the columns to select, in order; no columns change nothing. */
    method Cols(cols: seq<string>) returns (self: Cnd)
      modifies this
      ensures self == this
      ensures selectCols == old(selectCols) + cols
      ensures filter == old(filter) && sort == old(sort) && paging == old(paging)
    {
      if |cols| > 0 {
        selectCols := selectCols + cols;
      }
      self := this;
    }

    /** Appends the filter entry `(column, value)`; nothing else changes. */
    method AddFilter(column: string, value: Value)
      modifies this
      ensures filter == old(filter) + [E(column, value)]
      ensures selectCols == old(selectCols) && sort == old(sort) && paging == old(paging)
    {
      filter := filter + [E(column, value)];
    }

    /** Equality stores the raw value. */
    method Eq(column: string, value: Value) returns (self: Cnd)
      modifies this
      ensures self == this
      ensures filter == old(filter) + [E(column, value)]
      ensures selectCols == old(selectCols) && sort == old(sort) && paging == old(paging)
    {
      AddFilter(column, value);
      self := this;
    }

    method NotEq(column: string, value: Value) returns (self: Cnd)
      modifies this
      ensures self == this
      ensures filter == old(filter) + [E(column, Operator(OpNe, value))]
      ensures selectCols == old(selectCols) && sort == old(sort) && paging == old(paging)
    {
      AddFilter(column, Operator(OpNe, value));
      self := this;
    }

    method Gt(column: string, value: Value) returns (self: Cnd)
      modifies this
      ensures self == this
      ensures filter == old(filter) + [E(column, Operator(OpGt, value))]
      ensures selectCols == old(selectCols) && sort == old(sort) && paging == old(paging)
    {
      AddFilter(column, Operator(OpGt, value));
      self := this;
    }

    method Gte(column: string, value: Value) returns (self: Cnd)
      modifies this
      ensures self == this
      ensures filter == old(filter) + [E(column, Operator(OpGte, value))]
      ensures selectCols == old(selectCols) && sort == old(sort) && paging == old(paging)
    {
      AddFilter(column, Operator(OpGte, value));
      self := this;
    }

    method Lt(column: string, value: Value) returns (self: Cnd)
      modifies this
      ensures self == this
      ensures filter == old(filter) + [E(column, Operator(OpLt, value))]
      ensures selectCols == old(selectCols) && sort == old(sort) && paging == old(paging)
    {
      AddFilter(column, Operator(OpLt, value));
      self := this;
    }

    method Lte(column: string, value: Value) returns (self: Cnd)
      modifies this
      ensures self == this
      ensures filter == old(filter) + [E(column, Operator(OpLte, value))]
      ensures selectCols == old(selectCols) && sort == old(sort) && paging == old(paging)
    {
      AddFilter(column, Operator(OpLte, value));
      self := this;
    }

    /** A case-insensitive regular-expression match: `{$regex: str, $options: "i"}`. */
    method Like(column: string, str: string) returns (self: Cnd)
      modifies this
      ensures self == this
      ensures filter == old(filter) + [E(column, Obj(map[OpRegex := Str(str), OpOptions := Str("i")]))]
      ensures selectCols == old(selectCols) && sort == old(sort) && paging == old(paging)
    {
      AddFilter(column, Obj(map[OpRegex := Str(str), OpOptions := Str("i")]));
      self := this;
    }

    method In(column: string, params: seq<Value>) returns (self: Cnd)
      modifies this
      ensures self == this
      ensures filter == old(filter) + [E(column, Operator(OpIn, Arr(params)))]
      ensures selectCols == old(selectCols) && sort == old(sort) && paging == old(paging)
    {
      AddFilter(column, Operator(OpIn, Arr(params)));
      self := this;
    }

    method NotIn(column: string, params: seq<Value>) returns (self: Cnd)
      modifies this
      ensures self == this
      ensures filter == old(filter) + [E(column, Operator(OpNin, Arr(params)))]
      ensures selectCols == old(selectCols) && sort == old(sort) && paging == old(paging)
    {
      AddFilter(column, Operator(OpNin, Arr(params)));
      self := this;
    }

    /** Appends an ascending sort key `(column, 1)`. */
    method Asc(column: string) returns (self: Cnd)
      modifies this
      ensures self == this
      ensures sort == old(sort) + [E(column, Int(1))]
      ensures filter == old(filter) && selectCols == old(selectCols) && paging == old(paging)
    {
      sort := sort + [E(column, Int(1))];
      self := this;
    }

    /** Appends a descending sort key `(column, -1)`. */
    method Desc(column: string) returns (self: Cnd)
      modifies this
      ensures self == this
      ensures sort == old(sort) + [E(column, Int(-1))]
      ensures filter == old(filter) && selectCols == old(selectCols) && paging == old(paging)
    {
      sort := sort + [E(column, Int(-1))];
      self := this;
    }

    /** Replaces any earlier paging descriptor by a new one. */
    method Page(page: int64, limit: int64) returns (self: Cnd)
      modifies this
      ensures self == this
      ensures paging == Some(Paging(page, limit))
      ensures filter == old(filter) && selectCols == old(selectCols) && sort == old(sort)
    {
      paging := Some(Paging(page, limit));
      self := this;
    }

    /** The find options for the accumulated state: a projection of the selected columns,
        the sort keys in call order, and limit and skip from the paging descriptor; each is
        left unset when there is nothing to set. The condition itself is not changed. */
    method BuildFindOptions() returns (opts: FindOptions)
      ensures opts.projection == (if |selectCols| > 0 then Some(Projection(selectCols)) else None)
      ensures opts.sort == (if |sort| > 0 then Some(sort) else None)
      ensures opts.limit == LimitOf(paging)
      ensures opts.skip == SkipOf(paging)
    {
      opts := FindOptions(None, None, None, None);
      if |selectCols| > 0 {
        var projection := [];
        for i := 0 to |selectCols|
          invariant projection == Projection(selectCols[..i])
        {
          projection := projection + [E(selectCols[i], Int(1))];
          assert selectCols[..i + 1][..i] == selectCols[..i];
        }
        assert selectCols[..|selectCols|] == selectCols;
        opts := opts.(projection := Some(projection));
      }
      if |sort| > 0 {
        var s := [];
        for i := 0 to |sort|
          invariant s == sort[..i]
        {
          s := s + [sort[i]];
        }
        assert sort[..|sort|] == sort;
        opts := opts.(sort := Some(s));
      }
      if paging.Some? {
        if paging.value.limit > 0 {
          opts := opts.(limit := Some(paging.value.limit));
        }
        if paging.value.page > 0 && paging.value.limit > 0 {
          var offset := Wrap64((paging.value.page as int - 1) * paging.value.limit as int);
          opts := opts.(skip := Some(offset));
        }
      }
    }

    /** What `Find` sends: the filter and the options of BuildFindOptions. */
    method FindRequest() returns (f: seq<Elem>, opts: FindOptions)
      ensures f == filter
      ensures opts.projection == (if |selectCols| > 0 then Some(Projection(selectCols)) else None)
      ensures opts.sort == (if |sort| > 0 then Some(sort) else None)
      ensures opts.limit == LimitOf(paging) && opts.skip == SkipOf(paging)
    {
      opts := BuildFindOptions();
      f := filter;
    }

    /** What `FindOne` sends: the filter with projection and sort; paging is never applied. */
    method FindOneRequest() returns (f: seq<Elem>, opts: FindOneOptions)
      ensures f == filter
      ensures opts.projection == (if |selectCols| > 0 then Some(Projection(selectCols)) else None)
      ensures opts.sort == (if |sort| > 0 then Some(sort) else None)
      ensures opts.skip == None
    {
      opts := FindOneOptions(None, None, None);
      if |selectCols| > 0 {
        var projection := [];
        for i := 0 to |selectCols|
          invariant projection == Projection(selectCols[..i])
        {
          projection := projection + [E(selectCols[i], Int(1))];
          assert selectCols[..i + 1][..i] == selectCols[..i];
        }
        assert selectCols[..|selectCols|] == selectCols;
        opts := opts.(projection := Some(projection));
      }
      if |sort| > 0 {
        var s := [];
        for i := 0 to |sort|
          invariant s == sort[..i]
        {
          s := s + [sort[i]];
        }
        assert sort[..|sort|] == sort;
        opts := opts.(sort := Some(s));
      }
      f := filter;
    }

    /** What `Count` sends: the filter alone. */
    method CountRequest() returns (f: seq<Elem>)
      ensures f == filter
    {
      f := filter;
    }

    /** The pipeline `AggregateWithConditions` runs: a `$match` stage in front when there is a
        filter, the caller's stages unchanged, then the sort, limit and skip stages. */
    method AggregatePipeline(pipeline: seq<M>) returns (out: seq<M>)
      ensures out == (if |filter| > 0 then [map[StageMatch := Doc(filter)]] else [])
                     + pipeline + TrailingStages(sort, paging)
    {
      out := pipeline;
      if |filter| > 0 {
        out := [map[StageMatch := Doc(filter)]] + out;
      }
      if |sort| > 0 {
        var spec: M := map[];
        for i := 0 to |sort|
          invariant spec == SortSpec(sort[..i])
        {
          assert sort[..i + 1][..i] == sort[..i];
          spec := spec[sort[i].key := sort[i].value];
        }
        assert sort[..|sort|] == sort;
        out := out + [map[StageSort := Obj(spec)]];
      }
      if paging.Some? {
        if paging.value.limit > 0 {
          out := out + [map[StageLimit := Int(paging.value.limit as int)]];
        }
        if paging.value.page > 0 && paging.value.limit > 0 {
          var offset := Wrap64((paging.value.page as int - 1) * paging.value.limit as int);
          out := out + [map[StageSkip := Int(offset as int)]];
        }
      }
    }
  }

  /** The values the aggregation's stages carry are those of a find on the same condition:
      the match stage holds the find filter, the caller's stages follow unchanged, the limit
      stage (just after the optional sort stage) holds the find limit and the skip stage, last,
      holds the find skip. The ORDER in which the stages apply is another matter: see
      AsWrittenLaterPagesEmpty. */
  lemma AggregateStagesCarryFindValues(filter: seq<Elem>, sort: seq<Elem>, paging: Option<Paging>, pipeline: seq<M>)
    requires |filter| > 0
    ensures var out := [map[StageMatch := Doc(filter)]] + pipeline + TrailingStages(sort, paging);
      var k := if |sort| > 0 then 1 else 0;
      && out[0][StageMatch] == Doc(filter)
      && out[1..|pipeline| + 1] == pipeline
      && (LimitOf(paging).Some? ==> out[1 + |pipeline| + k] == map[StageLimit := Int(LimitOf(paging).value as int)])
      && (SkipOf(paging).Some? ==> out[|out| - 1] == map[StageSkip := Int(SkipOf(paging).value as int)])
  {
    var out := [map[StageMatch := Doc(filter)]] + pipeline + TrailingStages(sort, paging);
    var t := TrailingStages(sort, paging);
    TrailingStagesOrder(sort, paging);
    assert out[1..|pipeline| + 1] == pipeline;
    if LimitOf(paging).Some? {
      var k := if |sort| > 0 then 1 else 0;
      assert t[k] == map[StageLimit := Int(LimitOf(paging).value as int)];
      assert out[1 + |pipeline| + k] == t[k];
    }
  }

  // ---------------------------------------------------------------- what the paging stages do

  function Min(a: int, b: int): int { if a < b then a else b }

  /** The documents a `$limit` or `$skip` stage lets through, in MongoDB's terms. Other stages
      are outside this account and pass the documents on unchanged. */
  function ApplyStage(docs: seq<Value>, stage: M): (r: seq<Value>)
    ensures |r| <= |docs|
  {
    if StageLimit in stage && stage[StageLimit].Int? && stage[StageLimit].i >= 0 then
      docs[..Min(stage[StageLimit].i, |docs|)]
    else if StageSkip in stage && stage[StageSkip].Int? && stage[StageSkip].i >= 0 then
      docs[Min(stage[StageSkip].i, |docs|)..]
    else docs
  }

  /** The stages applied one after the other, first stage first. */
  function RunStages(docs: seq<Value>, stages: seq<M>): seq<Value>
    decreases |stages|
  {
    if stages == [] then docs else RunStages(ApplyStage(docs, stages[0]), stages[1..])
  }

  /** The documents a find with these skip and limit options returns: MongoDB applies the
      skip first, whatever the order of the options. */
  function FindWindow(docs: seq<Value>, skip: Option<int64>, limit: Option<int64>): seq<Value>
  {
    var s := if skip.Some? && skip.value >= 0 then docs[Min(skip.value as int, |docs|)..] else docs;
    if limit.Some? && limit.value > 0 then s[..Min(limit.value as int, |s|)] else s
  }

  lemma ProductAtLeast(a: int, b: int)
    requires a >= 1 && b >= 0
    ensures a * b >= b
  {
    ProductNonNegative(a - 1, b);
    assert a * b == (a - 1) * b + b;
  }

  /** As written, the limit stage comes before the skip stage: from page 2 on, the limit keeps
      at most one page of documents and the skip then drops all of them, while a find on the
      same condition returns the page's documents. */
  lemma AsWrittenLaterPagesEmpty(docs: seq<Value>, p: Paging)
    requires p.page >= 2 && p.limit > 0
    requires (p.page as int - 1) * p.limit as int <= MaxInt64
    ensures RunStages(docs, TrailingStages([], Some(p))) == []
    ensures |docs| > (p.page as int - 1) * p.limit as int ==>
      FindWindow(docs, SkipOf(Some(p)), LimitOf(Some(p))) != []
  {
    var n := (p.page as int - 1) * p.limit as int;
    SkipIsEarlierPages(p);
    ProductAtLeast(p.page as int - 1, p.limit as int);
    var lim: M := map[StageLimit := Int(p.limit as int)];
    var skp: M := map[StageSkip := Int(n)];
    assert TrailingStages([], Some(p)) == [lim, skp];
    var afterLimit := ApplyStage(docs, lim);
    assert |afterLimit| <= p.limit as int;
    assert StageLimit !in skp;
    assert ApplyStage(afterLimit, skp) == [];
    assert RunStages(docs, [lim, skp]) == RunStages(afterLimit, [skp]);
    assert RunStages(afterLimit, [skp]) == RunStages(ApplyStage(afterLimit, skp), []);
  }

  /** The evidently intended stages: the sort keys in call order (a `bson.D`, as find sends
      them), then the skip stage, then the limit stage. */
  function TrailingStagesIntended(sort: seq<Elem>, paging: Option<Paging>): seq<M>
  {
    (if |sort| > 0 then [map[StageSort := Doc(sort)]] else [])
    + (if SkipOf(paging).Some? then [map[StageSkip := Int(SkipOf(paging).value as int)]] else [])
    + (if LimitOf(paging).Some? then [map[StageLimit := Int(LimitOf(paging).value as int)]] else [])
  }

  /** The intended stages return exactly what a find with the same options returns, and
      their sort stage keeps the find's sort keys in call order. */
  lemma IntendedMatchesFind(docs: seq<Value>, sort: seq<Elem>, paging: Option<Paging>)
    ensures RunStages(docs, TrailingStagesIntended([], paging)) == FindWindow(docs, SkipOf(paging), LimitOf(paging))
    ensures |sort| > 0 ==> TrailingStagesIntended(sort, paging)[0] == map[StageSort := Doc(sort)]
  {
    var skip, limit := SkipOf(paging), LimitOf(paging);
    var t := TrailingStagesIntended([], paging);
    var afterSkip := if skip.Some? && skip.value >= 0 then docs[Min(skip.value as int, |docs|)..] else docs;
    // a skip stage comes only with a limit stage
    if skip.Some? {
      var skp: M := map[StageSkip := Int(skip.value as int)];
      var lim: M := map[StageLimit := Int(limit.value as int)];
      assert StageLimit !in skp;
      assert ApplyStage(docs, skp) == afterSkip;
      assert t == [skp, lim];
      assert RunStages(docs, t) == RunStages(afterSkip, [lim]);
      assert RunStages(afterSkip, [lim]) == ApplyStage(afterSkip, lim);
    } else if limit.Some? {
      var lim: M := map[StageLimit := Int(limit.value as int)];
      assert t == [lim];
      assert RunStages(docs, t) == RunStages(ApplyStage(docs, lim), []);
    } else {
      assert t == [];
    }
  }

  /** With the intended order, page `p` of size `l` is the records `(p-1)*l` up to `p*l`. */
  lemma IntendedPage(docs: seq<Value>, p: Paging)
    requires p.page >= 1 && p.limit > 0
    requires (p.page as int - 1) * p.limit as int <= MaxInt64
    ensures var from := Min((p.page as int - 1) * p.limit as int, |docs|);
      RunStages(docs, TrailingStagesIntended([], Some(p))) == docs[from..Min(from + p.limit as int, |docs|)]
  {
    SkipIsEarlierPages(p);
    IntendedMatchesFind(docs, [], Some(p));
  }

  /** As written, the `$sort` stage is a map: two sorts that differ only in the order of
      their keys give the same stage, while the find options keep them apart. */
  lemma AsWrittenSortForgetsOrder()
    ensures var x, y := [E("a", Int(1)), E("b", Int(-1))], [E("b", Int(-1)), E("a", Int(1))];
      && TrailingStages(x, None) == TrailingStages(y, None)
      && TrailingStagesIntended(x, None) != TrailingStagesIntended(y, None)
  {
    var x, y := [E("a", Int(1)), E("b", Int(-1))], [E("b", Int(-1)), E("a", Int(1))];
    assert x[..1] == [E("a", Int(1))] && y[..1] == [E("b", Int(-1))];
    assert SortSpec(x) == map["a" := Int(1), "b" := Int(-1)];
    assert SortSpec(y) == map["a" := Int(1), "b" := Int(-1)];
    assert TrailingStagesIntended(x, None)[0][StageSort] == Doc(x);
  }
}
