/** The JSON response envelopes of the web layer: the `{code, msg, data, success}` record
    and its constructors, the error envelope that looks for a coded error in an error
    chain, the map builder that fills a response in place, and the filtering list
    conversion. The definition of `CodeError` is not part of this model: it is taken to be
    an error carrying a code, a message and data. */
module JsonResult {
  import opened Wrappers
  import opened GoStd
  import opened Values

  /** `*JsonResult` */
  datatype JsonResult = JsonResult(code: int64, msg: string, data: Value, success: bool)

  /** A Go `error`: a `*CodeError`, a plain error with its text, or an error wrapping
      another (`fmt.Errorf` with `%w`), with its full text. */
  datatype Error =
    | CodeErr(code: int64, msg: string, data: Value)
    | Plain(text: string)
    | Wrapped(text: string, cause: Error)

  /** `e` is `err` or an error `err` wraps, at any depth. */
  predicate InChain(e: Error, err: Error)
  {
    e == err || (err.Wrapped? && InChain(e, err.cause))
  }

  /** `errors.As(err, &e)` for `e *CodeError`: the first coded error of the chain. */
  function FindCodeError(err: Error): (r: Option<Error>)
    ensures r.Some? ==> r.value.CodeErr? && InChain(r.value, err)
    ensures r.None? <==> forall e :: InChain(e, err) ==> !e.CodeErr?
  {
    match err
    case CodeErr(_, _, _) => Some(err)
    case Plain(_) => None
    case Wrapped(_, cause) => FindCodeError(cause)
  }

  /** `err.Error()` of an error that is not itself a `*CodeError`. */
  function ErrorText(err: Error): string
    requires !err.CodeErr?
  {
    err.text
  }

  /** `Json`: the four arguments, unchanged. */
  function Json(code: int64, message: string, data: Value, success: bool): (r: JsonResult)
    ensures r.code == code && r.msg == message && r.data == data && r.success == success
  {
    JsonResult(code, message, data, success)
  }

  /** `JsonData`: code 0, no message, the data, success. */
  function JsonData(data: Value): (r: JsonResult)
    ensures r.code == 0 && r.success && r.msg == "" && r.data == data
  {
    JsonResult(0, "", data, true)
  }

  /** `JsonItemList`: the items as the data of a success envelope. */
  function JsonItemList(data: seq<Value>): (r: JsonResult)
    ensures r.code == 0 && r.success && r.msg == "" && r.data == Arr(data)
  {
    JsonResult(0, "", Arr(data), true)
  }

  /** `JsonPageData`: a page result with the results and total unchanged. */
  function JsonPageData(results: Value, total: int64): (r: JsonResult)
    ensures r.code == 0 && r.success && r.data.PageResult?
    ensures r.data.results == results && r.data.total == total
  {
    JsonData(PageResult(total, results))
  }

  /** `JsonCursorData`: a cursor result with its three fields unchanged. */
  function JsonCursorData(results: Value, cursor: string, hasMore: bool): (r: JsonResult)
    ensures r.code == 0 && r.success && r.data.CursorResult?
    ensures r.data.results == results && r.data.cursor == cursor && r.data.hasMore == hasMore
  {
    JsonData(CursorResult(results, cursor, hasMore))
  }

  /** `JsonSuccess`: code 0, no data, success. */
  function JsonSuccess(): (r: JsonResult)
    ensures r.code == 0 && r.success && r.data == Nil
  {
    JsonResult(0, "", Nil, true)
  }

  /** `JsonErrorMsg`: code 0, the message, no data, failure. */
  function JsonErrorMsg(message: string): (r: JsonResult)
    ensures r.code == 0 && r.msg == message && r.data == Nil && !r.success
  {
    JsonResult(0, message, Nil, false)
  }

  /** `JsonErrorCode`: the code and message, no data, failure. */
  function JsonErrorCode(code: int64, message: string): (r: JsonResult)
    ensures r.code == code && r.msg == message && r.data == Nil && !r.success
  {
    JsonResult(code, message, Nil, false)
  }

  /** `JsonErrorData`: the code, message and data, failure. */
  function JsonErrorData(code: int64, message: string, data: Value): (r: JsonResult)
    ensures r.code == code && r.msg == message && r.data == data && !r.success
  {
    JsonResult(code, message, data, false)
  }

  /** `JsonError`: the code, message and data of the first coded error of the chain, or
      code 0 with the error's text when there is none; never a success. */
  function JsonError(err: Error): (r: JsonResult)
    ensures !r.success
  {
    match FindCodeError(err)
    case Some(e) => JsonResult(e.code, e.msg, e.data, false)
    case None => JsonResult(0, ErrorText(err), Nil, false)
  }

  /** `JsonError` is `JsonErrorData` of the coded error it finds, and `JsonErrorMsg` of the
      error's text otherwise; wrapping never hides a coded error. */
  lemma JsonErrorMeaning(err: Error, text: string)
    ensures FindCodeError(err).Some? ==>
      var e := FindCodeError(err).value; JsonError(err) == JsonErrorData(e.code, e.msg, e.data)
    ensures FindCodeError(err).None? ==> JsonError(err) == JsonErrorMsg(ErrorText(err))
    ensures JsonError(Wrapped(text, err)) == (if FindCodeError(err).Some? then JsonError(err)
                                             else JsonErrorMsg(text))
  {
  }

  /** A coded error at any depth of a chain of wrappers is found when nothing before it is
      coded. */
  lemma {:induction false} WrappedCodeErrorFound(texts: seq<string>, code: int64, msg: string, data: Value)
    ensures FindCodeError(WrapAll(texts, CodeErr(code, msg, data))) == Some(CodeErr(code, msg, data))
    ensures JsonError(WrapAll(texts, CodeErr(code, msg, data))) == JsonErrorData(code, msg, data)
  {
    if texts != [] {
      WrappedCodeErrorFound(texts[1..], code, msg, data);
    }
  }

  /** `err` wrapped once per text, the first text outermost. */
  function WrapAll(texts: seq<string>, err: Error): Error
  {
    if texts == [] then err else Wrapped(texts[0], WrapAll(texts[1..], err))
  }

  // ---------------------------------------------------------------- RspBuilder

  /** `*RspBuilder`: a response map filled in place. */
  class RspBuilder {
    var data: map<string, Value>

    /** `NewEmptyRspBuilder`, or `NewRspBuilderExcludes` given the map `structs.StructToMap`
        made of the object. */
    constructor (initial: map<string, Value>)
      ensures data == initial
    {
      data := initial;
    }

    /** `Put`: sets or overwrites exactly one key, keeps every other key, returns the same
        builder. */
    method Put(key: string, value: Value) returns (self: RspBuilder)
      modifies this
      ensures self == this
      ensures data == old(data)[key := value]
    {
      data := data[key := value];
      self := this;
    }

    /** `Build`: the map itself. */
    function Build(): (m: map<string, Value>)
      reads this
      ensures m == data
    {
      data
    }

    /** `JsonResult`: the map as the data of a success envelope. */
    function JsonResult(): (r: JsonResult)
      reads this
      ensures r == JsonData(Obj(data))
    {
      JsonData(Obj(data))
    }
  }

  // ---------------------------------------------------------------- ConvertList

  /** The converted items `ConvertList` keeps: nil results left out, order kept. */
  function Kept<T>(results: seq<T>, conv: T -> Option<map<string, Value>>): (list: seq<map<string, Value>>)
    ensures |list| <= |results|
  {
    if results == [] then []
    else
      var ret := conv(results[|results| - 1]);
      Kept(results[..|results| - 1], conv) + (if ret.Some? then [ret.value] else [])
  }

  /** `ConvertList`. */
  method ConvertList<T>(results: seq<T>, conv: T -> Option<map<string, Value>>) returns (list: seq<map<string, Value>>)
    ensures list == Kept(results, conv)
  {
    list := [];
    for i := 0 to |results|
      invariant list == Kept(results[..i], conv)
    {
      assert results[..i + 1][..i] == results[..i];
      var ret := conv(results[i]);
      if ret.Some? {
        list := list + [ret.value];
      }
    }
    assert results[..|results|] == results;
  }

  /** Conversion respects concatenation: the kept items of two runs are those of the first
      run followed by those of the second. */
  lemma {:induction false} KeptAppend<T>(a: seq<T>, b: seq<T>, conv: T -> Option<map<string, Value>>)
    ensures Kept(a + b, conv) == Kept(a, conv) + Kept(b, conv)
  {
    if b == [] {
      assert a + b == a;
    } else {
      var bi := b[..|b| - 1];
      KeptAppend(a, bi, conv);
      assert (a + b)[..|a + b| - 1] == a + bi;
      assert (a + b)[|a + b| - 1] == b[|b| - 1];
    }
  }

  /** When no conversion is nil, every item is kept, each in its place. */
  lemma {:induction false} KeptAll<T>(results: seq<T>, conv: T -> Option<map<string, Value>>)
    requires forall i :: 0 <= i < |results| ==> conv(results[i]).Some?
    ensures |Kept(results, conv)| == |results|
    ensures forall i :: 0 <= i < |results| ==> Kept(results, conv)[i] == conv(results[i]).value
  {
    if results != [] {
      KeptAll(results[..|results| - 1], conv);
    }
  }

  /** Every kept map is the conversion of some item. */
  lemma {:induction false} KeptFromItems<T>(results: seq<T>, conv: T -> Option<map<string, Value>>)
    ensures forall m :: m in Kept(results, conv) ==> exists i :: 0 <= i < |results| && conv(results[i]) == Some(m)
  {
    if results != [] {
      var init := results[..|results| - 1];
      KeptFromItems(init, conv);
      forall m | m in Kept(results, conv)
        ensures exists i :: 0 <= i < |results| && conv(results[i]) == Some(m)
      {
        if m in Kept(init, conv) {
          var i :| 0 <= i < |init| && conv(init[i]) == Some(m);
          assert results[i] == init[i];
        } else {
          assert conv(results[|results| - 1]) == Some(m);
        }
      }
    }
  }
}
