/** The request-parameter helpers of the web layer. The request's form is a map from a
    parameter name to its first value; a name that is absent reads as "". The `cast`
    conversions, `strs.IsBlank` and `dates.Parse` are not part of this model and are passed
    in as functions; the three date layouts are named, not spelled out. Go's `int` is taken
    to be 64 bits wide, so `strconv.Atoi` is `strconv.ParseInt(s, 10, 64)`. A Go slice that
    stays nil is the empty sequence. */
module Params {
  import opened Wrappers
  import opened GoStd

  type Form = map<string, string>

  /** The errors these helpers return: a plain message, or a `strconv` parse failure. */
  datatype ParamError =
    | Message(text: string)
    | NumError(fn: string, input: string)

  /** `paramError(name)`. */
  function MissingParam(name: string): ParamError
  {
    Message("unable to find param value '" + name + "'")
  }

  /** The date layouts `GetTime` and `FormDate` try, in this order. */
  datatype Layout = DateTime | Date | DateTimeNoSeconds

  const Layouts: seq<Layout> := [DateTime, Date, DateTimeNoSeconds]

  /** `ctx.FormValueDefault(name, def)`: the first value when the name is present, else `def`. */
  function FormValueDefault(form: Form, name: string, def: string): (v: string)
    ensures name in form ==> v == form[name]
    ensures name !in form ==> v == def
  {
    if name in form then form[name] else def
  }

  /** `FormValue`: the value, or "" when the name is absent. */
  function FormValue(form: Form, name: string): (v: string)
    ensures v == "" <==> name !in form || form[name] == ""
  {
    FormValueDefault(form, name, "")
  }

  /** `Get`: the value, and whether it is non-empty. */
  function Get(form: Form, name: string): (r: (string, bool))
    ensures r.0 == FormValue(form, name)
    ensures r.1 <==> r.0 != ""
  {
    var str := FormValue(form, name);
    (str, str != "")
  }

  /** `GetInt64`, `GetInt`, `GetBool`: the converted value and true, or the zero value and
      false when the value is empty or does not convert. */
  function GetConverted<T>(form: Form, name: string, convert: string -> Option<T>, zero: T): (r: (T, bool))
    ensures r.1 <==> FormValue(form, name) != "" && convert(FormValue(form, name)).Some?
    ensures r.1 ==> r.0 == convert(FormValue(form, name)).value
    ensures !r.1 ==> r.0 == zero
  {
    var (str, ok) := Get(form, name);
    if !ok then (zero, false)
    else match convert(str)
      case None => (zero, false)
      case Some(v) => (v, true)
  }

  /** `FormValueRequired`: the value, or an error naming the parameter when it is empty. */
  function FormValueRequired(form: Form, name: string): (r: Result<string, ParamError>)
    ensures r.Failure? <==> FormValue(form, name) == ""
    ensures r.Success? ==> r.value == FormValue(form, name)
    ensures r.Failure? ==> r.error == Message("参数：" + name + "不能为空")
  {
    var str := FormValue(form, name);
    if |str| == 0 then Failure(Message("参数：" + name + "不能为空"))
    else Success(str)
  }

  /** `FormValueInt` and `FormValueInt64`: a missing value is a `paramError`, otherwise
      the result of `strconv.ParseInt(str, 10, 64)`. */
  function FormValueInt64(form: Form, name: string): (r: Result<int64, ParamError>)
    ensures FormValue(form, name) == "" ==> r == Failure(MissingParam(name))
    ensures FormValue(form, name) != "" ==>
      (r.Success? <==> ParseInt(FormValue(form, name)).Some?)
      && (r.Success? ==> r.value == ParseInt(FormValue(form, name)).value)
  {
    var str := FormValue(form, name);
    if str == "" then Failure(MissingParam(name))
    else match ParseInt(str)
      case None => Failure(NumError("ParseInt", str))
      case Some(v) => Success(v)
  }

  /** `FormValueIntDefault` and `FormValueInt64Default`: the parsed value, or `def` when the
      value is missing or does not parse. */
  function FormValueInt64Default(form: Form, name: string, def: int64): int64
  {
    var r := FormValueInt64(form, name);
    if r.Success? then r.value else def
  }

  /** `FormValueBool`: a missing value is a `paramError`, otherwise `strconv.ParseBool`. */
  function FormValueBool(form: Form, name: string): (r: Result<bool, ParamError>)
    ensures FormValue(form, name) == "" ==> r == Failure(MissingParam(name))
    ensures FormValue(form, name) != "" ==>
      (r.Success? <==> ParseBool(FormValue(form, name)).Some?)
      && (r.Success? ==> r.value == ParseBool(FormValue(form, name)).value)
  {
    var str := FormValue(form, name);
    if str == "" then Failure(MissingParam(name))
    else match ParseBool(str)
      case None => Failure(NumError("ParseBool", str))
      case Some(b) => Success(b)
  }

  /** `FormValueBoolDefault`. */
  function FormValueBoolDefault(form: Form, name: string, def: bool): bool
  {
    var str := FormValue(form, name);
    if str == "" then def
    else match ParseBool(str)
      case None => def
      case Some(b) => b
  }

  /** The default is returned exactly when the value is missing or does not parse; a
      formatted number reads back as itself, whatever the default. */
  lemma Int64DefaultMeaning(form: Form, name: string, def: int64, n: int64)
    ensures name !in form ==> FormValueInt64Default(form, name, def) == def
    ensures FormValue(form, name) != "" && ParseInt(FormValue(form, name)).Some? ==>
      FormValueInt64Default(form, name, def) == ParseInt(FormValue(form, name)).value
    ensures ParseInt(FormValue(form, name)).None? ==> FormValueInt64Default(form, name, def) == def
    ensures FormValueInt64Default(form[name := FormatInt(n)], name, def) == n
  {
    ParseFormatInt(n);
  }

  /** The same for booleans, and the default agrees with `FormValueBool` whenever that
      succeeds. */
  lemma BoolDefaultMeaning(form: Form, name: string, def: bool, b: bool)
    ensures FormValueBool(form, name).Success? ==> FormValueBoolDefault(form, name, def) == FormValueBool(form, name).value
    ensures FormValueBool(form, name).Failure? ==> FormValueBoolDefault(form, name, def) == def
    ensures FormValueBoolDefault(form[name := FormatBool(b)], name, def) == b
  {
    ParseFormatBool(b);
  }

  // ---------------------------------------------------------------- comma-separated lists

  /** The pieces kept by `FormValueStringArray`: trimmed, empty pieces dropped, in order. */
  function TrimmedPieces(ss: seq<string>): (r: seq<string>)
    ensures |r| <= |ss|
    ensures forall i :: 0 <= i < |r| ==> r[i] != [] && !IsSpace(r[i][0]) && !IsSpace(r[i][|r[i]| - 1])
  {
    if ss == [] then []
    else
      var s := TrimSpace(ss[|ss| - 1]);
      TrimmedPieces(ss[..|ss| - 1]) + (if |s| == 0 then [] else [s])
  }

  /** The values kept by `FormValueInt64Array` and `GetInt64Arr`: the pieces that convert,
      converted, in order. */
  function ConvertedPieces(convert: string -> Option<int64>, ss: seq<string>): (r: seq<int64>)
    ensures |r| <= |ss|
  {
    if ss == [] then []
    else
      var v := convert(ss[|ss| - 1]);
      ConvertedPieces(convert, ss[..|ss| - 1]) + (if v.Some? then [v.value] else [])
  }

  /** `FormValueStringArray`: nil for an empty value; otherwise the comma-separated pieces,
      each trimmed, the empty ones left out. */
  method FormValueStringArray(form: Form, name: string) returns (ret: seq<string>)
    ensures ret == (if FormValue(form, name) == "" then [] else TrimmedPieces(Split(FormValue(form, name), ',')))
  {
    var str := FormValue(form, name);
    if |str| == 0 {
      return [];
    }
    var ss := Split(str, ',');
    ret := [];
    for i := 0 to |ss|
      invariant ret == TrimmedPieces(ss[..i])
    {
      assert ss[..i + 1][..i] == ss[..i];
      var s := TrimSpace(ss[i]);
      if |s| == 0 {
        continue;
      }
      ret := ret + [s];
    }
    assert ss[..|ss|] == ss;
  }

  /** `FormValueInt64Array`: nil for an empty value; otherwise the comma-separated pieces
      that `strconv.ParseInt` accepts, untrimmed, in order. */
  method FormValueInt64Array(form: Form, name: string) returns (ret: seq<int64>)
    ensures ret == (if FormValue(form, name) == "" then [] else ConvertedPieces(ParseInt, Split(FormValue(form, name), ',')))
  {
    var str := FormValue(form, name);
    if str == "" {
      return [];
    }
    var ss := Split(str, ',');
    ret := ConvertAll(ParseInt, ss);
  }

  /** `GetInt64Arr`: nil when the value is empty; otherwise the pieces the `cast`
      conversion accepts. */
  method GetInt64Arr(form: Form, name: string, toInt64: string -> Option<int64>) returns (ret: seq<int64>)
    ensures ret == (if !Get(form, name).1 then [] else ConvertedPieces(toInt64, Split(FormValue(form, name), ',')))
  {
    var (str, ok) := Get(form, name);
    if ok {
      var ss := Split(str, ',');
      ret := ConvertAll(toInt64, ss);
      return;
    }
    return [];
  }

  /** The shared conversion loop of `FormValueInt64Array` and `GetInt64Arr`. */
  method ConvertAll(convert: string -> Option<int64>, ss: seq<string>) returns (ret: seq<int64>)
    ensures ret == ConvertedPieces(convert, ss)
  {
    ret := [];
    for i := 0 to |ss|
      invariant ret == ConvertedPieces(convert, ss[..i])
    {
      assert ss[..i + 1][..i] == ss[..i];
      var item := convert(ss[i]);
      if item.None? {
        continue;
      }
      ret := ret + [item.value];
    }
    assert ss[..|ss|] == ss;
  }

  /** Trimmed pieces of a list of already trimmed, non-empty pieces are those pieces. */
  lemma {:induction false} TrimmedPiecesOfClean(xs: seq<string>)
    requires forall i :: 0 <= i < |xs| ==> xs[i] != [] && !IsSpace(xs[i][0]) && !IsSpace(xs[i][|xs[i]| - 1])
    ensures TrimmedPieces(xs) == xs
  {
    if xs != [] {
      TrimmedPiecesOfClean(xs[..|xs| - 1]);
      TrimSpaceOfTrimmed(xs[|xs| - 1]);
      assert xs[..|xs| - 1] + [xs[|xs| - 1]] == xs;
    }
  }

  /** Every element `FormValueStringArray` returns is non-empty, trimmed and comma-free; and
      a list of such elements, sent joined with commas, comes back unchanged. */
  lemma StringArrayRoundTrip(xs: seq<string>)
    requires |xs| >= 1
    requires forall i :: 0 <= i < |xs| ==>
      xs[i] != [] && ',' !in xs[i] && !IsSpace(xs[i][0]) && !IsSpace(xs[i][|xs[i]| - 1])
    ensures var s := Join(xs, ',');
      (if s == "" then [] else TrimmedPieces(Split(s, ','))) == xs
  {
    var s := Join(xs, ',');
    SplitJoin(xs, ',');
    TrimmedPiecesOfClean(xs);
    assert xs[0] <= s by {
      if |xs| > 1 {
        assert s == xs[0] + [','] + Join(xs[1..], ',');
      }
    }
    assert s != "";
  }

  /** Trimming adds no character. */
  lemma TrimSpaceAvoids(s: string, c: char)
    requires c !in s
    ensures c !in TrimSpace(s)
  {
    TrimSpaceIsSlice(s);
    var x, i := TrimSpace(s), LeadingSpaces(s);
    forall k | 0 <= k < |x| ensures x[k] != c {
      assert x[k] == s[i + k];
    }
  }

  /** The kept elements hold no comma. */
  lemma {:induction false} StringArrayCommaFree(ss: seq<string>)
    requires forall i :: 0 <= i < |ss| ==> ',' !in ss[i]
    ensures forall i :: 0 <= i < |TrimmedPieces(ss)| ==> ',' !in TrimmedPieces(ss)[i]
  {
    if ss != [] {
      StringArrayCommaFree(ss[..|ss| - 1]);
      TrimSpaceAvoids(ss[|ss| - 1], ',');
    }
  }

  /** The formatted numbers, one per element. */
  function FormatAll(ns: seq<int64>): (ss: seq<string>)
    ensures |ss| == |ns|
    ensures forall i :: 0 <= i < |ns| ==> ss[i] == FormatInt(ns[i])
  {
    if ns == [] then [] else FormatAll(ns[..|ns| - 1]) + [FormatInt(ns[|ns| - 1])]
  }

  lemma {:induction false} ConvertedPiecesOfFormatted(ns: seq<int64>)
    ensures ConvertedPieces(ParseInt, FormatAll(ns)) == ns
  {
    if ns != [] {
      var init, last := ns[..|ns| - 1], ns[|ns| - 1];
      assert FormatAll(ns) == FormatAll(init) + [FormatInt(last)];
      ConvertedPiecesOfFormatted(init);
      ConvertedFormattedLast(FormatAll(init), last);
      assert init + [last] == ns;
    }
  }

  /** A decimal number appended to the pieces is appended to the numbers. */
  lemma ConvertedFormattedLast(pre: seq<string>, n: int64)
    ensures ConvertedPieces(ParseInt, pre + [FormatInt(n)]) == ConvertedPieces(ParseInt, pre) + [n]
  {
    var ss := pre + [FormatInt(n)];
    assert ss[..|ss| - 1] == pre && ss[|ss| - 1] == FormatInt(n);
    ParseFormatInt(n);
  }

  /** A list of numbers sent in decimal, joined with commas, comes back unchanged. */
  lemma Int64ArrayRoundTrip(ns: seq<int64>)
    requires |ns| >= 1
    ensures var s := Join(FormatAll(ns), ',');
      s != "" && ConvertedPieces(ParseInt, Split(s, ',')) == ns
  {
    var ss := FormatAll(ns);
    FormatAllCommaFree(ns);
    SplitJoin(ss, ',');
    ConvertedPiecesOfFormatted(ns);
    JoinNonEmpty(ss, ',');
  }

  /** No decimal number holds a comma. */
  lemma FormatAllCommaFree(ns: seq<int64>)
    ensures forall i :: 0 <= i < |ns| ==> ',' !in FormatAll(ns)[i]
  {
    forall i | 0 <= i < |ns| ensures ',' !in FormatAll(ns)[i] {
      var d := FormatAll(ns)[i];
      forall k | 0 <= k < |d| ensures d[k] != ',' {
        assert IsDigit(d[k]) || d[k] == '-';
      }
    }
  }

  /** A join whose first piece is non-empty is non-empty. */
  lemma JoinNonEmpty(ss: seq<string>, sep: char)
    requires |ss| >= 1 && ss[0] != ""
    ensures Join(ss, sep) != ""
  {
  }

  /** No trimming: a piece with a blank around the digits is dropped. */
  lemma Int64ArrayNoTrim(n: int64)
    ensures ConvertedPieces(ParseInt, [" " + FormatInt(n)]) == []
    ensures ConvertedPieces(ParseInt, [FormatInt(n)]) == [n]
  {
    ParseFormatInt(n);
    var s := " " + FormatInt(n);
    assert !IsDigit(s[0]) && s[0] != '+' && s[0] != '-';
    assert ParseInt(s).None?;
    assert [" " + FormatInt(n)][..0] == [];
    assert [FormatInt(n)][..0] == [];
  }

  // ---------------------------------------------------------------- paging and dates

  /** `GetPaging`: `page` and `limit` as `FormValueInt64Default` reads them with defaults 1
      and 20, then non-positive values replaced by those defaults. */
  method GetPaging(form: Form) returns (page: int64, limit: int64)
    ensures page >= 1 && limit >= 1
    ensures page == (var p := FormValueInt64Default(form, "page", 1); if p <= 0 then 1 else p)
    ensures limit == (var l := FormValueInt64Default(form, "limit", 20); if l <= 0 then 20 else l)
  {
    page := FormValueInt64Default(form, "page", 1);
    limit := FormValueInt64Default(form, "limit", 20);
    if page <= 0 {
      page := 1;
    }
    if limit <= 0 {
      limit := 20;
    }
  }

  /** What `GetPaging` yields: the sent value when it is a positive number, otherwise 1
      for the page and 20 for the size. */
  lemma PagingMeaning(form: Form, p: int64, l: int64)
    ensures var page := FormValueInt64Default(form, "page", 1);
      ParseInt(FormValue(form, "page")).None? ==> page == 1
    ensures var f := form["page" := FormatInt(p)]["limit" := FormatInt(l)];
      && FormValueInt64Default(f, "page", 1) == p
      && FormValueInt64Default(f, "limit", 20) == l
  {
    var f := form["page" := FormatInt(p)]["limit" := FormatInt(l)];
    assert FormValue(f, "page") == FormatInt(p);
    assert FormValue(f, "limit") == FormatInt(l);
    ParseFormatInt(p);
    ParseFormatInt(l);
  }

  /** The first layout of `layouts` under which `value` parses, with its result. */
  function FirstParse<T>(parse: (string, Layout) -> Option<T>, value: string, layouts: seq<Layout>): Option<T>
  {
    if layouts == [] then None
    else if parse(value, layouts[0]).Some? then parse(value, layouts[0])
    else FirstParse(parse, value, layouts[1..])
  }

  /** The layout loop of `GetTime` and `FormDate`: returns at the first layout that parses. */
  method ParseFirstLayout<T>(parse: (string, Layout) -> Option<T>, value: string) returns (r: Option<T>)
    ensures r == FirstParse(parse, value, Layouts)
  {
    var layouts := Layouts;
    for i := 0 to |layouts|
      invariant FirstParse(parse, value, layouts) == FirstParse(parse, value, layouts[i..])
    {
      assert layouts[i..][1..] == layouts[i + 1..];
      var ret := parse(value, layouts[i]);
      if ret.Some? {
        return ret;
      }
    }
    return None;
  }

  /** `GetTime`: nil for a blank value, otherwise the first layout's parse that succeeds. */
  method GetTime<T>(form: Form, name: string, isBlank: string -> bool, parse: (string, Layout) -> Option<T>)
    returns (r: Option<T>)
    ensures r == (if isBlank(FormValue(form, name)) then None else FirstParse(parse, FormValue(form, name), Layouts))
  {
    var (value, _) := Get(form, name);
    if isBlank(value) {
      return None;
    }
    r := ParseFirstLayout(parse, value);
  }

  /** `FormDate`: the same lookup through `FormValue`. */
  method FormDate<T>(form: Form, name: string, isBlank: string -> bool, parse: (string, Layout) -> Option<T>)
    returns (r: Option<T>)
    ensures r == (if isBlank(FormValue(form, name)) then None else FirstParse(parse, FormValue(form, name), Layouts))
  {
    var value := FormValue(form, name);
    if isBlank(value) {
      return None;
    }
    r := ParseFirstLayout(parse, value);
  }

  /** The first successful layout decides: the result is the parse under some layout, every
      earlier layout failed; and the result is nil exactly when every layout fails. */
  lemma {:induction false} FirstParseMeaning<T>(parse: (string, Layout) -> Option<T>, value: string, layouts: seq<Layout>)
    ensures FirstParse(parse, value, layouts).None? <==>
      forall i :: 0 <= i < |layouts| ==> parse(value, layouts[i]).None?
    ensures FirstParse(parse, value, layouts).Some? ==>
      exists i :: 0 <= i < |layouts| && FirstParse(parse, value, layouts) == parse(value, layouts[i])
        && forall j :: 0 <= j < i ==> parse(value, layouts[j]).None?
  {
    if layouts != [] && parse(value, layouts[0]).None? {
      var rest := layouts[1..];
      FirstParseMeaning(parse, value, rest);
      if FirstParse(parse, value, rest).Some? {
        var i :| 0 <= i < |rest| && FirstParse(parse, value, rest) == parse(value, rest[i])
          && forall j :: 0 <= j < i ==> parse(value, rest[j]).None?;
        assert layouts[i + 1] == rest[i];
        forall j | 0 <= j < i + 1 ensures parse(value, layouts[j]).None? {
          if j > 0 {
            assert layouts[j] == rest[j - 1];
          }
        }
      } else {
        forall i | 0 <= i < |layouts| ensures parse(value, layouts[i]).None? {
          if i > 0 {
            assert layouts[i] == rest[i - 1];
          }
        }
      }
    } else if layouts != [] {
      assert FirstParse(parse, value, layouts) == parse(value, layouts[0]);
    }
  }
}
