/** Index extraction of the document store's `Init` (`extractIndexes`): every field of a
    model struct carries string tags `index`, `bson` and `ttlSeconds`; the `index` tag is a
    comma-separated attribute list that becomes at most one index specification.

    Reflection is replaced by an explicit description of the model's type: a struct is its
    sequence of field tags (a missing tag reads as ""). `log.Fatalf` ends the program; here
    it is the `Failure` outcome that ends the extraction. */
module MongoIndexes {
  import opened Wrappers
  import opened GoStd
  import opened Values

  /** The three struct tags the parser reads, for one field. */
  datatype FieldTags = FieldTags(index: string, bson: string, ttlSeconds: string)

  /** What `reflect` sees of the model value. */
  datatype ModelType =
    | Struct(fields: seq<FieldTags>)
    | Pointer(elem: ModelType)
    | NonStruct

  /** The options this parser can set on `options.IndexOptions`; `None` is an unset option. */
  datatype IndexOptions = IndexOptions(unique: Option<bool>, sparse: Option<bool>, expireAfterSeconds: Option<int>)

  const NoOptions := IndexOptions(None, None, None)

  /** `mongo.IndexModel`: the keys document and the options. */
  datatype IndexModel = IndexModel(keys: seq<Elem>, options: IndexOptions)

  /** The three reasons the extraction ends the program. */
  datatype Fatal = NotStruct | TtlMissing | TtlNotInteger

  /** The per-field variables of the attribute loop: `keys`, `isUnique` and `opts`. */
  datatype AttrState = AttrState(keys: seq<Elem>, isUnique: bool, opts: IndexOptions)

  const Start := AttrState([], false, NoOptions)

  /** The key value a trimmed attribute defines, if it is one of the key attributes. */
  function KeyValue(attr: string): (v: Option<Value>)
    ensures v.Some? <==>
      attr == "1" || attr == "-1" || attr == "text" || attr == "hashed" || attr == "ttl"
      || attr == "2dsphere" || attr == "2d"
  {
    if attr == "1" || attr == "ttl" then Some(Int(1))
    else if attr == "-1" then Some(Int(-1))
    else if attr == "text" || attr == "hashed" || attr == "2dsphere" || attr == "2d" then Some(Str(attr))
    else None
  }

  /** One turn of the attribute loop for the field `f`: the `switch` on the trimmed attribute `a`. */
  function Step(f: FieldTags, st: AttrState, a: string): Result<AttrState, Fatal>
  {
    if a == "1" then Success(st.(keys := [E(f.bson, Int(1))]))
    else if a == "-1" then Success(st.(keys := [E(f.bson, Int(-1))]))
    else if a == "unique" then Success(st.(isUnique := true))
    else if a == "sparse" then Success(st.(opts := st.opts.(sparse := Some(true))))
    else if a == "text" then Success(st.(keys := [E(f.bson, Str("text"))]))
    else if a == "hashed" then Success(st.(keys := [E(f.bson, Str("hashed"))]))
    else if a == "ttl" then
      if f.ttlSeconds == "" then Failure(TtlMissing)
      else if ParseInt(f.ttlSeconds).None? then Failure(TtlNotInteger)
      else Success(AttrState([E(f.bson, Int(1))], st.isUnique,
                             st.opts.(expireAfterSeconds := Some(Wrap32(ParseInt(f.ttlSeconds).value as int)))))
    else if a == "2dsphere" then Success(st.(keys := [E(f.bson, Str("2dsphere"))]))
    else if a == "2d" then Success(st.(keys := [E(f.bson, Str("2d"))]))
    else Success(st)
  }

  /** The attribute loop over `attrs`, stopping at the first fatal attribute. */
  function ParseAttrs(f: FieldTags, attrs: seq<string>): Result<AttrState, Fatal>
  {
    if attrs == [] then Success(Start)
    else
      var prev := ParseAttrs(f, attrs[..|attrs| - 1]);
      if prev.Failure? then prev else Step(f, prev.value, TrimSpace(attrs[|attrs| - 1]))
  }

  /** The field is skipped before its index tag is read. */
  predicate Skipped(f: FieldTags)
  {
    f.index == "" || f.bson == "" || f.bson == "-"
  }

  /** The index one field contributes, if any. */
  function FieldIndex(f: FieldTags): Result<Option<IndexModel>, Fatal>
  {
    if Skipped(f) then Success(None)
    else
      var r := ParseAttrs(f, Split(f.index, ','));
      if r.Failure? then Failure(r.error)
      else if |r.value.keys| > 0 then
        Success(Some(IndexModel(r.value.keys,
                                if r.value.isUnique then r.value.opts.(unique := Some(true)) else r.value.opts)))
      else Success(None)
  }

  /** The indexes of the fields, in field order, stopping at the first fatal field. */
  function Indexes(fields: seq<FieldTags>): Result<seq<IndexModel>, Fatal>
  {
    if fields == [] then Success([])
    else
      var prev := Indexes(fields[..|fields| - 1]);
      if prev.Failure? then prev
      else
        var r := FieldIndex(fields[|fields| - 1]);
        if r.Failure? then Failure(r.error)
        else if r.value.Some? then Success(prev.value + [r.value.value])
        else prev
  }

  /** The whole extraction: one pointer is followed, anything but a struct is fatal. */
  function ModelIndexes(model: ModelType): Result<seq<IndexModel>, Fatal>
  {
    var t := if model.Pointer? then model.elem else model;
    if t.Struct? then Indexes(t.fields) else Failure(NotStruct)
  }

  /** A fatal attribute ends the loop: a failed prefix fails the whole list, same error. */
  lemma {:induction false} ParseAttrsFailurePersists(f: FieldTags, attrs: seq<string>, j: nat)
    requires j <= |attrs| && ParseAttrs(f, attrs[..j]).Failure?
    ensures ParseAttrs(f, attrs) == ParseAttrs(f, attrs[..j])
  {
    if j < |attrs| {
      assert attrs[..|attrs| - 1][..j] == attrs[..j];
      ParseAttrsFailurePersists(f, attrs[..|attrs| - 1], j);
    } else {
      assert attrs[..j] == attrs;
    }
  }

  /** A fatal field ends the extraction: a failed prefix fails all fields, same error. */
  lemma {:induction false} IndexesFailurePersists(fields: seq<FieldTags>, i: nat)
    requires i <= |fields| && Indexes(fields[..i]).Failure?
    ensures Indexes(fields) == Indexes(fields[..i])
  {
    if i < |fields| {
      assert fields[..|fields| - 1][..i] == fields[..i];
      IndexesFailurePersists(fields[..|fields| - 1], i);
    } else {
      assert fields[..i] == fields;
    }
  }

  /** The `switch` on one trimmed attribute: updates `keys`, `isUnique` and `opts`; a `ttl`
      attribute without an integer `ttlSeconds` tag is fatal. */
  method ApplyAttr(field: FieldTags, keys: seq<Elem>, isUnique: bool, opts: IndexOptions, a: string)
    returns (r: Result<AttrState, Fatal>)
    ensures r == Step(field, AttrState(keys, isUnique, opts), a)
  {
    var bsonTag := field.bson;
    var keys, isUnique, opts := keys, isUnique, opts;
    if a == "1" {
      keys := [E(bsonTag, Int(1))];
    } else if a == "-1" {
      keys := [E(bsonTag, Int(-1))];
    } else if a == "unique" {
      isUnique := true;
    } else if a == "sparse" {
      opts := opts.(sparse := Some(true));
    } else if a == "text" {
      keys := [E(bsonTag, Str("text"))];
    } else if a == "hashed" {
      keys := [E(bsonTag, Str("hashed"))];
    } else if a == "ttl" {
      keys := [E(bsonTag, Int(1))];
      if field.ttlSeconds == "" {
        return Failure(TtlMissing);
      }
      var ttlSeconds := ParseInt(field.ttlSeconds);
      if ttlSeconds.None? {
        return Failure(TtlNotInteger);
      }
      opts := opts.(expireAfterSeconds := Some(Wrap32(ttlSeconds.value as int)));
    } else if a == "2dsphere" {
      keys := [E(bsonTag, Str("2dsphere"))];
    } else if a == "2d" {
      keys := [E(bsonTag, Str("2d"))];
    }
    return Success(AttrState(keys, isUnique, opts));
  }

  /** The attribute loop of `extractIndexes` for one field that is not skipped: splits the
      index tag on commas, trims each piece and applies it; the first fatal attribute ends
      the loop. */
  method ParseIndexTag(field: FieldTags) returns (r: Result<AttrState, Fatal>)
    ensures r == ParseAttrs(field, Split(field.index, ','))
  {
    var keys: seq<Elem> := [];
    var opts := NoOptions;
    var attrs := Split(field.index, ',');
    var isUnique := false;
    for j := 0 to |attrs|
      invariant ParseAttrs(field, attrs[..j]) == Success(AttrState(keys, isUnique, opts))
    {
      assert attrs[..j + 1][..j] == attrs[..j];
      var next := ApplyAttr(field, keys, isUnique, opts, TrimSpace(attrs[j]));
      if next.Failure? {
        ParseAttrsFailurePersists(field, attrs, j + 1);
        return next;
      }
      keys, isUnique, opts := next.value.keys, next.value.isUnique, next.value.opts;
    }
    assert attrs[..|attrs|] == attrs;
    r := Success(AttrState(keys, isUnique, opts));
  }

  /** One turn of the field loop of `extractIndexes`: a field without an index tag, or
      whose `bson` tag is empty or `-`, is skipped; otherwise its index tag is parsed and
      the field gives an index only when some attribute defined a key. */
  method ExtractFieldIndex(field: FieldTags) returns (r: Result<Option<IndexModel>, Fatal>)
    ensures r == FieldIndex(field)
  {
    if field.index == "" || field.bson == "" || field.bson == "-" {
      return Success(None);
    }
    var parsed := ParseIndexTag(field);
    if parsed.Failure? {
      return Failure(parsed.error);
    }
    var keys, isUnique, opts := parsed.value.keys, parsed.value.isUnique, parsed.value.opts;
    if |keys| > 0 {
      if isUnique {
        opts := opts.(unique := Some(true));
      }
      return Success(Some(IndexModel(keys, opts)));
    }
    return Success(None);
  }

  /** `extractIndexes`: dereferences a pointer once, rejects a non-struct, then collects
      the index of each field in turn. */
  method ExtractIndexes(model: ModelType) returns (r: Result<seq<IndexModel>, Fatal>)
    ensures r == ModelIndexes(model)
  {
    var t := model;
    if t.Pointer? {
      t := t.elem;
    }
    if !t.Struct? {
      return Failure(NotStruct);
    }
    var fields := t.fields;
    var indexes: seq<IndexModel> := [];
    for i := 0 to |fields|
      invariant Indexes(fields[..i]) == Success(indexes)
    {
      assert fields[..i + 1][..i] == fields[..i];
      var index := ExtractFieldIndex(fields[i]);
      if index.Failure? {
        IndexesFailurePersists(fields, i + 1);
        return Failure(index.error);
      }
      if index.value.Some? {
        indexes := indexes + [index.value.value];
      }
    }
    assert fields[..|fields|] == fields;
    r := Success(indexes);
  }

  // ---------------------------------------------------------------- what the parser means

  /** Some attribute of the list, once trimmed, is `name`. */
  predicate HasAttr(attrs: seq<string>, name: string)
  {
    exists i :: 0 <= i < |attrs| && TrimSpace(attrs[i]) == name
  }

  /** The key value of the last key attribute of the list, if there is one. */
  function LastKey(attrs: seq<string>): Option<Value>
  {
    if attrs == [] then None
    else if KeyValue(TrimSpace(attrs[|attrs| - 1])).Some? then KeyValue(TrimSpace(attrs[|attrs| - 1]))
    else LastKey(attrs[..|attrs| - 1])
  }

  lemma HasAttrLast(attrs: seq<string>, name: string)
    requires attrs != []
    ensures HasAttr(attrs, name) <==>
      HasAttr(attrs[..|attrs| - 1], name) || TrimSpace(attrs[|attrs| - 1]) == name
  {
    var init := attrs[..|attrs| - 1];
    if HasAttr(attrs, name) && TrimSpace(attrs[|attrs| - 1]) != name {
      var i :| 0 <= i < |attrs| && TrimSpace(attrs[i]) == name;
      assert init[i] == attrs[i];
    }
    if HasAttr(init, name) {
      var i :| 0 <= i < |init| && TrimSpace(init[i]) == name;
      assert attrs[i] == init[i];
    }
  }

  /** One attribute, once trimmed: `ttl` without an integer `ttlSeconds` tag is fatal; a
      key attribute replaces the keys; `unique`, `sparse` and `ttl` set their option; any
      other attribute changes nothing. */
  lemma StepMeaning(f: FieldTags, st: AttrState, a: string)
    ensures Step(f, st, a).Failure? <==> a == "ttl" && ParseInt(f.ttlSeconds).None?
    ensures Step(f, st, a).Failure? ==>
      Step(f, st, a).error == (if f.ttlSeconds == "" then TtlMissing else TtlNotInteger)
    ensures Step(f, st, a).Success? ==>
      var st' := Step(f, st, a).value;
      && st'.keys == (if KeyValue(a).Some? then [E(f.bson, KeyValue(a).value)] else st.keys)
      && (st'.isUnique <==> st.isUnique || a == "unique")
      && st'.opts.unique == st.opts.unique
      && st'.opts.sparse == (if a == "sparse" then Some(true) else st.opts.sparse)
      && st'.opts.expireAfterSeconds ==
           (if a == "ttl" then Some(Wrap32(ParseInt(f.ttlSeconds).value as int)) else st.opts.expireAfterSeconds)
  {
    if f.ttlSeconds == "" {
      assert ParseInt(f.ttlSeconds).None?;
    }
  }

  /** The attribute loop, attribute by attribute: it fails exactly when some attribute is
      `ttl` and the `ttlSeconds` tag is missing or not an integer; otherwise the key is the
      one the LAST key attribute defines, the index is unique iff some attribute is
      `unique`, sparse iff some attribute is `sparse`, and expires (after the 32-bit
      truncation of `ttlSeconds`) iff some attribute is `ttl`. */
  lemma {:induction false} ParseAttrsMeaning(f: FieldTags, attrs: seq<string>)
    ensures ParseAttrs(f, attrs).Failure? <==> HasAttr(attrs, "ttl") && ParseInt(f.ttlSeconds).None?
    ensures ParseAttrs(f, attrs).Failure? ==>
      ParseAttrs(f, attrs).error == (if f.ttlSeconds == "" then TtlMissing else TtlNotInteger)
    ensures ParseAttrs(f, attrs).Success? ==>
      var st := ParseAttrs(f, attrs).value;
      && st.keys == (if LastKey(attrs).Some? then [E(f.bson, LastKey(attrs).value)] else [])
      && (st.isUnique <==> HasAttr(attrs, "unique"))
      && st.opts.unique.None?
      && st.opts.sparse == (if HasAttr(attrs, "sparse") then Some(true) else None)
      && st.opts.expireAfterSeconds ==
           (if HasAttr(attrs, "ttl") then Some(Wrap32(ParseInt(f.ttlSeconds).value as int)) else None)
  {
    if attrs != [] {
      var init, last := attrs[..|attrs| - 1], attrs[|attrs| - 1];
      ParseAttrsMeaning(f, init);
      HasAttrLast(attrs, "ttl");
      HasAttrLast(attrs, "unique");
      HasAttrLast(attrs, "sparse");
      var prev := ParseAttrs(f, init);
      if prev.Success? {
        StepMeaning(f, prev.value, TrimSpace(last));
      }
    }
  }

  /** What one field contributes: nothing when it is skipped; otherwise the field is fatal
      exactly as its attribute list is, and an index comes out exactly when some attribute
      defines a key. That index has the single key `bson tag -> last key value` (the whole
      `bson` tag is the key name) and is unique exactly when some attribute is `unique`. */
  lemma FieldIndexMeaning(f: FieldTags)
    ensures Skipped(f) ==> FieldIndex(f) == Success(None)
    ensures !Skipped(f) ==>
      (FieldIndex(f).Failure? <==> HasAttr(Split(f.index, ','), "ttl") && ParseInt(f.ttlSeconds).None?)
    ensures !Skipped(f) && FieldIndex(f).Success? ==>
      (FieldIndex(f).value.Some? <==> LastKey(Split(f.index, ',')).Some?)
    ensures FieldIndex(f).Success? && FieldIndex(f).value.Some? ==>
      var ix := FieldIndex(f).value.value;
      && ix.keys == [E(f.bson, LastKey(Split(f.index, ',')).value)]
      && (ix.options.unique == Some(true) <==> HasAttr(Split(f.index, ','), "unique"))
      && (ix.options.unique.None? <==> !HasAttr(Split(f.index, ','), "unique"))
  {
    if !Skipped(f) {
      ParseAttrsMeaning(f, Split(f.index, ','));
    }
  }

  /** The indexes of two runs of fields are the indexes of the first run followed by those
      of the second; the first fatal field decides the error. */
  lemma {:induction false} IndexesAppend(a: seq<FieldTags>, b: seq<FieldTags>)
    ensures Indexes(a).Failure? ==> Indexes(a + b) == Indexes(a)
    ensures Indexes(a).Success? && Indexes(b).Failure? ==> Indexes(a + b) == Indexes(b)
    ensures Indexes(a).Success? && Indexes(b).Success? ==>
      Indexes(a + b) == Success(Indexes(a).value + Indexes(b).value)
  {
    if b == [] {
      assert a + b == a;
      if Indexes(a).Success? {
        assert Indexes(a).value + [] == Indexes(a).value;
      }
    } else {
      var bi := b[..|b| - 1];
      IndexesAppend(a, bi);
      assert (a + b)[..|a + b| - 1] == a + bi;
      assert (a + b)[|a + b| - 1] == b[|b| - 1];
      var last := FieldIndex(b[|b| - 1]);
      if Indexes(a).Success? && Indexes(bi).Success? && last.Success? && last.value.Some? {
        var x, y := Indexes(a).value, Indexes(bi).value;
        assert x + y + [last.value.value] == x + (y + [last.value.value]);
      }
    }
  }

  /** Each field contributes at most one index. */
  lemma {:induction false} IndexesAtMostOnePerField(fields: seq<FieldTags>)
    ensures Indexes(fields).Success? ==> |Indexes(fields).value| <= |fields|
  {
    if fields != [] {
      IndexesAtMostOnePerField(fields[..|fields| - 1]);
    }
  }

  /** The attribute loop on an ascending key followed by `unique`. */
  lemma ParseAscUnique(f: FieldTags, attrs: seq<string>)
    requires |attrs| == 2 && TrimSpace(attrs[0]) == "1" && TrimSpace(attrs[1]) == "unique"
    ensures ParseAttrs(f, attrs) == Success(AttrState([E(f.bson, Int(1))], true, NoOptions))
  {
    var st1 := AttrState([E(f.bson, Int(1))], false, NoOptions);
    assert ParseAttrs(f, attrs[..1]) == Success(st1) by {
      assert attrs[..1][..0] == [];
      StepMeaning(f, Start, TrimSpace(attrs[0]));
    }
    assert attrs[..2] == attrs;
    StepMeaning(f, st1, TrimSpace(attrs[1]));
  }

  /** A text with exactly one comma, at `i`, splits into the two sides. */
  lemma SplitPair(s: string, i: nat)
    requires i < |s| && s[i] == ',' && ',' !in s[..i] && ',' !in s[i + 1..]
    ensures Split(s, ',') == [s[..i], s[i + 1..]]
  {
    assert s == s[..i] + [','] + s[i + 1..];
    SplitFirst(s[..i], s[i + 1..], ',');
    SplitNoSep(s[i + 1..], ',');
  }

  /** The index of a field that is not skipped, from the outcome of its attribute loop. */
  lemma FieldIndexOfState(f: FieldTags, st: AttrState)
    requires !Skipped(f) && ParseAttrs(f, Split(f.index, ',')) == Success(st)
    ensures FieldIndex(f) == if |st.keys| > 0
      then Success(Some(IndexModel(st.keys, if st.isUnique then st.opts.(unique := Some(true)) else st.opts)))
      else Success(None)
  {
  }

  /** The tag `1,unique` is the attributes `1` and `unique`. */
  lemma AscUniqueTag(s: string)
    requires s == "1,unique"
    ensures |Split(s, ',')| == 2
    ensures TrimSpace(Split(s, ',')[0]) == "1" && TrimSpace(Split(s, ',')[1]) == "unique"
  {
    var p, q := s[..1], s[2..];
    SplitPair(s, 1);
    TrimSpaceOfTrimmed(p);
    TrimSpaceOfTrimmed(q);
  }

  /** `1,unique` gives one unique ascending index, keyed by the whole `bson` tag. */
  lemma ExampleAscUnique(f: FieldTags)
    requires f.index == "1,unique" && f.bson != "" && f.bson != "-"
    ensures FieldIndex(f) == Success(Some(IndexModel([E(f.bson, Int(1))], IndexOptions(Some(true), None, None))))
  {
    AscUniqueTag(f.index);
    ParseAscUnique(f, Split(f.index, ','));
    FieldIndexOfState(f, AttrState([E(f.bson, Int(1))], true, NoOptions));
  }

  /** A comma-free index tag is a single attribute. */
  lemma ParseSingle(f: FieldTags)
    requires ',' !in f.index
    ensures ParseAttrs(f, Split(f.index, ',')) == Step(f, Start, TrimSpace(f.index))
  {
    SplitNoSep(f.index, ',');
    assert [f.index][..0] == [];
  }

  /** The tags `unique`, `sparse` and `ttl` are one attribute each, with no blank. */
  lemma SingleTag(s: string)
    requires s == "unique" || s == "sparse" || s == "ttl"
    ensures ',' !in s && TrimSpace(s) == s
  {
    TrimSpaceOfTrimmed(s);
  }

  /** `unique` or `sparse` alone define no key and give no index. */
  lemma ExampleNoKey(f: FieldTags)
    requires (f.index == "unique" || f.index == "sparse") && f.bson != "" && f.bson != "-"
    ensures FieldIndex(f) == Success(None)
  {
    SingleTag(f.index);
    ParseSingle(f);
    StepMeaning(f, Start, f.index);
    FieldIndexOfState(f, Step(f, Start, f.index).value);
  }

  /** The attribute loop on a descending key followed by a text key. */
  lemma ParseDescText(f: FieldTags, attrs: seq<string>)
    requires |attrs| == 2 && TrimSpace(attrs[0]) == "-1" && TrimSpace(attrs[1]) == "text"
    ensures ParseAttrs(f, attrs) == Success(AttrState([E(f.bson, Str("text"))], false, NoOptions))
  {
    var st1 := AttrState([E(f.bson, Int(-1))], false, NoOptions);
    assert ParseAttrs(f, attrs[..1]) == Success(st1) by {
      assert attrs[..1][..0] == [];
      StepMeaning(f, Start, TrimSpace(attrs[0]));
    }
    assert attrs[..2] == attrs;
    StepMeaning(f, st1, TrimSpace(attrs[1]));
  }

  /** One leading blank before a word is trimmed away. */
  lemma TrimOneLeadingSpace(q: string)
    requires |q| >= 2 && IsSpace(q[0]) && !IsSpace(q[1]) && !IsSpace(q[|q| - 1])
    ensures TrimSpace(q) == q[1..]
  {
    assert LeadingSpaces(q) == 1;
    TrimSpaceOfTrimmed(q[1..]);
  }

  /** The tag `-1, text` is the attributes `-1` and `text` once the blank is trimmed. */
  lemma DescTextTag(s: string)
    requires s == "-1, text"
    ensures |Split(s, ',')| == 2
    ensures TrimSpace(Split(s, ',')[0]) == "-1" && TrimSpace(Split(s, ',')[1]) == "text"
  {
    var p, q := s[..2], s[3..];
    SplitPair(s, 2);
    TrimSpaceOfTrimmed(p);
    TrimOneLeadingSpace(q);
    assert q[1..] == "text";
  }

  /** In `-1, text` the later key attribute wins and the space before it is trimmed. */
  lemma ExampleLastKeyWins(f: FieldTags)
    requires f.index == "-1, text" && f.bson != "" && f.bson != "-"
    ensures FieldIndex(f) == Success(Some(IndexModel([E(f.bson, Str("text"))], NoOptions)))
  {
    DescTextTag(f.index);
    ParseDescText(f, Split(f.index, ','));
    FieldIndexOfState(f, AttrState([E(f.bson, Str("text"))], false, NoOptions));
  }

  /** A pointer is followed once only: a pointer to a pointer is not a struct. */
  lemma ExampleNotStruct(fields: seq<FieldTags>)
    ensures ModelIndexes(Pointer(Pointer(Struct(fields)))) == Failure(NotStruct)
    ensures ModelIndexes(Pointer(Struct(fields))) == ModelIndexes(Struct(fields))
  {
  }

  /** `soon` is not an integer. */
  lemma NotInteger(s: string)
    requires s == "soon"
    ensures ParseInt(s).None?
  {
    assert !IsDigit(s[0]);
  }

  /** `ttl` without a `ttlSeconds` tag, or with one that is not an integer, ends the program. */
  lemma ExampleFatal(f: FieldTags)
    requires f.index == "ttl" && f.bson != "" && f.bson != "-"
    ensures f.ttlSeconds == "" ==> FieldIndex(f) == Failure(TtlMissing)
    ensures f.ttlSeconds == "soon" ==> FieldIndex(f) == Failure(TtlNotInteger)
  {
    SingleTag(f.index);
    ParseSingle(f);
    if f.ttlSeconds == "soon" {
      NotInteger(f.ttlSeconds);
    }
    StepMeaning(f, Start, f.index);
  }
}
