/** The simpler index extraction of the `mdu` variant of the document store: every field
    whose `index` tag is non-empty gives one ascending index on its `bson` tag, unique only
    when the tag is exactly `unique`. The model's type is not dereferenced; anything but a
    struct makes `reflect` panic, here the `NotStruct` failure. */
module MduIndexes {
  import opened Wrappers
  import opened Values
  import opened GoStd
  import MongoIndexes

  type FieldTags = MongoIndexes.FieldTags
  type IndexModel = MongoIndexes.IndexModel

  /** The index one field contributes. */
  function FieldIndex(f: FieldTags): Option<IndexModel>
  {
    if f.index == "" then None
    else Some(MongoIndexes.IndexModel([E(f.bson, Int(1))],
                                     MongoIndexes.IndexOptions(if f.index == "unique" then Some(true) else None, None, None)))
  }

  /** The indexes of the fields, in field order. */
  function Indexes(fields: seq<FieldTags>): seq<IndexModel>
  {
    if fields == [] then []
    else
      var r := FieldIndex(fields[|fields| - 1]);
      Indexes(fields[..|fields| - 1]) + (if r.Some? then [r.value] else [])
  }

  function ModelIndexes(model: MongoIndexes.ModelType): Result<seq<IndexModel>, MongoIndexes.Fatal>
  {
    if model.Struct? then Success(Indexes(model.fields)) else Failure(MongoIndexes.NotStruct)
  }

  /** `extractIndexes` of the `mdu` variant. */
  method ExtractIndexes(model: MongoIndexes.ModelType) returns (r: Result<seq<IndexModel>, MongoIndexes.Fatal>)
    ensures r == ModelIndexes(model)
  {
    if !model.Struct? {
      return Failure(MongoIndexes.NotStruct);
    }
    var fields := model.fields;
    var indexes: seq<IndexModel> := [];
    for i := 0 to |fields|
      invariant indexes == Indexes(fields[..i])
    {
      assert fields[..i + 1][..i] == fields[..i];
      var field := fields[i];
      var indexTag := field.index;
      if indexTag != "" {
        var keys := [E(field.bson, Int(1))];
        var opts := MongoIndexes.NoOptions;
        if indexTag == "unique" {
          opts := opts.(unique := Some(true));
        }
        indexes := indexes + [MongoIndexes.IndexModel(keys, opts)];
      }
    }
    assert fields[..|fields|] == fields;
    r := Success(indexes);
  }

  /** The fields whose `index` tag is non-empty, in order. */
  function Tagged(fields: seq<FieldTags>): (t: seq<FieldTags>)
    ensures |t| <= |fields|
    ensures forall i :: 0 <= i < |t| ==> t[i].index != "" && t[i] in fields
    ensures forall f :: f in fields && f.index != "" ==> f in t
  {
    if fields == [] then []
    else
      var init, last := fields[..|fields| - 1], fields[|fields| - 1];
      assert forall f :: f in fields ==> f in init || f == last;
      Tagged(init) + (if last.index != "" then [last] else [])
  }

  /** A single field is kept exactly when its `index` tag is non-empty. */
  lemma TaggedSingle(f: FieldTags)
    ensures Tagged([f]) == if f.index != "" then [f] else []
  {
    assert [f][..0] == [];
  }

  /** Selecting the tagged fields of a concatenation selects those of each part, in the
      parts' order: the selection keeps the fields' order and multiplicity. */
  lemma {:induction false} TaggedAppend(a: seq<FieldTags>, b: seq<FieldTags>)
    ensures Tagged(a + b) == Tagged(a) + Tagged(b)
  {
    if b == [] {
      assert a + b == a;
    } else {
      var init, last := b[..|b| - 1], b[|b| - 1];
      var tail := if last.index != "" then [last] else [];
      assert (a + b)[..|a + b| - 1] == a + init;
      assert (a + b)[|a + b| - 1] == last;
      calc {
        Tagged(a + b);
        Tagged(a + init) + tail;
        { TaggedAppend(a, init); }
        Tagged(a) + Tagged(init) + tail;
        Tagged(a) + (Tagged(init) + tail);
      }
    }
  }

  /** Exactly one index per tagged field, in field order: always an ascending key on the
      field's `bson` tag (empty or not), whatever the tag says, and unique exactly when the
      tag is `unique`. */
  lemma {:induction false} IndexesOfTagged(fields: seq<FieldTags>)
    ensures |Indexes(fields)| == |Tagged(fields)|
    ensures forall i :: 0 <= i < |Tagged(fields)| ==>
      && Indexes(fields)[i].keys == [E(Tagged(fields)[i].bson, Int(1))]
      && (Indexes(fields)[i].options.unique == Some(true) <==> Tagged(fields)[i].index == "unique")
      && Indexes(fields)[i].options.unique != Some(false)
      && Indexes(fields)[i].options.sparse.None?
      && Indexes(fields)[i].options.expireAfterSeconds.None?
  {
    if fields != [] {
      IndexesOfTagged(fields[..|fields| - 1]);
    }
  }

  /** The two variants disagree on `1,unique`: the full parser makes a unique index, the
      `mdu` one an ordinary ascending index. */
  lemma UniqueDiffersFromFullParser(f: FieldTags)
    requires f.index == "1,unique" && f.bson != "" && f.bson != "-"
    ensures FieldIndex(f) == Some(MongoIndexes.IndexModel([E(f.bson, Int(1))], MongoIndexes.NoOptions))
    ensures MongoIndexes.FieldIndex(f).Success? && MongoIndexes.FieldIndex(f).value.Some?
    ensures MongoIndexes.FieldIndex(f).value.value.options.unique == Some(true)
  {
    MongoIndexes.ExampleAscUnique(f);
  }
}
