/** The parts of the document-store collection wrapper that compute something of their
    own: the pipeline `SimpleAggregate*` sends, the ID preparation before an insert, the
    outcome of `SimpleAggregateFirst`, and the filter of `FindByID`. The driver calls
    (`Aggregate`, the insert behind `create`, cursor iteration and decoding) are
    parameters or opaque; `builder.S`, which turns an operator into a stage document, is
    not part of this model and stays symbolic. */
module MongoCollection {
  import opened Wrappers
  import opened Values

  /** The primary-key field name, `field.ID`. */
  const IdField := "_id"

  /** An error returned by the driver, by `PrepareID` or by decoding. */
  datatype Error = Error(text: string)

  /** One argument of `SimpleAggregate*`: a `builder.Operator` or any other value
      (typically a `bson.M`). */
  datatype Stage = OperatorStage(op: Value) | Other(v: Value)

  /** One element of the pipeline: `builder.S(op)`, or a stage passed through. */
  datatype PipelineElem = Built(op: Value) | Passed(v: Value)

  /** The pipeline element one stage becomes. */
  function ElemOf(stage: Stage): PipelineElem
  {
    match stage
    case OperatorStage(op) => Built(op)
    case Other(v) => Passed(v)
  }

  /** The stage a pipeline element came from. */
  function StageOf(e: PipelineElem): Stage
  {
    match e
    case Built(op) => OperatorStage(op)
    case Passed(v) => Other(v)
  }

  /** The pipeline of `simpleAggregateCursor`. */
  function Pipeline(stages: seq<Stage>): seq<PipelineElem>
  {
    if stages == [] then []
    else Pipeline(stages[..|stages| - 1]) + [ElemOf(stages[|stages| - 1])]
  }

  /** `simpleAggregateCursor`, up to the call into the driver: the pipeline it builds. */
  method SimpleAggregatePipeline(stages: seq<Stage>) returns (pipeline: seq<PipelineElem>)
    ensures pipeline == Pipeline(stages)
  {
    pipeline := [];
    for i := 0 to |stages|
      invariant pipeline == Pipeline(stages[..i])
    {
      assert stages[..i + 1][..i] == stages[..i];
      var stage := stages[i];
      if stage.OperatorStage? {
        pipeline := pipeline + [Built(stage.op)];
      } else {
        pipeline := pipeline + [Passed(stage.v)];
      }
    }
    assert stages[..|stages|] == stages;
  }

  /** Exactly one element per stage, in the same order: an operator becomes `builder.S`
      of it, anything else is passed through unchanged. */
  lemma {:induction false} PipelineElementwise(stages: seq<Stage>)
    ensures |Pipeline(stages)| == |stages|
    ensures forall i :: 0 <= i < |stages| ==>
      (stages[i].OperatorStage? ==> Pipeline(stages)[i] == Built(stages[i].op))
      && (stages[i].Other? ==> Pipeline(stages)[i] == Passed(stages[i].v))
  {
    if stages != [] {
      PipelineElementwise(stages[..|stages| - 1]);
    }
  }

  /** Nothing is lost: the stages can be read back from the pipeline. */
  lemma {:induction false} PipelineInverse(stages: seq<Stage>)
    ensures |Pipeline(stages)| == |stages|
    ensures forall i :: 0 <= i < |stages| ==> StageOf(Pipeline(stages)[i]) == stages[i]
  {
    PipelineElementwise(stages);
  }

  /** Pipelines compose: the stages of two calls give the two pipelines one after the
      other. */
  lemma {:induction false} PipelineAppend(a: seq<Stage>, b: seq<Stage>)
    ensures Pipeline(a + b) == Pipeline(a) + Pipeline(b)
  {
    if b == [] {
      assert a + b == a;
    } else {
      var bi := b[..|b| - 1];
      PipelineAppend(a, bi);
      assert (a + b)[..|a + b| - 1] == a + bi;
      assert (a + b)[|a + b| - 1] == b[|b| - 1];
    }
  }

  // ---------------------------------------------------------------- SimpleAggregateFirst

  /** What `simpleAggregateFirst` returns for the outcome of the aggregation (an error,
      or the documents of the cursor) and the decoder of one document. */
  function AggregateFirst(cursor: Result<seq<Value>, Error>, decode: Value -> Option<Error>): (r: (bool, Option<Error>))
    ensures r.0 <==> cursor.Success? && cursor.value != []
    ensures r.0 ==> r.1 == decode(cursor.value[0])
    ensures cursor.Failure? ==> r.1 == Some(cursor.error)
    ensures !r.0 && r.1.None? <==> cursor == Success([])
  {
    match cursor
    case Failure(e) => (false, Some(e))
    case Success(docs) => if docs == [] then (false, None) else (true, decode(docs[0]))
  }

  /** `simpleAggregateFirst`: the pipeline of the stages is handed to `aggregate`, and
      the first document, if any, to `decode`. */
  method SimpleAggregateFirst(stages: seq<Stage>, aggregate: seq<PipelineElem> -> Result<seq<Value>, Error>,
                              decode: Value -> Option<Error>)
    returns (found: bool, err: Option<Error>)
    ensures (found, err) == AggregateFirst(aggregate(Pipeline(stages)), decode)
  {
    var pipeline := SimpleAggregatePipeline(stages);
    var cur := aggregate(pipeline);
    if cur.Failure? {
      return false, Some(cur.error);
    }
    if cur.value != [] {
      return true, decode(cur.value[0]);
    }
    return false, None;
  }

  // ---------------------------------------------------------------- Create

  /** A model: the document whose ID `SetID` updates in place. */
  class Model {
    var id: Value

    constructor (id: Value)
      ensures this.id == id
    {
      this.id := id;
    }

    method SetID(id: Value)
      modifies this
      ensures this.id == id
    {
      this.id := id;
    }
  }

  /** The collection, seen through the IDs of the documents inserted into it; the insert
      itself (`create`, with its hooks) is the driver's. */
  class Collection {
    var insertedIds: seq<Value>

    constructor ()
      ensures insertedIds == []
    {
      insertedIds := [];
    }

    /** `create`: inserts the model as it is now. */
    method Insert(model: Model)
      modifies this
      ensures insertedIds == old(insertedIds) + [model.id]
    {
      insertedIds := insertedIds + [model.id];
    }
  }

  /** `createWithCtx`: the ID is prepared first; on an error nothing is changed and the
      error is returned, otherwise the prepared ID is set on the model before the model is
      inserted, so the stored document carries it. */
  method CreateWithCtx(c: Collection, model: Model, prepareID: Value -> Result<Value, Error>)
    returns (err: Option<Error>)
    modifies c, model
    ensures prepareID(old(model.id)).Failure? ==>
      && err == Some(prepareID(old(model.id)).error)
      && model.id == old(model.id)
      && c.insertedIds == old(c.insertedIds)
    ensures prepareID(old(model.id)).Success? ==>
      && err.None?
      && model.id == prepareID(old(model.id)).value
      && c.insertedIds == old(c.insertedIds) + [prepareID(old(model.id)).value]
  {
    var prepared := prepareID(model.id);
    if prepared.Failure? {
      return Some(prepared.error);
    }
    model.SetID(prepared.value);
    c.Insert(model);
    err := None;
  }

  // ---------------------------------------------------------------- FindByID

  /** The filter of `FindByID` and `FindByIDWithCtx`: the single key `_id`, bound to the
      ID as given. */
  function FindByIDFilter(id: Value): (m: map<string, Value>)
    ensures m.Keys == {IdField}
    ensures m[IdField] == id
  {
    map[IdField := id]
  }
}
