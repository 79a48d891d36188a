/** The message-stream state machine (target_cassandra/__init__.py,
    `persist_lines`), with Cassandra writes recorded in an insert log and
    JSON-Schema validation taken as a parameter. */
module StreamProcessor {
  import opened Outcomes
  import opened JsonValues
  import opened SchemaTranslation

  /** A record object: only looked up by key. */
  type Record = map<string, Json>

  /** One input line, already parsed. Fields of a message that may be
      absent are Options; a missing field the code reads is an Error. */
  datatype Message =
    | RecordMsg(stream: Option<string>, record: Option<Record>)
    | StateMsg(value: Option<Json>)
    | SchemaMsg(stream: Option<string>, schema: Option<Schema>, keyProperties: Option<seq<string>>)
    | ActivateVersionMsg
    | UnknownMsg(typ: UnknownType)   // a `type` other than the four known ones
    | UntypedMsg              // no `type` key
    | UnparseableLine         // `json.loads` raised

  /** A `type` value the dispatch does not recognise. */
  type UnknownType = j: Json | !(j.Str? && j.s in {"RECORD", "STATE", "SCHEMA", "ACTIVATE_VERSION"}) witness Null

  /** What the target keeps for a declared stream: its schema (from which
      its validator is built), its key properties, its model and the
      defined column names. */
  datatype StreamState = StreamState(schema: Schema, keyProperties: seq<string>, model: Model, columnNames: set<string>)

  /** One `Model.create` call: the row written for a stream. */
  datatype Insert = Insert(stream: string, row: Record)

  /** The loop state: per-stream state, the pending checkpoint (`Null`
      stands for None) and every row written so far. */
  datatype Run = Run(streams: map<string, StreamState>, checkpoint: Json, log: seq<Insert>)

  const Start := Run(map[], Null, [])

  /** `Draft4Validator(schema).validate(record)` returns without raising. */
  type Validity = (Schema, Record) -> bool

  /** The stored state of every stream agrees with what its schema message
      translated to. */
  ghost predicate Consistent(run: Run) {
    forall s | s in run.streams ::
      && ProcessSchema(run.streams[s].schema, run.streams[s].keyProperties) == Ok(run.streams[s].model)
      && run.streams[s].columnNames == run.streams[s].model.Keys
  }

  /** One iteration of the loop of `persist_lines`. Rows once written stay
      written and at most one is added, only by a RECORD; only a SCHEMA
      touches the per-stream state; only a STATE or a RECORD touches the
      checkpoint; a record for an undeclared stream and a message that is
      malformed whatever the state fail. */
  function Step(run: Run, m: Message, valid: Validity): (r: Result<Run>)
    ensures r.Ok? ==> |run.log| <= |r.value.log| <= |run.log| + 1 && r.value.log[..|run.log|] == run.log
    ensures r.Ok? && !m.RecordMsg? ==> r.value.log == run.log
    ensures r.Ok? && !m.SchemaMsg? ==> r.value.streams == run.streams
    ensures r.Ok? && !m.StateMsg? && !m.RecordMsg? ==> r.value.checkpoint == run.checkpoint
    ensures m.RecordMsg? && m.stream.Some? && m.stream.value !in run.streams ==> r.Error?
    ensures AlwaysFatal(m) ==> r.Error?
  {
    match m
    case RecordMsg(stream, record) =>
      if stream.None? || stream.value !in run.streams || record.None? then Error
      else
        var st := run.streams[stream.value];
        if !valid(st.schema, record.value) then Error
        else if !(st.columnNames <= record.value.Keys) then Error
        else
          var row := map k | k in st.columnNames :: record.value[k];
          Ok(run.(checkpoint := Null, log := run.log + [Insert(stream.value, row)]))
    case StateMsg(value) =>
      if value.None? then Error else Ok(run.(checkpoint := value.value))
    case SchemaMsg(stream, schema, keys) =>
      if stream.None? || schema.None? || keys.None? then Error
      else
        var model :- ProcessSchema(schema.value, keys.value);
        Ok(run.(streams := run.streams[stream.value := StreamState(schema.value, keys.value, model, model.Keys)]))
    case ActivateVersionMsg =>
      Ok(run)
    case UnknownMsg(_) => Error
    case UntypedMsg => Error
    case UnparseableLine => Error
  }

  /** Where the loop stopped: the last state reached, and whether it
      stopped because a message raised. */
  datatype Stop = Stop(run: Run, failed: bool)

  /** The loop from `run` over `msgs`, stopping at the first message that
      raises. Rows written before are kept, each message writes at most one
      row, and without a RECORD none is written; only a non-empty stream
      can fail. */
  function Process(run: Run, msgs: seq<Message>, valid: Validity): (r: Stop)
    ensures |run.log| <= |r.run.log| <= |run.log| + |msgs|
    ensures r.run.log[..|run.log|] == run.log
    ensures (forall j | 0 <= j < |msgs| :: !msgs[j].RecordMsg?) ==> r.run.log == run.log
    ensures r.failed ==> msgs != []
    decreases |msgs|
  {
    if msgs == [] then Stop(run, false)
    else
      match Step(run, msgs[0], valid)
      case Error => Stop(run, true)
      case Ok(next) => Process(next, msgs[1..], valid)
  }

  /** The outcome of a whole run: the returned checkpoint, or Error when an
      exception escaped, together with the rows already written (writes
      made before a failure are not undone). */
  datatype Outcome = Outcome(result: Result<Json>, inserted: seq<Insert>)

  /** `persist_lines`: an empty stream returns None having written
      nothing; otherwise at most one row per message is written, none at
      all without a RECORD. */
  function PersistLines(msgs: seq<Message>, valid: Validity): (r: Outcome)
    ensures msgs == [] ==> r == Outcome(Ok(Null), [])
    ensures |r.inserted| <= |msgs|
    ensures (forall j | 0 <= j < |msgs| :: !msgs[j].RecordMsg?) ==> r.inserted == []
  {
    var stop := Process(Start, msgs, valid);
    Outcome(if stop.failed then Error else Ok(stop.run.checkpoint), stop.run.log)
  }

  // ---------------------------------------------------------------------
  // One step

  /** A record for a declared stream is inserted iff it validates and has
      every defined column; the row then has exactly the defined columns,
      with values copied from the record, and the checkpoint is cleared.
      Nothing else changes. */
  lemma RecordStep(run: Run, s: string, rec: Record, valid: Validity)
    requires Consistent(run)
    requires s in run.streams
    ensures var st := run.streams[s];
            Step(run, RecordMsg(Some(s), Some(rec)), valid).Ok?
            <==> valid(st.schema, rec) && ProcessSchema(st.schema, st.keyProperties).value.Keys <= rec.Keys
    ensures Step(run, RecordMsg(Some(s), Some(rec)), valid).Ok? ==>
              var next := Step(run, RecordMsg(Some(s), Some(rec)), valid).value;
              var st := run.streams[s];
              && next.streams == run.streams
              && next.checkpoint == Null
              && |next.log| == |run.log| + 1
              && next.log[..|run.log|] == run.log
              && next.log[|run.log|].stream == s
              && next.log[|run.log|].row.Keys == ProcessSchema(st.schema, st.keyProperties).value.Keys
              && forall k | k in next.log[|run.log|].row :: next.log[|run.log|].row[k] == rec[k]
  {
  }

  /** A STATE with a `value` sets the pending checkpoint to it and changes
      nothing else; one without a `value` fails. */
  lemma StateStep(run: Run, v: Json, valid: Validity)
    ensures Step(run, StateMsg(Some(v)), valid) == Ok(run.(checkpoint := v))
    ensures Step(run, StateMsg(None), valid) == Error
  {
  }

  /** A successful schema message replaces its stream's state and nothing
      else: the checkpoint and the written rows are untouched. */
  lemma SchemaStep(run: Run, s: string, schema: Schema, keys: seq<string>, valid: Validity)
    ensures Step(run, SchemaMsg(Some(s), Some(schema), Some(keys)), valid).Ok? <==> ProcessSchema(schema, keys).Ok?
    ensures ProcessSchema(schema, keys).Ok? ==>
              var next := Step(run, SchemaMsg(Some(s), Some(schema), Some(keys)), valid).value;
              && next.streams.Keys == run.streams.Keys + {s}
              && next.streams[s].schema == schema
              && next.streams[s].keyProperties == keys
              && next.streams[s].model == ProcessSchema(schema, keys).value
              && next.streams[s].columnNames == ProcessSchema(schema, keys).value.Keys
              && (forall t | t in run.streams && t != s :: next.streams[t] == run.streams[t])
              && next.checkpoint == run.checkpoint
              && next.log == run.log
  {
  }

  lemma StepConsistent(run: Run, m: Message, valid: Validity)
    requires Consistent(run)
    ensures Step(run, m, valid).Ok? ==> Consistent(Step(run, m, valid).value)
  {
  }

  // ---------------------------------------------------------------------
  // Whole runs

  /** Processing a concatenation is processing the first part and, unless
      it failed, the second part from where the first stopped. */
  lemma {:induction false} ProcessAppend(run: Run, a: seq<Message>, b: seq<Message>, valid: Validity)
    ensures Process(run, a + b, valid)
            == (var s := Process(run, a, valid); if s.failed then s else Process(s.run, b, valid))
    decreases |a|
  {
    if a != [] {
      assert (a + b)[0] == a[0];
      assert (a + b)[1..] == a[1..] + b;
      match Step(run, a[0], valid)
      case Error =>
      case Ok(next) => ProcessAppend(next, a[1..], b, valid);
    } else {
      assert a + b == b;
    }
  }

  lemma {:induction false} ProcessConsistent(run: Run, msgs: seq<Message>, valid: Validity)
    requires Consistent(run)
    ensures Consistent(Process(run, msgs, valid).run)
    decreases |msgs|
  {
    if msgs != [] {
      StepConsistent(run, msgs[0], valid);
      match Step(run, msgs[0], valid)
      case Error =>
      case Ok(next) => ProcessConsistent(next, msgs[1..], valid);
    }
  }

  /** Every state a run reaches is consistent with its schema messages. */
  lemma RunConsistent(msgs: seq<Message>, valid: Validity)
    ensures Consistent(Process(Start, msgs, valid).run)
  {
    ProcessConsistent(Start, msgs, valid);
  }

  /** A message that raises whatever the state is: a line that does not
      parse, has no or an unknown `type`, a record without `stream`, a
      state without `value`, or a schema without `stream`, `schema` or
      `key_properties`. */
  predicate AlwaysFatal(m: Message) {
    || m.UnparseableLine? || m.UntypedMsg? || m.UnknownMsg?
    || (m.RecordMsg? && (m.stream.None? || m.record.None?))
    || (m.StateMsg? && m.value.None?)
    || (m.SchemaMsg? && (m.stream.None? || m.schema.None? || m.keyProperties.None?))
  }

  /** Such a message ends the run in failure and nothing after it is
      written. */
  lemma FatalMessageStopsRun(a: seq<Message>, m: Message, b: seq<Message>, valid: Validity)
    requires AlwaysFatal(m)
    ensures PersistLines(a + [m] + b, valid).result == Error
    ensures PersistLines(a + [m] + b, valid).inserted == PersistLines(a, valid).inserted
  {
    ProcessAppend(Start, a + [m], b, valid);
    ProcessAppend(Start, a, [m], valid);
  }

  /** The streams a run may know about: those named by a schema message. */
  predicate Declares(m: Message, s: string) {
    m.SchemaMsg? && m.stream == Some(s)
  }

  lemma {:induction false} UndeclaredStaysUnwritten(run: Run, msgs: seq<Message>, s: string, valid: Validity)
    requires s !in run.streams
    requires forall ins | ins in run.log :: ins.stream != s
    requires forall j | 0 <= j < |msgs| :: !Declares(msgs[j], s)
    ensures s !in Process(run, msgs, valid).run.streams
    ensures forall ins | ins in Process(run, msgs, valid).run.log :: ins.stream != s
    decreases |msgs|
  {
    if msgs != [] {
      assert !Declares(msgs[0], s);
      match Step(run, msgs[0], valid)
      case Error =>
      case Ok(next) =>
        assert forall j | 0 <= j < |msgs[1..]| :: msgs[1..][j] == msgs[j + 1];
        UndeclaredStaysUnwritten(next, msgs[1..], s, valid);
    }
  }

  /** A record for a stream no earlier schema message declared makes the
      run fail, and no row is ever written for that stream. */
  lemma UndeclaredRecordFails(msgs: seq<Message>, i: nat, s: string, valid: Validity)
    requires i < |msgs|
    requires msgs[i].RecordMsg? && msgs[i].stream == Some(s)
    requires forall j | 0 <= j < i :: !Declares(msgs[j], s)
    ensures PersistLines(msgs, valid).result == Error
    ensures forall ins | ins in PersistLines(msgs, valid).inserted :: ins.stream != s
  {
    var a, b := msgs[..i], msgs[i + 1..];
    assert msgs == a + [msgs[i]] + b;
    ProcessAppend(Start, a + [msgs[i]], b, valid);
    ProcessAppend(Start, a, [msgs[i]], valid);
    UndeclaredStaysUnwritten(Start, a, s, valid);
  }

  /** ACTIVATE_VERSION changes nothing. */
  lemma ActivateVersionIsNoOp(a: seq<Message>, b: seq<Message>, valid: Validity)
    ensures PersistLines(a + [ActivateVersionMsg] + b, valid) == PersistLines(a + b, valid)
  {
    ProcessAppend(Start, a + [ActivateVersionMsg], b, valid);
    ProcessAppend(Start, a, [ActivateVersionMsg], valid);
    ProcessAppend(Start, a, b, valid);
  }

  /** A STATE message overwrites the pending checkpoint: one immediately
      followed by another is as if it had not been sent. */
  lemma StateOverwrites(a: seq<Message>, v1: Json, v2: Json, b: seq<Message>, valid: Validity)
    ensures PersistLines(a + [StateMsg(Some(v1)), StateMsg(Some(v2))] + b, valid)
            == PersistLines(a + [StateMsg(Some(v2))] + b, valid)
  {
    var x, y := StateMsg(Some(v1)), StateMsg(Some(v2));
    ProcessAppend(Start, a + [x, y], b, valid);
    ProcessAppend(Start, a, [x, y], valid);
    ProcessAppend(Start, a + [y], b, valid);
    ProcessAppend(Start, a, [y], valid);
  }

  /** A later schema message for the same stream replaces its schema,
      model and defined columns entirely: once the first one translated,
      only the second one matters. */
  lemma SchemaSupersedes(a: seq<Message>, s: string, schema1: Schema, keys1: seq<string>,
                         schema2: Schema, keys2: seq<string>, b: seq<Message>, valid: Validity)
    requires ProcessSchema(schema1, keys1).Ok?
    ensures PersistLines(a + [SchemaMsg(Some(s), Some(schema1), Some(keys1)), SchemaMsg(Some(s), Some(schema2), Some(keys2))] + b, valid)
            == PersistLines(a + [SchemaMsg(Some(s), Some(schema2), Some(keys2))] + b, valid)
  {
    var x, y := SchemaMsg(Some(s), Some(schema1), Some(keys1)), SchemaMsg(Some(s), Some(schema2), Some(keys2));
    ProcessAppend(Start, a + [x, y], b, valid);
    ProcessAppend(Start, a, [x, y], valid);
    ProcessAppend(Start, a + [y], b, valid);
    ProcessAppend(Start, a, [y], valid);
    if !Process(Start, a, valid).failed {
      SecondSchemaStep(Process(Start, a, valid).run, s, schema1, keys1, schema2, keys2, valid);
    }
  }

  lemma SecondSchemaStep(r: Run, s: string, schema1: Schema, keys1: seq<string>,
                         schema2: Schema, keys2: seq<string>, valid: Validity)
    requires ProcessSchema(schema1, keys1).Ok?
    ensures var x, y := SchemaMsg(Some(s), Some(schema1), Some(keys1)), SchemaMsg(Some(s), Some(schema2), Some(keys2));
            var p1, p2 := Process(r, [x, y], valid), Process(r, [y], valid);
            && p1.failed == p2.failed
            && p1.run.log == p2.run.log
            && p1.run.checkpoint == p2.run.checkpoint
            && (!p1.failed ==> p1.run == p2.run)
  {
    var x, y := SchemaMsg(Some(s), Some(schema1), Some(keys1)), SchemaMsg(Some(s), Some(schema2), Some(keys2));
    var r1 := Step(r, x, valid).value;
    assert r1.streams == r.streams[s := r1.streams[s]];
    assert Step(r1, y, valid) == Step(r, y, valid) by {
      if ProcessSchema(schema2, keys2).Ok? {
        var m2 := ProcessSchema(schema2, keys2).value;
        assert r1.streams[s := StreamState(schema2, keys2, m2, m2.Keys)]
               == r.streams[s := StreamState(schema2, keys2, m2, m2.Keys)];
      }
    }
    assert [x, y][1..] == [y];
    assert Process(r, [x, y], valid) == Process(r1, [y], valid);
  }

  // ---------------------------------------------------------------------
  // Checkpoint

  /** The checkpoint a run should return, read backwards from the end: the
      value of the last STATE message if no RECORD follows it, and None
      (`Null`) if a RECORD follows it or there is none. */
  function PendingCheckpoint(msgs: seq<Message>): Json {
    if msgs == [] then Null
    else
      match msgs[|msgs| - 1]
      case StateMsg(Some(v)) => v
      case RecordMsg(_, _) => Null
      case _ => PendingCheckpoint(msgs[..|msgs| - 1])
  }

  /** A run that returns normally returns exactly the pending checkpoint. */
  lemma {:induction false} CheckpointIsLastPendingState(msgs: seq<Message>, valid: Validity)
    ensures PersistLines(msgs, valid).result.Ok? ==>
              PersistLines(msgs, valid).result.value == PendingCheckpoint(msgs)
    decreases |msgs|
  {
    if msgs != [] {
      var init, last := msgs[..|msgs| - 1], msgs[|msgs| - 1];
      assert msgs == init + [last];
      ProcessAppend(Start, init, [last], valid);
      CheckpointIsLastPendingState(init, valid);
    }
  }
}
