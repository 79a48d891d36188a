# target-cassandra in Dafny

A model of the core of `target-cassandra`, a Singer target that reads a
stream of SCHEMA, RECORD, STATE and ACTIVATE_VERSION messages and writes
the records into Cassandra tables it derives from the declared JSON
Schemas. Three parts are modelled:

- the JSON-Schema type table and `process_schema`, which turn a stream's
  `properties` and `key_properties` into a model (columns, each with a
  column class and a primary-key flag): `type_table.dfy`, `process_schema.dfy`;
- `persist_lines`, a left fold over the messages that keeps per-stream
  schema, validator, model and defined column names plus one pending
  checkpoint: `persist_lines.dfy`;
- `flatten`, the nested-key flattener: `flatten.dfy`.

Every failure of the code (a failed `assert`, a `KeyError`, a raised
`Exception`) aborts the run, so the model has one `Error` outcome
(`outcomes.dfy`). Cassandra writes are an insert log, and JSON-Schema
validation is a parameter `valid: (Schema, Record) -> bool`.
A run returns `Outcome(result, inserted)`: the checkpoint (`Null` standing
for Python's None) or `Error`, together with the rows already written,
because rows inserted before a failure stay written.

Behaviour of the code as written that the model keeps:

- a list-valued `type` loses its `"null"` members; anything but exactly one
  survivor fails, and an unmapped survivor (`array`, `object`, any unknown
  name) silently produces no column, even for a key property;
- a string `type` that is not mapped (`array`, `null`, `object`, any other
  name) fails;
- a property without `type` or with a null one, including one that only has `anyOf`, and one
  whose `type` is neither a string nor a list, produces no column;
- a SCHEMA message never clears the pending checkpoint; only a written
  record does;
- `flatten` (`FlattenDefault` with its default arguments) treats an empty parent key as "no parent", and an empty nested
  mapping contributes nothing.

## Model

| member | source | states |
|---|---|---|
| TypeTable.ColumnClass | target_cassandra/__init__.py:29-36 | `string`, `boolean`, `integer`, `number` map to Text, Boolean, Integer, Float; every other name, including `array`, `null` and the absent `object`, maps to no class |
| SchemaTranslation.WithoutNull | target_cassandra/__init__.py:51 | the filtered list holds every member of the `type` list except `"null"`, each as often as before, and its length drops by the number of `"null"`s |
| SchemaTranslation.TranslateProperty | target_cassandra/__init__.py:47-75 | a produced column's key flag is membership of the property name in `key_properties`; only a string or list `type` produces a column; a string `type` succeeds exactly when it is mapped, and then yields a column of its mapped class; an absent or null `type` (with or without `anyOf`) and a `type` of any other kind are skipped without failing |
| SchemaTranslation.ProcessSchema | target_cassandra/__init__.py:44-78 | translation succeeds iff `properties` is present and every property translates; every column name is a property name; a column's key flag holds iff its name is a key property; a property with no or a null `type` (including an `anyOf`-only one) gets no column; a property with a string `type` gets a column of that type's class, keyed iff it is a key property |
| SchemaTranslation.ProcessSchemaColumns | target_cassandra/__init__.py:49-70 | after a successful translation, a property whose `type` list has one non-null member t has a column of t's class whose key flag is set iff it is a key property when t is mapped (so a supported key property becomes a primary-key column), and no column when t is unmapped |
| SchemaTranslation.UntypedPropertyIsSkipped | target_cassandra/__init__.py:47-75 | a property with no or a null `type`, including one with only `anyOf`, or with a `type` that is neither a string nor a list, is skipped: removing it from `properties` changes neither whether translation fails nor the model |
| SchemaTranslation.UnionWithOneSurvivor | target_cassandra/__init__.py:49-70 | a `type` list of one non-null name plus any `"null"`s translates exactly like that name given as a string when the name is mapped, and to no column when it is not |
| SchemaTranslation.UnionWithoutOneSurvivorFails | target_cassandra/__init__.py:49-52 | a `type` list whose non-null members number zero or more than one fails |
| SchemaTranslation.UnmappedTypeDependsOnForm | target_cassandra/__init__.py:54-67 | an unmapped name other than `"null"` is silently dropped as the one list survivor, whatever the key properties are, and fails as a plain string |
| Flattening.Flatten | target_cassandra/__init__.py:89-97 | `flatten(d, parent_key, sep)`: no value of the result is a mapping or a list; every non-mapping entry leaves the key `parent + sep + key` (its own key when the parent is empty); below a non-empty parent every key starts with `parent + sep`; entry by entry it is described by `FlattenAppend`, `FlattenLeafEntry` and `FlattenNestedEntry` |
| Flattening.FlattenDefault | target_cassandra/__init__.py:89 | `flatten(d)` with its default arguments (empty parent, separator `__`): every top-level non-mapping entry keeps its own key, and the result is flat |
| Flattening.FlattenAppend | target_cassandra/__init__.py:89-97 | flattening a mapping with one more entry adds exactly that entry's contribution, overriding earlier keys, as building `items` and then `dict(items)` does |
| Flattening.FlattenLeafEntry | target_cassandra/__init__.py:92-96 | a non-mapping entry is stored under its own key at the top level and under `parent + sep + key` below it, a list as its string form and any other value unchanged |
| Flattening.FlattenNestedEntry | target_cassandra/__init__.py:92-94 | a nested mapping entry contributes its own flattening with the entry's new key as parent; an empty nested mapping contributes nothing |
| StreamProcessor.Step | target_cassandra/__init__.py:112-173 | one pass of the loop: written rows are never undone and at most one is added, only by a RECORD; only a SCHEMA changes per-stream state; only a STATE or a RECORD changes the checkpoint; a RECORD for an undeclared stream and an always-malformed message fail; `RecordStep`, `StateStep`, `SchemaStep` and `ActivateVersionIsNoOp` pin each case |
| StreamProcessor.Process | target_cassandra/__init__.py:112-173 | the loop from a given state, stopping at the first failure: earlier rows are kept, each message writes at most one row, none is written without a RECORD, and only a non-empty sequence can fail |
| StreamProcessor.PersistLines | target_cassandra/__init__.py:100-175 | `persist_lines`: no messages return None with nothing written; at most one row per message is written, none without a RECORD; the returned checkpoint is described by `CheckpointIsLastPendingState` and failures by `FatalMessageStopsRun` and `UndeclaredRecordFails` |
| StreamProcessor.StateStep | target_cassandra/__init__.py:147-149 | a STATE with a `value` sets the pending checkpoint to that value and changes nothing else (streams and written rows stay); one without a `value` fails |
| StreamProcessor.RecordStep | target_cassandra/__init__.py:124-146 | a RECORD for a declared stream is written iff it validates and has every defined column of the stream's current schema; the row then has exactly those columns with values copied from the record, the checkpoint is cleared and nothing else changes |
| StreamProcessor.SchemaStep | target_cassandra/__init__.py:150-167 | a SCHEMA with `stream`, `schema` and `key_properties` succeeds iff its schema translates; it then replaces only that stream's entry, storing the schema, the key properties, the model translated from them and that model's column names, and leaves the checkpoint and the written rows alone |
| StreamProcessor.RunConsistent | target_cassandra/__init__.py:155-167 | in every state a run reaches, each stream's model and defined column names are those its stored schema and key properties translate to |
| StreamProcessor.ProcessAppend | target_cassandra/__init__.py:112-173 | messages are processed strictly in order: a run over two concatenated parts is the run over the first part followed, unless it failed, by the run over the second |
| StreamProcessor.FatalMessageStopsRun | target_cassandra/__init__.py:113-173 | a line that does not parse, has no or an unknown `type`, a RECORD without `stream` or `record`, a STATE without `value`, or a SCHEMA without `stream`, `schema` or `key_properties` fails the run, and nothing after it is written |
| StreamProcessor.UndeclaredRecordFails | target_cassandra/__init__.py:124-130 | a RECORD for a stream no earlier SCHEMA declared fails the run, and no row is ever written for that stream |
| StreamProcessor.ActivateVersionIsNoOp | target_cassandra/__init__.py:169-170 | removing an ACTIVATE_VERSION message changes neither the result nor the written rows |
| StreamProcessor.StateOverwrites | target_cassandra/__init__.py:147-149 | a STATE immediately followed by another STATE has no effect on the run |
| StreamProcessor.SchemaSupersedes | target_cassandra/__init__.py:150-167 | once a SCHEMA for a stream has translated, a following SCHEMA for the same stream fully replaces it: the run is as if only the second had been sent |
| StreamProcessor.CheckpointIsLastPendingState | target_cassandra/__init__.py:101-175 | a run that returns normally returns the value of the last STATE if no RECORD follows it, and None otherwise, including when there was no STATE |

## Left out

- Cassandra I/O: `connection.setup`, `sync_table`, `Model.create` and the
  class built with `type(...)`. A model is a map from column name to
  (column class, key flag) and a write is an entry of the insert log, so
  storage failures and the checks the driver makes when the model class is
  built (for example that a model has a primary key) are not modelled.
- `Draft4Validator`: validation is the parameter `valid`; the schema keeps
  all keywords the translation does not read in `keywords` fields for it,
  an absent `type` apart from a null one, and `anyOf` as its raw JSON value.
- `json.loads` and line reading: messages arrive parsed; a line that does
  not parse is the message `UnparseableLine`, which fails.
- `emit_state`, `main` and configuration loading, the unused `now`,
  `headers` and `key_properties` dictionary, and the empty
  `create_model_from_schema`; `setup.py` is packaging only.
- Python's `str(list)` formatting inside `flatten`: the parameter `str`.
- Float column semantics and JSON floats: only the column class tag is
  kept, and JSON numbers are integers in the model.
- Members of a list-valued `type` are strings in the model; a non-string
  member (which the code would look up in the table or fail to hash) is not
  modelled.
- Stream names are strings. The code keys its per-stream dictionaries by any
  hashable JSON value, so `null`, numbers and booleans also name streams
  there (and `true` and `1` name the same one); that is not modelled.
- A `properties` value, property definition or `record` that is not a JSON
  object cannot be expressed; the code fails on each with AttributeError
  or TypeError when it reads it.
- `key_properties` is a list of strings. The code also accepts other JSON
  values there: a string makes `in` a substring test (property `i` becomes
  a key for `"id"`), an object makes it a test of the object's keys, and a
  number or `null` makes it raise TypeError; none of these is modelled.
- A SCHEMA message's `schema` is a JSON object with or without
  `properties`; a `schema` that is not an object, on which the code fails
  when it reads `schema['properties']`, cannot be expressed.
- The `Draft4Validator(o['schema'])` constructor, a foreign call made for
  every SCHEMA message, is taken never to fail; a failure of it (for
  example while resolving the schema's `id`) is not modelled, so a SCHEMA
  whose fields are present succeeds exactly when its schema translates.
- Logging (the parse-error, state and ACTIVATE_VERSION debug messages) has
  no effect on the outcome and is dropped.
- `flatten` follows Python before 3.10: from 3.10 on,
  `collections.MutableMapping` no longer exists and the code raises
  AttributeError for every non-empty mapping; the model returns the
  flattened mapping.
- Entries of a nested JSON mapping are an ordered list; the model gives a
  list with repeated keys (which `json.loads` never produces) the meaning of
  processing every entry in order.
