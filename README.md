# instructor: schema adapter and file-manager rules, in Dafny

This project models the two small pieces of logic of the `instructor`
repository:

- **The schema adapter** (`openai_function_call/function_calls.py`). It covers
  `_remove_a_key`, the recursive deletion of one key from every dict reachable
  through dict values. It covers the derivation of the function-calling schema
  of a typed function (`openai_function.__init__`) and of a typed model class
  (`OpenAISchema.openai_schema`). It covers the strict check both
  `from_response` methods make before using the call's arguments. It covers the
  name, docstring and single `tasks` field that `MultiTask` gives the wrapper
  class it creates.
- **The file-manager CLI** (`instructor/cli/files.py`). It covers `get_files`
  (a stable newest-first sort and a Python slice), the polling loops of
  `upload` and `status`, and `delete`, which swallows errors.

JSON is the tagged datatype `Json.Json` (object / array / string / number /
bool / null). The schema the validation library generates is an input value.
The remote file service is replaced by what it answers: the records the list
call returns, the successive outcomes of the status query (a status, or the
exception the call raised), and the outcome of create and of delete. `time.sleep`,
console lines and updates of the live status line become `Files.Event` values.
A poll loop that uses up the supplied answers without stopping ends in
`Files.Run.Polling`: the real loop would go on querying. `json.loads` is the
parameter `parse`.

Modules: `Wrappers` (Option, Result), `Json` (the value type, dict paths),
`KeyRemoval` (`_remove_a_key`), `TextOrder` (Python's `str` ordering and
`sorted` over dict keys), `FunctionCalls` (the rest of the adapter), `Files`
(the CLI).

Details of the source the model keeps:

- `MultiTask`'s default description is ``Correct segmentation of `T` tasks``,
  with the task name in backticks.
- `OpenAISchema.openai_schema` takes its name from the generated schema's
  `title`.
- `status` stops on `"pending"` as well as on `"processed"`, while `upload`
  stops only on `"processed"`.
- `upload` has no terminal error status: it keeps polling for as long as no
  `"processed"` arrives.
- Defaults: both `from_response` methods check strictly unless told not to
  (`FunctionCalls.FunctionCallArguments` and `FunctionCalls.ClassCallArguments`
  take `strict := true`), `get_files` lists 5 records (`Files.GetFiles` takes
  `limit := 5`), and `upload` polls every 5 seconds (`Files.Upload` takes
  `poll := 5`). `list` also defaults to 5 records; it is `get_files`
  followed by rendering, which is not modelled.
- A `properties` entry that is not a dict has no `.items`, so
  `openai_function.__init__` fails with an `AttributeError`.

## Model

| member | source | states |
|---|---|---|
| `KeyRemoval.Scrubbed` | openai_function_call/function_calls.py:29-36 | the tree `_remove_a_key` leaves: anything but a dict comes back as it was; a dict stays a dict and no longer holds `k` |
| `KeyRemoval.RemoveAKey` | openai_function_call/function_calls.py:29-36 | the loop over a snapshot of the keys, deleting the match and recursing into every other value in any order, yields exactly `Scrubbed(d, k)` |
| `KeyRemoval.ScrubbedShape` | openai_function_call/function_calls.py:31-34 | a non-dict comes back unchanged; a dict keeps exactly its keys other than `k` |
| `KeyRemoval.ScrubbedEntry` | openai_function_call/function_calls.py:35-36 | a kept entry holds its old value, itself scrubbed |
| `KeyRemoval.ScrubbedRemovesKey` | openai_function_call/function_calls.py:29-36 | after the walk no dict reachable through dict values holds `k` |
| `KeyRemoval.ScrubbedLookup` | openai_function_call/function_calls.py:29-36 | a dict path through `k` no longer exists; every other path leads to the old value, scrubbed |
| `KeyRemoval.ScrubbedFixpoint` | openai_function_call/function_calls.py:29-36 | the walk leaves a tree unchanged if and only if no reachable dict holds `k` |
| `KeyRemoval.ScrubbedIdempotent` | openai_function_call/function_calls.py:29-36 | scrubbing twice with the same key gives the tree scrubbing once gives |
| `KeyRemoval.ScrubbedCommute` | openai_function_call/function_calls.py:52-53 | scrubbing `title` then `additionalProperties` equals the other order |
| `KeyRemoval.ScrubbedKeepsNoKey` | openai_function_call/function_calls.py:52-53 | scrubbing one key never brings back a key already gone |
| `KeyRemoval.ListsAreNotEntered` | openai_function_call/function_calls.py:31 | a list under a kept key comes back untouched, dicts inside it included |
| `KeyRemoval.KeyInsideListSurvives` | openai_function_call/function_calls.py:31 | witness: a `k` in a dict inside a list is still there after the walk |
| `Json.NoKeyNoPath` | openai_function_call/function_calls.py:29-36 | a tree with no `k` in any reachable dict has no dict holding `k` at the end of any key path |
| `TextOrder.Least` | openai_function_call/function_calls.py:49-51 | the chosen string is in the set and below every other member in Python's `str` order |
| `TextOrder.SortedKeys` | openai_function_call/function_calls.py:49-51 | `sorted` of dict keys: strictly ascending, exactly the keys, each once |
| `TextOrder.AscendingListingUnique` | openai_function_call/function_calls.py:91 | two strictly ascending lists over the same strings are equal, so the sorted key list is determined |
| `FunctionCalls.SortedKeysListed` | openai_function_call/function_calls.py:49-51 | the `required` array is the names as JSON strings, strictly ascending, each name listed |
| `FunctionCalls.DeriveFunctionSchema` | openai_function_call/function_calls.py:40-58 | `__init__` step by step (overwrite `properties`, then `required`, then scrub twice) yields `FunctionSchema(f)`, errors included |
| `FunctionCalls.FunctionSchema` | openai_function_call/function_calls.py:40-58 | `openai_schema` of a function, or the exception `__init__` raises: it fails exactly when `properties` is missing (`KeyError`) or not a dict (`AttributeError` on `.items`) |
| `FunctionCalls.FunctionSchemaEnvelope` | openai_function_call/function_calls.py:54-58 | the schema has exactly `name` (the function's name), `description` (its docstring or null) and `parameters` |
| `FunctionCalls.FunctionSchemaParameterKeys` | openai_function_call/function_calls.py:43-53 | the parameters hold exactly the generated schema's top-level keys plus `required`, minus `title` and `additionalProperties`: nothing new appears |
| `FunctionCalls.FunctionSchemaScrubbed` | openai_function_call/function_calls.py:52-53 | no dict in the parameters holds `title` or `additionalProperties` |
| `FunctionCalls.FunctionSchemaProperties` | openai_function_call/function_calls.py:44-48 | the properties are the input's minus `v__duplicate_kwargs`, `args`, `kwargs`, `title` and `additionalProperties`, each value scrubbed of both keys |
| `FunctionCalls.FunctionSchemaRequired` | openai_function_call/function_calls.py:49-51 | `required` lists every non-bookkeeping property name, strictly ascending, the scrubbed names included |
| `FunctionCalls.FunctionSchemaOtherEntries` | openai_function_call/function_calls.py:43-53 | every other top-level entry of the generated schema survives, scrubbed |
| `FunctionCalls.ScrubbedParameterStaysRequired` | openai_function_call/function_calls.py:49-53 | a parameter named `title` or `additionalProperties` disappears from `properties` but is still listed in `required` |
| `FunctionCalls.ModelSchema` | openai_function_call/function_calls.py:84-97 | `OpenAISchema.openai_schema`: fails on a missing `properties`, then on a missing `title`, then on a missing `description`, in that order, and succeeds exactly when all three are there and `properties` is a dict |
| `FunctionCalls.ModelSchemaEnvelope` | openai_function_call/function_calls.py:93-97 | the name is the schema's `title`, the description its `description` |
| `FunctionCalls.ModelSchemaParameterKeys` | openai_function_call/function_calls.py:88-92 | the parameters hold exactly the schema's keys plus `required`, minus `title` and `description` |
| `FunctionCalls.ModelSchemaScrubbed` | openai_function_call/function_calls.py:88-92 | the parameters have no top-level `description` and no `title` in any reachable dict |
| `FunctionCalls.ModelSchemaProperties` | openai_function_call/function_calls.py:88-92 | the properties are all of the schema's except one named `title`, each title-scrubbed |
| `FunctionCalls.ModelSchemaRequired` | openai_function_call/function_calls.py:91 | `required` lists every property name, strictly ascending |
| `FunctionCalls.ModelSchemaOtherEntries` | openai_function_call/function_calls.py:88-92 | every other entry, `additionalProperties` included, survives title-scrubbed |
| `FunctionCalls.CallArguments` | openai_function_call/function_calls.py:68-80 | the shared body of both `from_response` methods: no choices raise `IndexError`; an assertion fails only in strict mode; a success is the object the first choice's arguments parse to |
| `FunctionCalls.FunctionCallArguments` | openai_function_call/function_calls.py:68-80 | `openai_function.from_response`, strict by default, checks against the name in the function's derived schema |
| `FunctionCalls.SchemaName` | openai_function_call/function_calls.py:103-107 | `cls.openai_schema["name"]`: the schema's `title` when the class schema can be computed, otherwise the exception computing it raised |
| `FunctionCalls.ClassCallArguments` | openai_function_call/function_calls.py:100-111 | `OpenAISchema.from_response`, strict by default, checks against the schema's `title`; in strict mode a class schema that cannot be computed makes a call fail with that exception |
| `FunctionCalls.FunctionNameIsSchemaName` | openai_function_call/function_calls.py:54-55 | the name `openai_function.from_response` checks is the one in the derived schema |
| `FunctionCalls.StrictRejectsMissingCall` | openai_function_call/function_calls.py:72-73 | with no function call, strict raises "No function call detected"; non-strict raises `KeyError('function_call')` |
| `FunctionCalls.StrictRejectsOtherName` | openai_function_call/function_calls.py:74-76 | a call under another name fails strict checking with "Function name does not match" |
| `FunctionCalls.LaxIgnoresName` | openai_function_call/function_calls.py:72-80 | without strict checking the expected name is never consulted and no assertion fails |
| `FunctionCalls.ClassStrictNeedsSchema` | openai_function_call/function_calls.py:103-107 | strict checking of a class computes its schema first, so a schema without `description` raises that `KeyError` |
| `FunctionCalls.StrictAgreesOnMatch` | openai_function_call/function_calls.py:72-80 | when the call carries the expected name, strict and non-strict give the same result |
| `FunctionCalls.CallArgumentsSucceed` | openai_function_call/function_calls.py:68-80 | success exactly when a first choice carries a call (under the right name, if strict) whose arguments parse to an object; the result is that object's entries |
| `FunctionCalls.MultiTask` | openai_function_call/function_calls.py:114-152 | the wrapper class is named `Multi` followed by the task name and has one field, a list of the subtask class |
| `FunctionCalls.MultiTaskShape` | openai_function_call/function_calls.py:131-150 | the name is `Multi` followed by the given name or else the class name; the docstring is the given description or else ``Correct segmentation of `T` tasks``; the one field `tasks` holds the subtask class, defaults to `[]`, is hidden from `repr` and is described as ``Correctly segmented list of `T` tasks`` |
| `FunctionCalls.MultiTaskNameInjective` | openai_function_call/function_calls.py:131-133 | two wrapper classes share a name exactly when their task names agree |
| `FunctionCalls.MultiTaskCallAccepted` | openai_function_call/function_calls.py:100-111 | a call naming the wrapper class passes the strict check when the schema's title is that name |
| `Files.CreatedAt` | instructor/cli/files.py:39 | the records created at one time, in their order: exactly the records of the input with that `created_at` |
| `Files.InsertNewest` | instructor/cli/files.py:39 | one step of the stable newest-first sort: the result is one longer and holds exactly the records of the input and the inserted one |
| `Files.SortNewestFirst` | instructor/cli/files.py:39 | `sorted(files, key=created_at, reverse=True)` keeps the number of records (its order, permutation and stability are `Files.SortNewestFirstFacts`) |
| `Files.GetFiles` | instructor/cli/files.py:37-40 | `get_files(limit=5)`: a front part of the newest-first listing, all of it when `limit` covers the listing |
| `Files.TakePrefix` | instructor/cli/files.py:40 | `s[:limit]` is a prefix with `min(limit, n)` items, or all but the last `-limit` when `limit` is negative |
| `Files.SortNewestFirstFacts` | instructor/cli/files.py:39 | the sort is non-increasing in `created_at`, a permutation, and keeps records created at the same time in input order |
| `Files.GetFilesCountAndOrder` | instructor/cli/files.py:37-40 | `get_files` returns `min(limit, n)` records for `limit >= 0`, newest first, all of them fetched ones |
| `Files.GetFilesKeepsNewest` | instructor/cli/files.py:38-40 | no record left out is newer than one returned |
| `Files.GetFilesKeepsTieOrder` | instructor/cli/files.py:39-40 | for each creation time, the records returned are a prefix of those fetched, in fetched order |
| `Files.FirstStop` | instructor/cli/files.py:61-66 | the number of answers before the first stopping one: every earlier answer is a status that does not stop the loop |
| `Files.FirstStopAppend` | instructor/cli/files.py:61-66 | a loop that stopped ignores later answers; one still polling continues into what follows |
| `Files.NoStopKeepsPolling` | instructor/cli/files.py:61-66 | answers that never say `"processed"` keep the loop polling through all of them |
| `Files.Upload` | instructor/cli/files.py:51-66 | the upload loop queries until the first `"processed"` (queries = its index + 1), sleeps `poll` (5 unless given) only after other statuses, then logs success; it raises what create or a query raised, and is still polling when no `"processed"` came |
| `Files.Status` | instructor/cli/files.py:99-108 | the status loop stops at the first `"pending"` or `"processed"`, sleeps 5 after each other status, and the live line shows the most recently fetched status |
| `Files.Delete` | instructor/cli/files.py:86-93 | `delete` returns normally whatever the remote call did; success is logged exactly when the deletion went through, otherwise the error is logged |

## Left out

- The validation library: `validate_arguments`, `.schema()`, `create_model` and `Field`. Generated schemas are inputs. A successful `from_response` yields the keyword arguments that would go to the validating callable or class; the validation itself is not modelled.
- The `__call__` wrapper of `openai_function`: it only delegates to the validating callable.
- `json.loads`: the parameter `parse`, an abstract parser that may fail.
- KeyRemoval.RemoveAKey: works on values. It does not capture that the source mutates dicts in place, nor what happens when sub-dicts are shared. One sharing effect is not modelled: the validation library caches the schema it hands out, so a later derivation can see an earlier scrub.
- Dicts are maps, so the key order of the output is not modelled; numbers are integers only.
- FunctionCalls.ModelSchema: a `properties` entry that is not a dict is reported as a `TypeError`. Python's `sorted` would accept any iterable of strings there. Generated schemas always hold a dict, so this case does not arise from the library.
- The fields `func`, `validate_func` and `model` of an `openai_function` object: the object is represented by its `FunctionDef` and its derived schema.
- A function call without `name` or `arguments` entries: `FunctionCall` always carries both.
- Files.Upload: intervals are `nat`, so a negative `--poll` (on which `time.sleep` raises `ValueError`) is not modelled. The spinner text of the live status is not modelled either.
- `download`: a byte copy from the remote service to a local file, which is I/O only.
- `generate_file_table` and the table printed by `list`: terminal rendering that depends on the local time zone. `list` is `get_files` followed by that rendering.
- Failures of the list call and of reading `status` out of a record: they propagate unchanged. For `status` and `upload` they are folded into `Files.Retrieval.RemoteFailure`.
- `examples/knowledge-graph/run.py` is not part of this model. It is an API call plus graph rendering.
- Strings are sequences of Unicode scalar values, so Python strings holding lone surrogates are not represented.
