# Transform step of the user ETL workflow, in Dafny

The workflow fetches a JSON array of user records from an HTTP endpoint. It
reshapes each record and shows the result as a table. Its three steps pass
data to each other through the orchestrator's key/value handoff store. This
project models the middle step, `transform_users`. It walks the users pulled
from the extract step in order. For each one it builds a flat dictionary:

- `ID`, `Name`, `Username`, `Email` and `PhoneNumber` are copied unchanged
  from `id`, `name`, `username`, `email` and `phone`.
- `Address` is the string `street + ", " + suite + ", " + city`, taken from the
  nested `address` object.
- `Company` is the nested `company.name`, not the whole company object.

A missing key, or a value indexed by a key that is not an object, raises and
fails the step. The list is handed on only after the loop, so a failing step
hands on nothing.

Files:

- `wrappers.dfy` (module `Wrappers`): `Option` and `Result`.
- `json.dfy` (module `Json`): the decoded JSON value and `At`, a lookup that
  follows a path of keys. `At` is the reference that the remapping is proved
  against.
- `final_api.dfy` (module `FinalApi`): the remapping of one record (`Remap`),
  the step as a loop (`TransformUsers`) and as a specification function
  (`Transformed`), the output dictionary (`ToRow`, `FromRow`) and the address
  string (`Join`, `Split`).

The handoff store is not modelled. The pulled list is the input of
`TransformUsers`. On success it returns `Ok` with the records, which is the
list the step pushes. On failure it returns `Err` with the index of the
failing record and the fault; nothing is pushed then, because the push after
the loop is never reached. Python's exceptions become `Fault` values:

- `KeyError(path, key)`: `key` is missing from a dictionary.
- `TypeError(path)`: a value that is not a dictionary is indexed by a key.

The third `Fault`, `NotText(path)`, is a failure of the model only: an
address component that is not a string. Python raises nothing there, since
the f-string formats such a value with `str()`.

## Model

| member | source | states |
|---|---|---|
| `FinalApi.Remap` | final_api.py:23-31 | A record is remapped exactly when every key read is present and the three address components are strings. The result then copies `id`, `name`, `username`, `email` and `phone` exactly as found. `Address` joins `address.street`, `address.suite` and `address.city` with ", ". `Company` is the value at `company.name`. All values are stated through the path lookup `At`. On failure, the fault names a real defect: a looked-up key that is missing, an indexed value that is not an object, or an address component that is not a string. |
| `FinalApi.TransformedMeaning` | final_api.py:21-31 | The step succeeds if and only if every record can be remapped. It then yields exactly one record per input, in order: record i is `Remap` of user i. Otherwise it fails at the first record that cannot be remapped, with that record's fault, and yields no records. |
| `FinalApi.TransformedEmpty` | final_api.py:21-22 | An empty user list gives an empty output list, not a failure. |
| `FinalApi.Subscript` | final_api.py:24-30 | Python's `v[key]` on a decoded value: a missing key of a dictionary is a `KeyError`, and indexing anything else is a `TypeError`. It has no contract of its own. It is pinned down by `Remap`'s `Ok? <==> Complete` ensures, stated through the path lookup `At`, and by its `Defect` ensures. |
| `FinalApi.Join` | final_api.py:28 | The `Address` f-string: street, suite and city separated by ", ". It has no contract of its own. It is pinned down by `Remap`'s `Address` ensures and inverted by `Split` (`SplitJoin`). |
| `FinalApi.Transformed` | final_api.py:21-31 | The loop written as a function: every record remapped, in order, or the failure of the first record that cannot be. It has no contract of its own. `TransformedMeaning` states what it means. |
| `FinalApi.TransformUsers` | final_api.py:19-32 | The loop starts from an empty list and appends one remapped record per user. It returns the list only if the loop runs to the end, and otherwise returns the failure of the record where it stopped. The result equals the specification `Transformed`, so by `TransformedMeaning` it has the input's length and order and fails exactly at the first record that cannot be remapped. |
| `FinalApi.ToRow` | final_api.py:23-31 | Every output dictionary has exactly seven distinct keys, `ID`, `Name`, `Username`, `Email`, `Address`, `PhoneNumber`, `Company`, in that order and no others. |
| `FinalApi.RowRoundTrip` | final_api.py:23-31 | An output dictionary reads back as the record it was built from. |
| `FinalApi.RowDetermined` | final_api.py:23-31 | Any dictionary that reads back as a record is that record's output dictionary. |
| `FinalApi.Cut` | final_api.py:28 | Splitting an address at its first ", " returns two pieces that rejoin, with ", ", into the original string, and the first piece holds no ", ". When there is no result, the string holds no ", " at all. |
| `FinalApi.Split` | final_api.py:28 | Any street, suite and city read back from an address rebuild that exact `Address` string. |
| `FinalApi.CutJoined` | final_api.py:28 | Cutting `a + ", " + b` at its first ", " gives back `a` and `b` when `a` has no comma. |
| `FinalApi.SplitJoin` | final_api.py:28 | If street and suite have no comma, the `Address` string determines all three components. |

## Left out

- Remap: on failure the contract states that the reported fault is a real defect of the record. It does not state that it is the first one in the order the dictionary literal is evaluated. The body does follow that order: `id`, `name`, `username`, `email`, `address` with street, suite and city, `phone`, `company.name`.
- Remap: `user['address']` is looked up once and shared by the three components. The source looks it up three times, but each lookup reads the same dictionary and gives the same result and the same error.
- Address components that are not strings: the source formats them with `str()`, for example turning the number 5 into `"5"`. The model treats such a component as the fault `NotText`. Python's formatting of non-string values is not modelled.
- Non-integer JSON numbers: `Json.Value` has integer numbers only. Copied fields are passed through unchanged whatever they hold, so this affects only what can be written down as input.
- A handoff payload that is not a JSON array: the input is the array the endpoint returns. If the payload were a dictionary or a string, Python would iterate over its keys or characters. If it were missing (`None`) or a scalar, Python would raise. Neither case is modelled.
- The handoff calls `xcom_pull` and `xcom_push`, with the `[0]` that picks the one task's value. These belong to the orchestrator and appear only as the method's input and its returned `Result`.
- `extract_users`: an HTTP GET plus JSON decoding, which is network I/O through a foreign library.
- `load_users`: builds a pandas DataFrame and prints it, which is a foreign library and standard output. Its `path` parameter is never used.
- The DAG declaration, the daily schedule, the start date and the task ordering. These are enforced by the orchestrator, not by this code.
