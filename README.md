# passpie importers, modelled in Dafny

passpie imports credentials from files written in other tools' formats. Its
importer subsystem has three parts, and this project models each of them:

- the **importer protocol**: every importer has `match(path)`, a probe that
  never raises, and `handle(path)`, which extracts the credentials; a shared
  `log` writes debug messages;
- the **default importer**, which recognises passpie's own YAML export (a
  mapping with `handler: passpie` and a float `version`) and returns
  whatever value is stored under `credentials`, unchanged;
- the **registry and resolver**: `get_instances` makes one instance of each
  importer class that `get_all` reports, and `find_importer(path)` returns the
  first instance, in registry order, whose `match` accepts the path.

The behaviour modelled is the one `tests/test_importers.py` asserts of
`passpie.importers` and `passpie.importers.default_importer`. Where those
tests are silent, the model's own choices are listed under "Modelling
choices" below.

Files:

- `wrappers.dfy`: `Option` and `Result`.
- `yaml.dfy`: the values a YAML load produces, and `LoadOutcome`, the result
  of "read the file, then YAML-load it" (`ReadFailed`, `ScanFailed` or
  `Loaded(doc)`). `ScanFailed` stands for any exception `yaml.load` raises.
- `default_importer.dfy`: `Match` and `Handle` as functions of the load
  outcome, the marker format (`Tagged`, `Exported`) and the lemmas about them.
- `importers.dfy`: the resolver (`FirstMatch`, and `FindImporter`, the
  scanning loop proved equal to it), the registry (`GetInstances`) and the
  debug log (`DebugSink`, `Log`).

Modelling choices:

- Importers are polymorphic objects in the source. Here the instance type is a
  type parameter `I`, and `matches(i, path)` stands for `i.match(path)`. The
  resolver returns the position of the winning instance in the instance
  sequence, so the result is that very instance, not a copy of it.
- A `match` or `handle` call reads and parses the file. The model takes the
  outcome of that read and parse as its input. A `handle` that follows a
  `match` on the same path is assumed to see the same outcome.
- A loaded document that is not a mapping does not match, because `match`
  never raises. `handle` on such a document reports `NotAMapping`.
- If `credentials` is absent, `handle` returns `Ok(None)`, as Python's
  `dict.get` gives None. No test covers this case. A `credentials` key
  holding YAML `null` gives `Ok(Some(Null))`; Python returns None for both,
  so both model results stand for that same None. The "present or not"
  distinction in `HandleAfterMatch` is therefore one of the model, not one
  the program's caller can observe.
- If nothing matches, `find_importer` returns `None`. No test covers this
  case, and no exception is modelled.

## Model

| member | source | states |
|---|---|---|
| `DefaultImporter.Match` | tests/test_importers.py:26-97 | `match(path)` as a function of the load outcome: true for a loaded mapping whose `handler` is "passpie" and whose `version` is a float, false otherwise. Its contract states that a positive `match` guarantees `handle` on the same outcome succeeds; `MatchIffTagged` and the `MatchNeeds…` lemmas specify it fully |
| `DefaultImporter.Handle` | tests/test_importers.py:79-87 | `handle(path)` as a function of the load outcome: the value under `credentials`, unchanged, or an error. Its contract states that it succeeds exactly when a mapping was loaded; `HandleReturnsStored` and `ExportRoundTrip` specify the value |
| `DefaultImporter.MatchIffTagged` | tests/test_importers.py:26-76 | `match` accepts exactly the documents that are some mapping with passpie's marker written over it: `handler` equal to "passpie" and a float `version`. Both directions are stated. |
| `DefaultImporter.MatchFalseOnLoadFailure` | tests/test_importers.py:37-43 | a read failure makes `match` false rather than raising; so does a YAML scanner error (lines 90-97) |
| `DefaultImporter.MatchNeedsVersion` | tests/test_importers.py:46-54 | no `version` key means no match, whatever else the mapping holds |
| `DefaultImporter.MatchNeedsHandler` | tests/test_importers.py:57-65 | no `handler` key, or a handler other than "passpie", means no match |
| `DefaultImporter.MatchNeedsFloatVersion` | tests/test_importers.py:68-76 | a `version` that is not a float, such as the string "1.0", is rejected even when the handler tag is right |
| `DefaultImporter.MatchNeedsMapping` | tests/test_importers.py:90-97 | a loaded document that is not a mapping never matches. No test covers this case: `false` here is the modelling choice that `match` never raises, next to the malformed-file case these lines test |
| `DefaultImporter.TestDocuments` | tests/test_importers.py:26-97 | the exact documents and failures the tests use get the results the tests expect, including the credentials mapping whose duplicate `name` key collapses to its last entry |
| `DefaultImporter.HandleReturnsStored` | tests/test_importers.py:79-87 | `handle` returns a value exactly when the loaded mapping stores it under `credentials`, and it returns that value untransformed |
| `DefaultImporter.HandleIgnoresOtherKeys` | tests/test_importers.py:79-87 | what `handle` returns depends on no entry but `credentials` |
| `DefaultImporter.HandleAfterMatch` | tests/test_importers.py:26-87 | after `match` accepts an outcome, `handle` on it does not fail, and it returns a value exactly when `credentials` is present |
| `DefaultImporter.ExportRoundTrip` | tests/test_importers.py:26-87 | a document in passpie's export format is matched, and `handle` gives back exactly the credentials written into it |
| `Importers.FirstMatch` | tests/test_importers.py:12-23 | the result is the least position whose instance matches; every earlier instance declines; None means that no instance matches |
| `Importers.FindImporter` | tests/test_importers.py:18-23 | the ordered scan over the instances returns the first matching one with no earlier match, and equals `FirstMatch` |
| `Importers.FirstMatchUnique` | tests/test_importers.py:12-23 | when exactly one instance matches, the resolver returns that one |
| `Importers.FirstMatchNoLaterThan` | tests/test_importers.py:12-23 | whenever some instance matches, the resolver finds one that is no later than it |
| `Importers.FirstMatchAppend` | tests/test_importers.py:18-23 | importers appended to the registry never override a match found earlier, and are consulted only when nothing earlier matches (with their positions shifted) |
| `Importers.ResolverTest` | tests/test_importers.py:12-23 | the test's two importers, the first declining and the second accepting, resolve to the second |
| `Importers.GetInstances` | tests/test_importers.py:110-121 | one instance per importer class: as many instances as classes, the k-th being the k-th class's instance |
| `Importers.EachClassInstantiated` | tests/test_importers.py:117-121 | every class `get_all` reports has its instance among the instances |
| `Importers.RegistryTest` | tests/test_importers.py:110-121 | three classes give three instances, and each class's instance is among them |
| `Importers.DebugSink.Debug` | tests/test_importers.py:100-107 | the debug sink records the message once, verbatim |
| `Importers.Log` | tests/test_importers.py:100-107 | `log` forwards its message to the debug sink exactly once, verbatim, and does not fail |

## Left out

- Opening and reading files and the YAML parser: the model takes their result (`LoadOutcome`) as an input.
- YAML mappings with keys that are not strings: `Yaml.Value` has string keys only.
- Float values are represented by a `real`. Only their type matters to `match`, so IEEE rounding is irrelevant here. Non-finite floats (`.inf`, `.nan`) cannot be represented, although Python's `match` accepts `version: .inf`. Other scalars `yaml.load` can return, such as timestamps and binary data, cannot be represented either; `handle` would pass any of them through.
- Dynamic discovery behind `get_all` (subclass scanning and plugins): the class sequence is a parameter.
- `Importers.GetInstances`: does not model that each call makes fresh objects with no aliasing between calls, because instances are values here. Laziness of the generator is not modelled either.
- `Importers.FindImporter`: searches a given instance sequence. Its composition with `get_instances` is `FindImporter(GetInstances(classes, instantiate), ...)`. Building instances lazily, only up to the winner, is not modelled.
- Python's logging framework beyond the one debug-level sink that `log` writes to.
- The mock and pytest-mocker plumbing of the tests.
