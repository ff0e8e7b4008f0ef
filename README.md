# Agent state reducers and the reasoning printer, in Dafny

This project models `src/graph/state.py` of an LLM multi-agent trading
pipeline. The file holds three small pieces:

- **Shared agent state.** `AgentState` is a typed dictionary with three fields,
  each tagged with the reducer that the graph engine uses to combine partial
  updates. `messages` is combined by `operator.add` (sequence concatenation).
  `data` and `metadata` are combined by `merge_dicts`, a right-biased shallow
  map union `{**a, **b}`. Module `AgentStateModel` (`agent_state.dfy`) gives
  the reducers and a field-by-field `Combine`. It proves their laws: key-set
  union and last writer wins, associativity, identity, idempotence of the maps,
  non-commutativity, and length and order of the message concatenation.
- **JSON encoder fallback.** `CustomJSONEncoder.default` replaces a value that
  JSON cannot serialise. It prefers `to_dict()`, then `__dict__`, then `str(o)`.
  Module `JsonFallback` (`json_fallback.dfy`) records what an object offers as
  explicit optional fields instead of `hasattr` probing. It proves that the
  encoder takes the first replacement on offer in that order.
- **`show_agent_reasoning`.** This prints a header, the agent's output, and a
  footer. Module `ReasoningPrinter` (`reasoning_printer.dfy`) is a pure function.
  It returns the strings handed to `print`, in order, and either a normal return
  or the exception that escapes. `json.loads`, `json.dumps` and `str` are
  parameters. `json.loads` and `json.dumps` may return any value or raise any
  exception; `str` returns any text and does not raise. Module `PyText`
  (`py_text.dfy`) models the two string builtins the header uses: `'=' * n` and
  `str.center`.

Python dicts become Dafny `map<string, V>` values. They are immutable, so
"`merge_dicts` builds a new dict and does not change its inputs" holds by
construction. Message objects and dict values are type parameters.

The printer does not swallow every failure. Only `json.JSONDecodeError` and
`TypeError` are named in the `except` clause (src/graph/state.py:46). A
`ValueError` from `json.dumps` on a circular reference escapes after the header
has been printed, with no footer. A non-`str` agent name fails at `.center`
before anything is printed. The printer can therefore raise, and the model
says when (`ReturnsIff`, `UncaughtFailureEscapes`, `CircularReferenceEscapes`).

The header is printed as `"\n" + header`: `print` receives a leading newline
(src/graph/state.py:36), and the model keeps it. `str.center` is modelled as
CPython implements it. The left margin is half the free width, and it is rounded
up only when both the free width and the target width are odd. The lemmas about
the header state only its width, the `=` frame and where the unchanged name sits.

## Model

| member | source | states |
|---|---|---|
| `AgentStateModel.MergeDicts` | src/graph/state.py:6-8 | the result has exactly the keys of both maps; a key of `b` maps to `b`'s value; a key only in `a` keeps `a`'s value |
| `AgentStateModel.MergeAssociative` | src/graph/state.py:6-8 | `merge_dicts` is associative |
| `AgentStateModel.MergeLeftIdentity` | src/graph/state.py:6-8 | `{}` is a left identity |
| `AgentStateModel.MergeRightIdentity` | src/graph/state.py:6-8 | `{}` is a right identity |
| `AgentStateModel.MergeIdempotent` | src/graph/state.py:6-8 | `merge_dicts(a, a) == a` |
| `AgentStateModel.MergeAbsorbsRepeat` | src/graph/state.py:6-8 | merging the same update twice equals merging it once |
| `AgentStateModel.MergeCommutesIff` | src/graph/state.py:6-8 | the two argument orders give the same map if and only if the maps agree on every shared key |
| `AgentStateModel.MergeNotCommutative` | src/graph/state.py:6-8 | `{x:1}` then `{x:2}` gives `{x:2}`; the reverse gives `{x:1}` |
| `AgentStateModel.AppendMessages` | src/graph/state.py:13 | `operator.add` on messages: length is the sum; the first sequence and then the second, element for element |
| `AgentStateModel.AppendAssociative` | src/graph/state.py:13 | message concatenation is associative |
| `AgentStateModel.AppendKeepsDuplicates` | src/graph/state.py:13 | no deduplication: a sequence appended to itself doubles in length and is unchanged only when empty |
| `AgentStateModel.Combine` | src/graph/state.py:11-15 | messages are the old ones as prefix and the new ones as suffix; `data` and `metadata` each have the union of keys with the second state's value winning |
| `AgentStateModel.CombineAssociative` | src/graph/state.py:13-15 | combining states is associative |
| `AgentStateModel.CombineIdentity` | src/graph/state.py:13-15 | the empty state is a two-sided identity |
| `AgentStateModel.CombineIdempotentIff` | src/graph/state.py:13-15 | self-combination keeps both maps; the whole state is unchanged if and only if it has no messages |
| `AgentStateModel.CombineFieldsIndependent` | src/graph/state.py:13-15 | each combined field depends only on the same field of the two inputs |
| `JsonFallback.Candidates` | src/graph/state.py:21-26 | the replacements an object offers, exactly one per available capability, in preference order: `to_dict()` first if present, `__dict__` next if present, `str(o)` always and only last |
| `JsonFallback.Default` | src/graph/state.py:21-26 | `to_dict()` is used if and only if present; `__dict__` if and only if `to_dict` is absent and `__dict__` present; `str(o)` if and only if both are absent; each with the object's own payload |
| `JsonFallback.DefaultIsFirstCandidate` | src/graph/state.py:22-26 | `default` picks the first replacement in preference order |
| `JsonFallback.ToDictBeatsAttrs` | src/graph/state.py:22-23 | `to_dict` wins even when `__dict__` is also present |
| `PyText.Repeat` | src/graph/state.py:36 | `c * n` has length `n` and every character is `c` |
| `PyText.Center` | src/graph/state.py:36 | `str.center`: width is the larger of the target and the string's length; the string sits unchanged at the left margin; all other characters are spaces; a string at least as wide is returned unchanged |
| `PyText.CenterBalanced` | src/graph/state.py:36 | the two paddings differ by at most one space |
| `ReasoningPrinter.Header` | src/graph/state.py:36 | the header is `22 + max(28, len(name))` long: ten `=` and a space, the centred name, a space and ten `=` |
| `ReasoningPrinter.Footer` | src/graph/state.py:51 | the footer is exactly 48 `=` |
| `ReasoningPrinter.Body` | src/graph/state.py:38-49 | per stage: a failure of `json.loads` prints the original value raw if caught and escapes otherwise; a failure of `json.dumps` prints the rebound value raw if caught and escapes otherwise; a successful dump is the body; only uncaught failures escape |
| `ReasoningPrinter.ShowAgentReasoning` | src/graph/state.py:28-51 | on return, exactly three prints: header, one body, footer; on an escaping exception, the failure is uncaught, at most the header was printed and the footer never; a non-`str` name raises `AttributeError` with nothing printed |
| `ReasoningPrinter.HeaderShortName` | src/graph/state.py:36 | a name of at most 28 characters gives a 50-character header holding the name unchanged, framed by `=` runs |
| `ReasoningPrinter.HeaderLongName` | src/graph/state.py:36 | a longer name is not truncated: header is ten `=`, space, the name, space, ten `=` |
| `ReasoningPrinter.ParsedStringIsPrettyPrinted` | src/graph/state.py:39-44 | a string that parses is printed as the dump of the parsed value |
| `ReasoningPrinter.NonStringIsPrettyPrinted` | src/graph/state.py:43-44 | a non-string value is printed as its dump |
| `ReasoningPrinter.CaughtLoadFailurePrintsOriginal` | src/graph/state.py:39-49 | a string that `json.loads` rejects with `JSONDecodeError` or `TypeError` is printed raw as the original string, then the footer |
| `ReasoningPrinter.CaughtDumpFailurePrintsBoundValue` | src/graph/state.py:41-49 | a `JSONDecodeError` or `TypeError` while dumping prints the current binding of `output` raw: the parsed value when a string was parsed |
| `ReasoningPrinter.UncaughtFailureEscapes` | src/graph/state.py:38-51 | any other exception, from `json.loads` or from `json.dumps` (also after a successful parse), escapes after the header, with no body and no footer |
| `ReasoningPrinter.ReturnsIff` | src/graph/state.py:36-51 | the call returns if and only if the name is a string, any failure of `json.loads` is caught, and any failure of `json.dumps` on the bound value is caught |
| `ReasoningPrinter.CircularReferenceEscapes` | src/graph/state.py:44-46 | for every non-string value whose dump raises `ValueError`, the printer raises that `ValueError` after the header |

## Left out

- Writing to standard output is not modelled. The printed strings are returned as a sequence, one per `print` call.
- Real JSON parsing and serialisation (`json.loads`, `json.dumps` with `indent=2`) are not modelled. They are parameters: `json.loads` returns any value, `json.dumps` any text, and either may raise any exception. So the encoder's replacements are not connected to the text that `json.dumps` produces.
- Python's `hasattr` introspection and the contents of `to_dict()`, `__dict__` and `str(o)` are opaque payloads. A `to_dict` attribute that is not callable, or whose call raises, is not modelled.
- `print(output)` in the fallback branch is assumed to succeed. An object whose `__str__` raises is not modelled.
- A non-`str` agent name is modelled as one without `.center`, which raises `AttributeError`. An object that has its own `center` method is not modelled.
- The key order of `{**a, **b}` is not modelled: `a`'s keys keep their place even when overwritten, then `b`'s new keys follow. Dafny maps have no order, so the order in which `json.dumps` later prints `data` is not captured.
- Exception classes are a fixed list (`JSONDecodeError`, `TypeError`, `ValueError`, `RecursionError`, `AttributeError`, and one case for every other class); subclassing is not modelled.
- AppendMessages: both operands are taken to be the same concrete sequence type. `messages` is typed `Sequence[BaseMessage]`, and `operator.add` of a list and a tuple raises `TypeError`; that mixed-type error path is not modelled.
- Strings are sequences of Unicode scalar values. Python strings holding lone surrogates (for example after `surrogateescape` decoding) are not modelled.
- `BaseMessage` internals are not modelled; messages are an opaque type parameter.
- How the graph engine reads the reducer annotations and folds updates, including any concurrent application, is not part of this file.
