/**
 `show_agent_reasoning(output, agent_name)`: prints a header naming the
 agent, the agent's output (pretty-printed as JSON when possible, raw
 otherwise) and a footer.

 Printing is modelled as the sequence of strings handed to `print`, one per
 call, in order. The foreign calls `json.loads`, `json.dumps(..., indent=2,
 cls=CustomJSONEncoder)` and `str` are parameters: a `Json` record of total
 functions that say what each call returns or raises. Exceptions are
 explicit `Failure` values; only `json.JSONDecodeError` and `TypeError` are
 caught, any other failure escapes to the caller.
 */
module ReasoningPrinter {
  import opened PyText

  /** An exception raised by a foreign call. `OtherException` stands for
      any class that is neither `json.JSONDecodeError` nor `TypeError` nor a
      subclass of either. A plain `ValueError` is not caught, although
      `JSONDecodeError` is a subclass of it. */
  datatype Failure = JSONDecodeError | TypeError | ValueError | RecursionError | AttributeError | OtherException

  datatype Result<T> = Ok(value: T) | Err(failure: Failure)

  /** A Python value as the printer sees it: a `str`, or anything else. */
  datatype PyValue<J> = PyStr(s: string) | PyOther(v: J)

  /** The `agent_name` argument: a `str`, or a value without `.center`. */
  datatype AgentName = NameStr(s: string) | NameWithoutCenter

  /** What the foreign calls do: `loads(s)` is `json.loads(s)`, `dumps(v)`
      is `json.dumps(v, indent=2, cls=CustomJSONEncoder)`, `toStr(v)` is
      `str(v)` for a value that is not a string. */
  datatype Json<!J> = Json(loads: string -> Result<PyValue<J>>,
                          dumps: PyValue<J> -> Result<string>,
                          toStr: J -> string)

  /** How the call ended: it returned after printing `printed`, or it raised
      `failure` after printing `printed`. */
  datatype Outcome = Returned(printed: seq<string>) | Raised(printed: seq<string>, failure: Failure)

  /** The failures the `except` clause names. */
  predicate Caught(f: Failure)
  {
    f.JSONDecodeError? || f.TypeError?
  }

  /** What `print(v)` writes for the current binding of `output`. */
  function Raw<J>(v: PyValue<J>, json: Json<J>): string
  {
    match v
    case PyStr(s) => s
    case PyOther(x) => json.toStr(x)
  }

  /** The header text: ten `=`, a space, the name centred in 28 columns, a
      space, ten `=`. */
  function Header(name: string): (h: string)
    ensures |h| == 22 + Max(28, |name|)
    ensures h[..11] == Repeat('=', 10) + " "
    ensures h[|h| - 11..] == " " + Repeat('=', 10)
    ensures h[11..|h| - 11] == Center(name, 28)
  {
    Repeat('=', 10) + " " + Center(name, 28) + " " + Repeat('=', 10)
  }

  /** The footer text: forty-eight `=`. */
  function Footer(): (f: string)
    ensures |f| == 48
    ensures forall i :: 0 <= i < 48 ==> f[i] == '='
  {
    Repeat('=', 48)
  }

  /** What `output` is bound to when `json.dumps` is called: a string is
      first rebound to what `json.loads` made of it, which may raise. */
  function Bound<J>(output: PyValue<J>, json: Json<J>): Result<PyValue<J>>
  {
    if output.PyStr? then json.loads(output.s) else Ok(output)
  }

  /** The `try` block and its `except` clause: the text printed as the body,
      or the failure that escapes. Whatever `output` is bound to when a
      caught failure happens is what gets printed raw. */
  function Body<J>(output: PyValue<J>, json: Json<J>): (r: Result<string>)
    ensures r.Err? ==> !Caught(r.failure)
    ensures Bound(output, json).Err? ==>
              r == if Caught(Bound(output, json).failure) then Ok(Raw(output, json))
                   else Err(Bound(output, json).failure)
    ensures Bound(output, json).Ok? && json.dumps(Bound(output, json).value).Err? ==>
              var f := json.dumps(Bound(output, json).value).failure;
              r == if Caught(f) then Ok(Raw(Bound(output, json).value, json)) else Err(f)
    ensures Bound(output, json).Ok? && json.dumps(Bound(output, json).value).Ok? ==>
              r == Ok(json.dumps(Bound(output, json).value).value)
  {
    match Bound(output, json)
    case Err(f) => if Caught(f) then Ok(Raw(output, json)) else Err(f)
    case Ok(v) =>
      match json.dumps(v)
      case Ok(text) => Ok(text)
      case Err(f) => if Caught(f) then Ok(Raw(v, json)) else Err(f)
  }

  /** `show_agent_reasoning(output, agent_name)`. */
  function ShowAgentReasoning<J>(output: PyValue<J>, agentName: AgentName, json: Json<J>): (r: Outcome)
    ensures r.Returned? ==> agentName.NameStr? && |r.printed| == 3
                            && r.printed[0] == "\n" + Header(agentName.s)
                            && r.printed[2] == Footer()
    ensures r.Raised? ==> !Caught(r.failure) && |r.printed| <= 1 && Footer() !in r.printed
    ensures r.Raised? && agentName.NameStr? ==> r.printed == ["\n" + Header(agentName.s)]
    ensures agentName.NameWithoutCenter? ==> r == Raised([], AttributeError)
  {
    match agentName
    case NameWithoutCenter => Raised([], AttributeError)
    case NameStr(name) =>
      var header := "\n" + Header(name);
      match Body(output, json)
      case Ok(text) => Returned([header, text, Footer()])
      case Err(f) => Raised([header], f)
  }

  // ---------------------------------------------------------------------
  // Header and footer

  /** A name of at most 28 characters gives a 50-character header that
      holds the name unchanged, framed by `=` runs. */
  lemma HeaderShortName(name: string)
    requires |name| <= 28
    ensures |Header(name)| == 50
    ensures Header(name)[11 + CenterLeft(|name|, 28)..11 + CenterLeft(|name|, 28) + |name|] == name
    ensures forall i :: 0 <= i < 10 || 40 <= i < 50 ==> Header(name)[i] == '='
  {
  }

  /** A name longer than 28 characters is not truncated: it is printed
      between the two `=` runs as it is. */
  lemma HeaderLongName(name: string)
    requires |name| >= 28
    ensures Header(name) == Repeat('=', 10) + " " + name + " " + Repeat('=', 10)
    ensures |Header(name)| == 22 + |name|
  {
  }

  // ---------------------------------------------------------------------
  // Which body is printed

  /** A string that `json.loads` parses is pretty-printed from the parsed value. */
  lemma ParsedStringIsPrettyPrinted<J>(s: string, name: string, json: Json<J>, v: PyValue<J>, text: string)
    requires json.loads(s) == Ok(v) && json.dumps(v) == Ok(text)
    ensures ShowAgentReasoning(PyStr(s), NameStr(name), json) == Returned(["\n" + Header(name), text, Footer()])
  {
  }

  /** A value that is not a string goes to `json.dumps` as it is. */
  lemma NonStringIsPrettyPrinted<J>(x: J, name: string, json: Json<J>, text: string)
    requires json.dumps(PyOther(x)) == Ok(text)
    ensures ShowAgentReasoning(PyOther(x), NameStr(name), json) == Returned(["\n" + Header(name), text, Footer()])
  {
  }

  /** A string that `json.loads` rejects with a caught exception (a
      `JSONDecodeError` for text that is not valid JSON) is printed as the
      original string, because `output` was never rebound. */
  lemma CaughtLoadFailurePrintsOriginal<J>(s: string, name: string, json: Json<J>, f: Failure)
    requires Caught(f) && json.loads(s) == Err(f)
    ensures ShowAgentReasoning(PyStr(s), NameStr(name), json) == Returned(["\n" + Header(name), s, Footer()])
  {
  }

  /** A caught exception while dumping (a `TypeError` for a value the
      encoder cannot handle) prints the value raw. For a string input that
      parsed, that is the parsed value, not the original text, because
      `output` was already rebound. */
  lemma CaughtDumpFailurePrintsBoundValue<J>(output: PyValue<J>, name: string, json: Json<J>, f: Failure)
    requires Caught(f)
    requires Bound(output, json).Ok? && json.dumps(Bound(output, json).value) == Err(f)
    ensures ShowAgentReasoning(output, NameStr(name), json)
            == Returned(["\n" + Header(name), Raw(Bound(output, json).value, json), Footer()])
  {
  }

  /** Any other failure in the `try` block, from `json.loads` or from
      `json.dumps` (also after a successful parse), escapes after the
      header: no body and no footer are printed. */
  lemma UncaughtFailureEscapes<J>(output: PyValue<J>, name: string, json: Json<J>, f: Failure)
    requires !Caught(f)
    requires Bound(output, json) == Err(f)
             || (Bound(output, json).Ok? && json.dumps(Bound(output, json).value) == Err(f))
    ensures ShowAgentReasoning(output, NameStr(name), json) == Raised(["\n" + Header(name)], f)
  {
  }

  /** The call returns exactly when the name is a string and no failure
      other than the two caught ones happens in the `try` block. */
  lemma ReturnsIff<J>(output: PyValue<J>, agentName: AgentName, json: Json<J>)
    ensures ShowAgentReasoning(output, agentName, json).Returned? <==>
              && agentName.NameStr?
              && (Bound(output, json).Err? ==> Caught(Bound(output, json).failure))
              && (Bound(output, json).Ok? && json.dumps(Bound(output, json).value).Err? ==>
                    Caught(json.dumps(Bound(output, json).value).failure))
  {
  }

  /** The printer can raise: for every value whose dump raises `ValueError`
      (as `json.dumps` does on a circular reference), the call raises it,
      since the `except` clause does not name it. */
  lemma CircularReferenceEscapes<J>(x: J, name: string, json: Json<J>)
    requires json.dumps(PyOther(x)) == Err(ValueError)
    ensures ShowAgentReasoning(PyOther(x), NameStr(name), json) == Raised(["\n" + Header(name)], ValueError)
  {
  }
}
