/**
 * The objects that flow through a decorated call: the Python values handed to
 * and returned by the wrapped function, the exceptions it can end in, the
 * schema the decorators consult, and the record of what one call did.
 */
module Calls {
  import opened Results
  import opened Messages

  /** A Python object (a data frame, a series, anything else), known only by its identity. */
  datatype Value = Object(id: nat)

  /** A subscript `out[k]` applied to a function's output: an `int` or a `str` key. */
  datatype Key = IntKey(i: int) | StrKey(s: string)

  /** The exceptions a decorated call can end in. */
  datatype Error =
    | SchemaError(message: Message)
    | ValueError(message: Message)
    | IndexError(message: Message)
    | KeyError(key: string)
      /** any other exception, raised by code outside the model (the wrapped function, an extractor) */
    | Raised(kind: string, text: string)

  /** The optional `head`, `tail`, `sample` and `random_state` arguments of `validate`. */
  datatype Sampling = Sampling(head: Option<int>, tail: Option<int>, sample: Option<int>, randomState: Option<int>)

  /** `validate(obj)` called with the object alone: every sampling argument left at None. */
  const NoSampling := Sampling(None, None, None, None)

  /**
   * A data frame or series schema as the decorators see it: its `validate`
   * operation (which raises SchemaError with a message, or returns the possibly
   * transformed object) and its optional `transformer`.
   */
  datatype Schema = Schema(
    validate: (Value, Sampling) -> Result<Value, string>,
    transformer: Option<Value -> Value>)

  /**
   * The decorated function: its `__name__`, the parameter names
   * `inspect.getfullargspec(fn).args` lists (the positional-or-keyword ones, `self`
   * included for a method, without `*args`, keyword-only parameters and
   * `**kwargs`), whether it is a bound method, and
   * what calling it with given positional and keyword arguments yields.
   */
  datatype WrappedFunction = WrappedFunction(
    name: string,
    params: seq<string>,
    isMethod: bool,
    body: (seq<Value>, map<string, Value>) -> Result<Value, Error>)

  /** One observable step of a decorated call, in the order it happens. */
  datatype Event =
    | Warning(message: Message)
    | Validate(obj: Value, sampling: Sampling)
    | Invoke(args: seq<Value>, kwargs: map<string, Value>)

  /** Everything a decorated call did, and how it ended. */
  datatype Trace = Trace(log: seq<Event>, outcome: Result<Value, Error>)

  /** How many times the log records a call of the wrapped function. */
  function InvokeCount(log: seq<Event>): nat
  {
    if log == [] then 0
    else InvokeCount(log[..|log| - 1]) + if log[|log| - 1].Invoke? then 1 else 0
  }

  lemma {:induction false} InvokeCountAppend(a: seq<Event>, b: seq<Event>)
    ensures InvokeCount(a + b) == InvokeCount(a) + InvokeCount(b)
    decreases |b|
  {
    if b != [] {
      assert (a + b)[..|a + b| - 1] == a + b[..|b| - 1];
      InvokeCountAppend(a, b[..|b| - 1]);
    } else {
      assert a + b == a;
    }
  }

  lemma InvokeCountSingle(e: Event)
    ensures InvokeCount([e]) == if e.Invoke? then 1 else 0
  {
    assert [e][..0] == [];
  }
}
