/**
 * The two decorators that route a function's argument (`check_input`) or its
 * return value (`check_output`) through a schema's `validate`, and the helper
 * that lists a function's declared argument names.
 *
 * A decorated call is modelled as a function of the call's positional and
 * keyword arguments to a Trace: the warnings issued, the objects validated and
 * the calls of the wrapped function, in order, and the value returned or the
 * exception raised.
 */
module Decorators {
  import opened Results
  import opened Calls
  import opened Messages
  import opened OrderedDicts
  import opened Decimal

  /** The `obj_getter` argument of both decorators, by its runtime type. */
  datatype Selector =
    | Default                                         // None
    | ByIndex(index: int)                             // an int
    | ByName(name: string)                            // a str
    | ByExtractor(extract: Value -> Result<Value, Error>)  // a callable
    | Unsupported(typeRepr: string)                   // anything else, with the text of type(obj_getter)

  /**
   * The text of `type(obj_getter)` in the "unrecognized type" message. Only a
   * selector that neither decorator accepts reaches that message: a callable in
   * `check_input`, and anything of another type in either.
   */
  function TypeRepr(sel: Selector): string
    requires sel.ByExtractor? || sel.Unsupported?
  {
    if sel.ByExtractor? then "<class 'function'>" else sel.typeRepr
  }

  // ---------------------------------------------------------------------------
  // Argument names
  // ---------------------------------------------------------------------------

  /**
   * `_get_fn_argnames`: the names in `fn.params`, without a leading `self`
   * of a bound method. Reading the first name of a bound method that declares
   * none raises IndexError.
   */
  function ArgNames(fn: WrappedFunction): Result<seq<string>, Error>
  {
    if fn.isMethod && |fn.params| == 0 then Failure(IndexError(ListIndexOutOfRange))
    else if fn.isMethod && fn.params[0] == "self" then Success(fn.params[1..])
    else Success(fn.params)
  }

  /**
   * The names `_get_fn_argnames` gives are the declared ones with at most the
   * first left out, and the first is left out exactly when the function is a
   * bound method and that name is `self`.
   */
  lemma ArgNamesDropsOnlySelf(fn: WrappedFunction)
    ensures ArgNames(fn).Failure? <==> fn.isMethod && |fn.params| == 0
    ensures ArgNames(fn).Failure? ==> ArgNames(fn).error == IndexError(ListIndexOutOfRange)
    ensures ArgNames(fn).Success? ==>
      var names := ArgNames(fn).value;
      var dropped := |fn.params| - |names|;
      && (dropped == 0 || dropped == 1)
      && fn.params == fn.params[..dropped] + names
      && (dropped == 1 <==> fn.isMethod && fn.params[0] == "self")
  {
    if fn.isMethod && |fn.params| > 0 && fn.params[0] == "self" {
      assert fn.params == fn.params[..1] + fn.params[1..];
    }
  }

  // ---------------------------------------------------------------------------
  // Python list indexing
  // ---------------------------------------------------------------------------

  /** The position `xs[i]` denotes in a list of length `n`, counting from the end for a negative `i`. */
  function PyIndex(i: int, n: nat): Option<nat>
  {
    if 0 <= i < n then Some(i) else if -(n as int) <= i < 0 then Some(n + i) else None
  }

  // ---------------------------------------------------------------------------
  // check_input
  // ---------------------------------------------------------------------------

  /** Where the validated argument goes back: a position, a keyword, or a name in the pairing of names with positions. */
  datatype Slot =
    | Position(k: nat)
    | Keyword(key: string)
    | Paired(dict: OrderedDict, key: string)

  /** What `check_input` validates for one call: the object, the sampling arguments it passes, and where the result goes. */
  datatype Target = Target(obj: Value, sampling: Sampling, slot: Slot)

  predicate SlotFits(slot: Slot, args: seq<Value>)
  {
    match slot
    case Position(k) => k < |args|
    case Keyword(_) => true
    case Paired(d, _) => Valid(d)
  }

  /**
   * The argument a `check_input` selector picks out of a call, or the error the
   * selection itself raises (before anything is validated or called).
   */
  function InputTarget(sel: Selector, sampling: Sampling, fn: WrappedFunction,
                       args: seq<Value>, kwargs: map<string, Value>): (r: Result<Target, Error>)
    ensures r.Success? ==> SlotFits(r.value.slot, args)
  {
    match sel
    case ByIndex(i) =>
      (match PyIndex(i, |args|)
       case Some(k) => Success(Target(args[k], NoSampling, Position(k)))
       case None =>
         match ArgNames(fn)
         case Failure(e) => Failure(e)
         case Success(names) =>
           if DigitCount(i) > IntMaxStrDigits then Failure(ValueError(StrDigitsExceeded(IntMaxStrDigits)))
           else Failure(SchemaError(InDecorator(CheckInputDecorator, fn.name, IndexOutOfRange(i, |names|)))))
    case ByName(name) =>
      if name in kwargs then Success(Target(kwargs[name], NoSampling, Keyword(name)))
      else
        (match ArgNames(fn)
         case Failure(e) => Failure(e)
         case Success(names) =>
           var paired := FromZip(names, args);
           match Get(paired, name)
           case Failure(e) => Failure(e)
           case Success(obj) => Success(Target(obj, NoSampling, Paired(paired, name))))
    case Default =>
      if |args| == 0 then Failure(IndexError(ListIndexOutOfRange))
      else Success(Target(args[0], sampling, Position(0)))
    case ByExtractor(_) => Failure(ValueError(UnrecognizedType(TypeRepr(sel))))
    case Unsupported(_) => Failure(ValueError(UnrecognizedType(TypeRepr(sel))))
  }

  /** The positional and keyword arguments after the validated object `v` is put back into its slot. */
  function Rebuild(slot: Slot, args: seq<Value>, kwargs: map<string, Value>, v: Value): (seq<Value>, map<string, Value>)
    requires SlotFits(slot, args)
  {
    match slot
    case Position(k) => (args[k := v], kwargs)
    case Keyword(key) => (args, kwargs[key := v])
    case Paired(d, key) => (Put(d, key, v).values, kwargs)
  }

  /** The SchemaError `check_input` raises when `validate` fails with `msg`: prefixed only for the None selector. */
  function InputSchemaError(sel: Selector, fn: WrappedFunction, msg: string): Error
  {
    if sel.Default? then SchemaError(InDecorator(CheckInputDecorator, fn.name, Text(msg))) else SchemaError(Text(msg))
  }

  /** The trace of a call that ends by calling the wrapped function: `log`, then the call, then its outcome. */
  function CallWith(log: seq<Event>, fn: WrappedFunction, args: seq<Value>, kwargs: map<string, Value>): Trace
  {
    Trace(log + [Invoke(args, kwargs)], fn.body(args, kwargs))
  }

  /** What a call through `check_input` does: select an argument, validate it, put the result back, call the function. */
  function InputTrace(schema: Schema, sel: Selector, sampling: Sampling, fn: WrappedFunction,
                      args: seq<Value>, kwargs: map<string, Value>): Trace
  {
    match InputTarget(sel, sampling, fn, args, kwargs)
    case Failure(e) => Trace([], Failure(e))
    case Success(target) =>
      var checked := [Validate(target.obj, target.sampling)];
      match schema.validate(target.obj, target.sampling)
      case Failure(msg) => Trace(checked, Failure(InputSchemaError(sel, fn, msg)))
      case Success(v) =>
        var (a, kw) := Rebuild(target.slot, args, kwargs, v);
        CallWith(checked, fn, a, kw)
  }

  /**
   * The `_wrapper` of `check_input(schema, obj_getter, head, tail, sample,
   * random_state)` applied to one call `fn(*args, **kwargs)`: the argument list
   * is copied, the selected argument is validated and overwritten in place with
   * what `validate` returns, and the function is called with the updated
   * arguments. Each kind of selector is handled by a method of its own.
   */
  method CheckInput(schema: Schema, sel: Selector, sampling: Sampling, fn: WrappedFunction,
                    args: seq<Value>, kwargs: map<string, Value>) returns (t: Trace)
    ensures t == InputTrace(schema, sel, sampling, fn, args, kwargs)
  {
    match sel {
      case ByIndex(i) =>
        t := CheckInputAtIndex(schema, i, sampling, fn, args, kwargs);
      case ByName(name) =>
        t := CheckInputByName(schema, name, sampling, fn, args, kwargs);
      case Default =>
        t := CheckInputFirst(schema, sampling, fn, args, kwargs);
      case ByExtractor(_) | Unsupported(_) =>
        t := Trace([], Failure(ValueError(UnrecognizedType(TypeRepr(sel)))));
    }
  }

  /** The int branch: `args[obj_getter] = schema.validate(args[obj_getter])`, with an out-of-range index reported. */
  method CheckInputAtIndex(schema: Schema, i: int, sampling: Sampling, fn: WrappedFunction,
                           args: seq<Value>, kwargs: map<string, Value>) returns (t: Trace)
    ensures t == InputTrace(schema, ByIndex(i), sampling, fn, args, kwargs)
  {
    var positional := args;
    var k := PyIndex(i, |positional|);
    if k.None? {
      var names := ArgNames(fn);
      if names.Failure? {
        return Trace([], Failure(names.error));
      }
      if DigitCount(i) > IntMaxStrDigits {
        // formatting `%s` of the index into the message already fails
        return Trace([], Failure(ValueError(StrDigitsExceeded(IntMaxStrDigits))));
      }
      return Trace([], Failure(SchemaError(InDecorator(CheckInputDecorator, fn.name, IndexOutOfRange(i, |names.value|)))));
    }
    var checked := Validate(positional[k.value], NoSampling);
    var r := schema.validate(positional[k.value], NoSampling);
    if r.Failure? {
      return Trace([checked], Failure(SchemaError(Text(r.error))));
    }
    positional := positional[k.value := r.value];
    t := Trace([checked, Invoke(positional, kwargs)], fn.body(positional, kwargs));
  }

  /**
   * The str branch: a keyword is validated in the keyword map; otherwise the
   * positional arguments are paired with the declared names, the entry for the
   * name is validated and assigned, and the values become the positional list.
   */
  method CheckInputByName(schema: Schema, name: string, sampling: Sampling, fn: WrappedFunction,
                          args: seq<Value>, kwargs: map<string, Value>) returns (t: Trace)
    ensures t == InputTrace(schema, ByName(name), sampling, fn, args, kwargs)
  {
    var positional := args;
    var keywords := kwargs;
    var checked: Event;
    if name in keywords {
      checked := Validate(keywords[name], NoSampling);
      var r := schema.validate(keywords[name], NoSampling);
      if r.Failure? {
        return Trace([checked], Failure(SchemaError(Text(r.error))));
      }
      keywords := keywords[name := r.value];
    } else {
      var names := ArgNames(fn);
      if names.Failure? {
        return Trace([], Failure(names.error));
      }
      var argsDict := FromZip(names.value, positional);
      var obj := Get(argsDict, name);
      if obj.Failure? {
        return Trace([], Failure(obj.error));
      }
      checked := Validate(obj.value, NoSampling);
      var r := schema.validate(obj.value, NoSampling);
      if r.Failure? {
        return Trace([checked], Failure(SchemaError(Text(r.error))));
      }
      argsDict := Put(argsDict, name, r.value);
      positional := argsDict.values;
    }
    t := Trace([checked, Invoke(positional, keywords)], fn.body(positional, keywords));
  }

  /** The None branch: `args[0]` is validated with the sampling arguments, and a SchemaError is re-raised with the prefix. */
  method CheckInputFirst(schema: Schema, sampling: Sampling, fn: WrappedFunction,
                         args: seq<Value>, kwargs: map<string, Value>) returns (t: Trace)
    ensures t == InputTrace(schema, Default, sampling, fn, args, kwargs)
  {
    var positional := args;
    if |positional| == 0 {
      return Trace([], Failure(IndexError(ListIndexOutOfRange)));
    }
    var checked := Validate(positional[0], sampling);
    var r := schema.validate(positional[0], sampling);
    if r.Failure? {
      return Trace([checked], Failure(SchemaError(InDecorator(CheckInputDecorator, fn.name, Text(r.error)))));
    }
    positional := positional[0 := r.value];
    t := Trace([checked, Invoke(positional, kwargs)], fn.body(positional, kwargs));
  }

  /** An int selector in range: that position, and only that one, is replaced by what `validate` returns. */
  lemma CheckInputIndexInRange(schema: Schema, i: int, sampling: Sampling, fn: WrappedFunction,
                               args: seq<Value>, kwargs: map<string, Value>)
    requires -(|args| as int) <= i < |args|
    ensures var k := if i < 0 then |args| + i else i;
      var t := InputTrace(schema, ByIndex(i), sampling, fn, args, kwargs);
      var checked := [Validate(args[k], NoSampling)];
      match schema.validate(args[k], NoSampling)
      case Failure(msg) => t == Trace(checked, Failure(SchemaError(Text(msg))))
      case Success(v) =>
        && t == CallWith(checked, fn, args[k := v], kwargs)
        && |args[k := v]| == |args|
        && forall j | 0 <= j < |args| && j != k :: args[k := v][j] == args[j]
  {
  }

  /**
   * An int selector out of range: nothing is validated and the function is not
   * called. The out-of-range SchemaError is raised unless listing the argument
   * names fails first, or the index has more digits (`|i| >= 10^4300`) than
   * the interpreter converts to text for the message.
   */
  lemma CheckInputIndexOutOfRange(schema: Schema, i: int, sampling: Sampling, fn: WrappedFunction,
                                  args: seq<Value>, kwargs: map<string, Value>)
    requires !(-(|args| as int) <= i < |args|)
    ensures InputTrace(schema, ByIndex(i), sampling, fn, args, kwargs)
         == match ArgNames(fn)
            case Failure(e) => Trace([], Failure(e))
            case Success(names) =>
              if i >= Pow10(IntMaxStrDigits) || -i >= Pow10(IntMaxStrDigits)
              then Trace([], Failure(ValueError(StrDigitsExceeded(IntMaxStrDigits))))
              else Trace([], Failure(SchemaError(InDecorator(CheckInputDecorator, fn.name, IndexOutOfRange(i, |names|)))))
  {
    DigitCountBound(i, IntMaxStrDigits);
  }

  /** A name given as a keyword: that keyword, and only that one, is replaced. */
  lemma CheckInputKeyword(schema: Schema, name: string, sampling: Sampling, fn: WrappedFunction,
                          args: seq<Value>, kwargs: map<string, Value>)
    requires name in kwargs
    ensures var t := InputTrace(schema, ByName(name), sampling, fn, args, kwargs);
      var checked := [Validate(kwargs[name], NoSampling)];
      match schema.validate(kwargs[name], NoSampling)
      case Failure(msg) => t == Trace(checked, Failure(SchemaError(Text(msg))))
      case Success(v) =>
        && t == CallWith(checked, fn, args, kwargs[name := v])
        && kwargs[name := v].Keys == kwargs.Keys
        && forall key | key in kwargs && key != name :: kwargs[name := v][key] == kwargs[key]
  {
  }

  /**
   * A name given neither as a keyword nor among the declared names paired with
   * a positional argument: the lookup fails with KeyError and nothing runs.
   */
  lemma CheckInputNameMissing(schema: Schema, name: string, sampling: Sampling, fn: WrappedFunction,
                              args: seq<Value>, kwargs: map<string, Value>)
    requires name !in kwargs
    requires ArgNames(fn).Success? && name !in ArgNames(fn).value[..Min(|ArgNames(fn).value|, |args|)]
    ensures InputTrace(schema, ByName(name), sampling, fn, args, kwargs) == Trace([], Failure(KeyError(name)))
  {
    if name in FromZip(ArgNames(fn).value, args).keys {
      FromZipKeys(ArgNames(fn).value, args, name);
    }
  }

  /**
   * A name not given as a keyword, on a bound method that declares no
   * parameters: listing the argument names already raises IndexError, and
   * nothing is validated or called.
   */
  lemma CheckInputNameNoArgNames(schema: Schema, name: string, sampling: Sampling, fn: WrappedFunction,
                                 args: seq<Value>, kwargs: map<string, Value>)
    requires name !in kwargs
    requires fn.isMethod && |fn.params| == 0
    ensures InputTrace(schema, ByName(name), sampling, fn, args, kwargs)
         == Trace([], Failure(IndexError(ListIndexOutOfRange)))
  {
  }

  /**
   * A name not given as a keyword but declared at position `j` and given
   * positionally (the declared names of a function are distinct): that
   * position, and only that one, is replaced, and positional arguments beyond
   * the declared names are dropped.
   */
  lemma CheckInputNamePaired(schema: Schema, name: string, names: seq<string>, j: nat, sampling: Sampling,
                             fn: WrappedFunction, args: seq<Value>, kwargs: map<string, Value>)
    requires name !in kwargs
    requires ArgNames(fn) == Success(names) && Distinct(names)
    requires j < |names| && j < |args| && names[j] == name
    ensures var m := Min(|names|, |args|);
      var t := InputTrace(schema, ByName(name), sampling, fn, args, kwargs);
      var checked := [Validate(args[j], NoSampling)];
      match schema.validate(args[j], NoSampling)
      case Failure(msg) => t == Trace(checked, Failure(SchemaError(Text(msg))))
      case Success(v) =>
        && t == CallWith(checked, fn, args[..m][j := v], kwargs)
        && |args[..m][j := v]| == m
        && forall p | 0 <= p < m && p != j :: args[..m][j := v][p] == args[p]
  {
    var target := Target(args[j], NoSampling, Paired(FromZip(names, args), name));
    assert InputTarget(ByName(name), sampling, fn, args, kwargs) == Success(target) by {
      FromZipGet(names, args, j);
    }
    if schema.validate(args[j], NoSampling).Success? {
      var v := schema.validate(args[j], NoSampling).value;
      assert Rebuild(target.slot, args, kwargs, v) == (args[..Min(|names|, |args|)][j := v], kwargs) by {
        FromZipPut(names, args, j, v);
      }
    }
  }

  /** No selector: the first positional argument is validated with the sampling arguments, and a failure is re-raised with the prefix. */
  lemma CheckInputDefault(schema: Schema, sampling: Sampling, fn: WrappedFunction,
                          args: seq<Value>, kwargs: map<string, Value>)
    ensures var t := InputTrace(schema, Default, sampling, fn, args, kwargs);
      if |args| == 0 then t == Trace([], Failure(IndexError(ListIndexOutOfRange)))
      else
        var checked := [Validate(args[0], sampling)];
        match schema.validate(args[0], sampling)
        case Failure(msg) =>
          && t == Trace(checked, Failure(SchemaError(InDecorator(CheckInputDecorator, fn.name, Text(msg)))))
        case Success(v) => t == CallWith(checked, fn, args[0 := v], kwargs)
  {
  }

  /** A callable or any other type of selector: a ValueError before anything is validated or called. */
  lemma CheckInputRejects(schema: Schema, sel: Selector, sampling: Sampling, fn: WrappedFunction,
                          args: seq<Value>, kwargs: map<string, Value>)
    requires sel.ByExtractor? || sel.Unsupported?
    ensures InputTrace(schema, sel, sampling, fn, args, kwargs) == Trace([], Failure(ValueError(UnrecognizedType(TypeRepr(sel)))))
  {
  }

  /**
   * Whatever the selector: at most one object is validated, with the sampling
   * arguments only for the None selector; the function is called at most once,
   * last, and its outcome is the call's; when it is not called the call fails.
   */
  lemma CheckInputTraceShape(schema: Schema, sel: Selector, sampling: Sampling, fn: WrappedFunction,
                             args: seq<Value>, kwargs: map<string, Value>)
    ensures var t := InputTrace(schema, sel, sampling, fn, args, kwargs);
      && |t.log| <= 2
      && (|t.log| > 0 ==> t.log[0].Validate?)
      && (forall j | 1 <= j < |t.log| :: t.log[j].Invoke?)
      && (forall j | 0 <= j < |t.log| && t.log[j].Validate? ::
            t.log[j].sampling == if sel.Default? then sampling else NoSampling)
      && InvokeCount(t.log) <= 1
      && (InvokeCount(t.log) == 1 ==> var last := t.log[|t.log| - 1];
            last.Invoke? && t.outcome == fn.body(last.args, last.kwargs))
      && (InvokeCount(t.log) == 0 ==> t.outcome.Failure?)
  {
    var t := InputTrace(schema, sel, sampling, fn, args, kwargs);
    if |t.log| == 1 {
      InvokeCountSingle(t.log[0]);
    } else if |t.log| == 2 {
      assert t.log == [t.log[0]] + [t.log[1]];
      InvokeCountSingle(t.log[0]);
      InvokeCountSingle(t.log[1]);
      InvokeCountAppend([t.log[0]], [t.log[1]]);
    }
  }

  // ---------------------------------------------------------------------------
  // check_output
  // ---------------------------------------------------------------------------

  /**
   * The object `check_output` validates within the output `out`: `out` itself,
   * `out[obj_getter]`, or `obj_getter(out)`. `subscript` is the output's own
   * `__getitem__`.
   */
  function SelectOutput(sel: Selector, out: Value, subscript: (Value, Key) -> Result<Value, Error>): Result<Value, Error>
  {
    match sel
    case Default => Success(out)
    case ByIndex(i) => subscript(out, IntKey(i))
    case ByName(s) => subscript(out, StrKey(s))
    case ByExtractor(f) => f(out)
    case Unsupported(_) => Failure(ValueError(UnrecognizedType(TypeRepr(sel))))
  }

  /** How `check_output` ends once `validate` has run on `obj`: the output itself, or the failure re-raised with the prefix. */
  function OutputVerdict(schema: Schema, fnName: string, obj: Value, sampling: Sampling, out: Value): Result<Value, Error>
  {
    match schema.validate(obj, sampling)
    case Success(_) => Success(out)
    case Failure(msg) => Failure(SchemaError(InDecorator(CheckOutputDecorator, fnName, Text(msg))))
  }

  /**
   * The `_wrapper` of `check_output(schema, obj_getter, head, tail, sample,
   * random_state)` applied to one call `fn(*args, **kwargs)`: the function runs,
   * the selected part of its output is validated, and the output is returned as
   * the function produced it.
   */
  function CheckOutput(schema: Schema, sel: Selector, sampling: Sampling, fn: WrappedFunction,
                       subscript: (Value, Key) -> Result<Value, Error>,
                       args: seq<Value>, kwargs: map<string, Value>): (t: Trace)
    // the transformer warning comes first, exactly when there is a transformer
    ensures |t.log| > 0 && (t.log[0].Warning? <==> schema.transformer.Some?)
    ensures schema.transformer.Some? ==> t.log[0] == Warning(TransformerNoEffect(fn.name))
    // the function is called unconditionally, with the call's own arguments, right after it
    ensures var w := if schema.transformer.Some? then 1 else 0;
      w < |t.log| && t.log[w] == Invoke(args, kwargs)
    // observe-only: whatever is returned is exactly the function's output
    ensures t.outcome.Success? ==> t.outcome == fn.body(args, kwargs)
    ensures fn.body(args, kwargs).Failure? ==> t.outcome == fn.body(args, kwargs)
  {
    var warned := if schema.transformer.Some? then [Warning(TransformerNoEffect(fn.name))] else [];
    var called := warned + [Invoke(args, kwargs)];
    match fn.body(args, kwargs)
    case Failure(e) => Trace(called, Failure(e))
    case Success(out) =>
      match SelectOutput(sel, out, subscript)
      case Failure(e) => Trace(called, Failure(e))
      case Success(obj) => Trace(called + [Validate(obj, sampling)], OutputVerdict(schema, fn.name, obj, sampling, out))
  }

  /** `check_output` calls the wrapped function exactly once. */
  lemma CheckOutputCallsOnce(schema: Schema, sel: Selector, sampling: Sampling, fn: WrappedFunction,
                             subscript: (Value, Key) -> Result<Value, Error>,
                             args: seq<Value>, kwargs: map<string, Value>)
    ensures InvokeCount(CheckOutput(schema, sel, sampling, fn, subscript, args, kwargs).log) == 1
  {
    var warned := if schema.transformer.Some? then [Warning(TransformerNoEffect(fn.name))] else [];
    var called := warned + [Invoke(args, kwargs)];
    InvokeCountAppend(warned, [Invoke(args, kwargs)]);
    InvokeCountSingle(Invoke(args, kwargs));
    if warned != [] {
      InvokeCountSingle(warned[0]);
    }
    if fn.body(args, kwargs).Success? {
      var out := fn.body(args, kwargs).value;
      if SelectOutput(sel, out, subscript).Success? {
        var obj := SelectOutput(sel, out, subscript).value;
        InvokeCountAppend(called, [Validate(obj, sampling)]);
        InvokeCountSingle(Validate(obj, sampling));
      }
    }
  }

  /**
   * After the function returns, the object the selector picks (the output,
   * `out[obj_getter]` or `obj_getter(out)`) is validated, last, with the
   * sampling arguments. The call then returns the output itself when `validate`
   * accepts, whatever `validate` returned, and re-raises its SchemaError with
   * the prefix otherwise. A failing selection ends the call with its error, and
   * an unusable selector with a ValueError only now.
   */
  lemma CheckOutputValidatesSelection(schema: Schema, sel: Selector, sampling: Sampling, fn: WrappedFunction,
                                      subscript: (Value, Key) -> Result<Value, Error>,
                                      args: seq<Value>, kwargs: map<string, Value>)
    requires fn.body(args, kwargs).Success?
    ensures var t := CheckOutput(schema, sel, sampling, fn, subscript, args, kwargs);
      var out := fn.body(args, kwargs).value;
      && (sel.Unsupported? ==> t.outcome == Failure(ValueError(UnrecognizedType(TypeRepr(sel)))))
      && match SelectOutput(sel, out, subscript)
         case Failure(e) => t.outcome == Failure(e)
         case Success(obj) =>
           && t.log[|t.log| - 1] == Validate(obj, sampling)
           && match schema.validate(obj, sampling)
              case Success(_) => t.outcome == Success(out)
              case Failure(msg) => t.outcome == Failure(SchemaError(InDecorator(CheckOutputDecorator, fn.name, Text(msg))))
  {
  }

  /**
   * What `validate` returns has no bearing on `check_output`: two schemas that
   * accept and reject the same objects, with the same messages, and agree on
   * having a transformer, give the same trace.
   */
  lemma CheckOutputIgnoresValidatedResult(s1: Schema, s2: Schema, sel: Selector, sampling: Sampling,
                                          fn: WrappedFunction, subscript: (Value, Key) -> Result<Value, Error>,
                                          args: seq<Value>, kwargs: map<string, Value>)
    requires s1.transformer.Some? == s2.transformer.Some?
    requires forall o: Value, p: Sampling ::
      (s1.validate(o, p).Failure? <==> s2.validate(o, p).Failure?)
      && (s1.validate(o, p).Failure? ==> s1.validate(o, p).error == s2.validate(o, p).error)
    ensures CheckOutput(s1, sel, sampling, fn, subscript, args, kwargs)
         == CheckOutput(s2, sel, sampling, fn, subscript, args, kwargs)
  {
  }

  // ---------------------------------------------------------------------------
  // A client
  // ---------------------------------------------------------------------------

  /**
   * `check_input(schema, obj_getter=1)` on `f(x, df)` called as `f(1, df)`:
   * the data frame is validated and what `validate` returns is what `f` receives.
   */
  method CheckInputSecondArgument(df: Value, transformed: Value)
  {
    var schema := Schema((o: Value, p: Sampling) => if o == df then Success(transformed) else Failure("invalid"), None);
    var f := WrappedFunction("f", ["x", "df"], false, (a: seq<Value>, kw: map<string, Value>) =>
      if |a| == 2 then Success(a[1]) else Failure(Raised("TypeError", "f() takes 2 arguments")));
    var one := Object(1);
    assert schema.validate(df, NoSampling) == Success(transformed);
    var t := CheckInput(schema, ByIndex(1), NoSampling, f, [one, df], map[]);
    assert [one, df][1 := transformed] == [one, transformed];
    assert t.log == [Validate(df, NoSampling), Invoke([one, transformed], map[])];
    assert t.outcome == Success(transformed);
    var t' := CheckInput(schema, ByName("df"), NoSampling, f, [one, df], map[]);
    assert ArgNames(f).value == ["x", "df"] && Distinct(["x", "df"]);
    CheckInputNamePaired(schema, "df", ["x", "df"], 1, NoSampling, f, [one, df], map[]);
    assert [one, df][..2][1 := transformed] == [one, transformed];
    assert t'.log == [Validate(df, NoSampling), Invoke([one, transformed], map[])];
  }
}
