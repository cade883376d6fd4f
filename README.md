# pandera decorators, modelled in Dafny

pandera's `check_input` and `check_output` decorators put a schema's
`validate` in front of or behind a function call, so a data pipeline can
check its data frames without changing the function.

- `check_input(schema, obj_getter, ...)` picks one argument of the call. The
  selector is an int position, a parameter name, or None for the first
  argument. The decorator validates that argument, puts what `validate`
  returns back in its place, and then calls the function.
- `check_output(schema, obj_getter, ...)` calls the function first. It then
  validates the whole output, `out[obj_getter]`, or `obj_getter(out)`, and
  returns the output untouched.
- Both decorators re-raise some SchemaErrors with a prefix that names the
  wrapped function.
- `_get_fn_argnames` lists the names `inspect.getfullargspec(fn).args` gives (no
  `*args`, keyword-only parameters or `**kwargs`) without the `self` of a bound method.

The model has six modules:

- `Results` defines `Option` and `Result`.
- `Decimal` defines `IntToString`, Python's `%s` of an integer, and reads it back.
  It also gives CPython's limit of 4300 digits on that conversion (Python 3.11 and
  later); beyond it `%s` raises ValueError instead of producing text.
- `Messages` defines every error and warning text as a structured `Message`.
  `Render` gives the text Python formats for it, on a 64-bit CPython with the
  default integer string conversion limit.
- `Calls` defines the objects of a call: opaque values, exceptions, the schema
  with its `validate` and `transformer`, the wrapped function, and the
  `Trace` of one decorated call.
- `OrderedDicts` defines the `OrderedDict(zip(names, args))` that
  `check_input` builds, with Python's rules for assigning to it.
- `Decorators` defines the selectors, `_get_fn_argnames`, and both wrappers.

A decorated call is modelled as its `Trace`. The trace holds the log of
events in order, which are `Warning`, `Validate(obj, sampling)` and
`Invoke(args, kwargs)`, followed by the outcome. The outcome is the returned
value or the exception raised. "The function is not called" means that no
`Invoke` event is in the log. `check_input` is a method, with one method per kind of selector, that
updates its local copies of the positional list and keyword map in place, as the Python
does. It is proved equal to the specification function `InputTrace`. The
lemmas state what `InputTrace` does for each branch. `check_output` has no
mutation, so it is a function.

In `check_input`, only the None branch re-raises `validate`'s SchemaError
with the prefix that names the function (decorators.py lines 88-91). The int
and str branches let it through unchanged. `check_output` always adds its
prefix (lines 153-156).

## Model

| member | source | states |
|---|---|---|
| `Decorators.ArgNamesDropsOnlySelf` | pandera/decorators.py:13-19 | The names are those of `getfullargspec(fn).args` with at most the first left out. The first is left out exactly when the function is a bound method and that name is `self`. A bound method that declares no parameters raises IndexError. |
| `Decorators.ArgNames` | pandera/decorators.py:13-19 | `_get_fn_argnames`: the names of `getfullargspec(fn).args`, without the first one when the function is a bound method and that name is `self`. Reading the first name of a bound method that declares none raises IndexError "list index out of range". Its properties are proved in `Decorators.ArgNamesDropsOnlySelf`. |
| `Decorators.CheckInput` | pandera/decorators.py:56-95 | The imperative wrapper, which updates the argument list and keyword map in place, does exactly what the specification `InputTrace` describes for every selector and every outcome of `validate`. A callable or other selector ends it with ValueError. |
| `Decorators.CheckInputAtIndex` | pandera/decorators.py:58-74 | The int branch, which overwrites `args[obj_getter]` in place or reports an out-of-range index, matches `InputTrace` for an int selector. |
| `Decorators.CheckInputByName` | pandera/decorators.py:75-83 | The str branch matches `InputTrace` for a str selector. It updates the keyword map in place, or builds the name pairing, assigns the entry and rebuilds the positional list. |
| `Decorators.CheckInputFirst` | pandera/decorators.py:84-91 | The None branch matches `InputTrace` for the None selector. It overwrites `args[0]` in place with the result of `validate` called with the sampling arguments. |
| `Decorators.CheckInputIndexInRange` | pandera/decorators.py:58-61 | An in-range int selector validates `args[k]` with no sampling arguments. A SchemaError passes through unprefixed. On success, only position `k` changes: it holds what `validate` returned, the list keeps its length, and the keywords are unchanged. |
| `Decorators.CheckInputIndexOutOfRange` | pandera/decorators.py:62-74 | An out-of-range int selector validates nothing and does not call the function. It raises a SchemaError naming the function, the index and `len(_get_fn_argnames(fn))`, or the IndexError of `_get_fn_argnames` itself. When `abs(i) >= 10**4300`, formatting that message raises CPython's ValueError for exceeding the integer string conversion limit instead. |
| `Messages.IndexOutOfRangeNamesIndex` | pandera/decorators.py:63-69 | The out-of-range message starts with the `check_input` prefix for the function. It then names the index in digits that read back as that index. |
| `Messages.IndexOutOfRangeNamesCount` | pandera/decorators.py:65-70 | The out-of-range message gives the argument count in digits that read back as that count. |
| `Messages.IndexOutOfRangeNamesMaxIndex` | pandera/decorators.py:66-71 | The out-of-range message gives the maximum index, `max(0, n - 1)` for `n` declared names, in digits that read back as that number. They come right after the count and "' arguments, so the maximum index is '". |
| `Messages.IndexOutOfRangeQuotesError` | pandera/decorators.py:60-73 | The out-of-range message ends by quoting the IndexError of the list read, followed by a closing quote. The error is "list index out of range"; for an index outside the 64-bit `Py_ssize_t` range it is "cannot fit 'int' into an index-sized integer". |
| `Decimal.ParseIntToString` | pandera/decorators.py:63-73 | The `%s` text of an integer reads back as that integer. |
| `Decimal.IntToStringInjective` | pandera/decorators.py:63-73 | Two integers with the same `%s` text are equal, so a message tells the indices and counts it names apart. |
| `Decimal.DigitCountBound` | pandera/decorators.py:63-69 | The `%s` text of the index has more than `k` digits exactly when `abs(i) >= 10**k`, so the 4300-digit conversion limit is reached exactly from `10**4300` on. |
| `Decimal.NatToStringLength` | pandera/decorators.py:63-69 | A natural number's text has more than `k` digits exactly when the number is at least `10**k`. |
| `Decorators.CheckInputKeyword` | pandera/decorators.py:75-77 | A name given as a keyword validates that keyword's value with no sampling arguments. On success, only that keyword changes, the key set stays the same, and the positional list is unchanged. A SchemaError passes through unprefixed. |
| `Decorators.CheckInputNamePaired` | pandera/decorators.py:78-83 | A name that is not a keyword but is declared at position `j` with a positional value there validates `args[j]`. The function is called with the first `min(len(names), len(args))` positional arguments. Position `j` holds what `validate` returned, and every other position keeps its value. |
| `Decorators.CheckInputNameMissing` | pandera/decorators.py:78-83 | A name that is neither a keyword nor a paired declared name raises KeyError for that name. Nothing is validated and the function is not called. |
| `Decorators.CheckInputNameNoArgNames` | pandera/decorators.py:78-79 | A name that is not a keyword, on a bound method that declares no parameters, raises the IndexError of `_get_fn_argnames` (line 16). Nothing is validated and the function is not called. |
| `OrderedDicts.FromZipDistinct` | pandera/decorators.py:80-81 | With distinct names, `OrderedDict(zip(names, vals))` holds exactly the first `min` names paired in order with the first `min` values. |
| `OrderedDicts.FromZipKeys` | pandera/decorators.py:80-81 | Only names that were paired with a value become keys. |
| `OrderedDicts.FromZip` | pandera/decorators.py:80-81 | The dictionary built from `zip` has one value per key, has no repeated key, and has no more keys than pairs. |
| `OrderedDicts.FromZipGet` | pandera/decorators.py:82 | Reading a declared name from the pairing gives the positional value at that name's position. |
| `OrderedDicts.FromZipPut` | pandera/decorators.py:82-83 | Assigning to a declared name in the pairing replaces that position only. The values come back in their order. |
| `OrderedDicts.Find` | pandera/decorators.py:82 | A key is found exactly when present, at its first occurrence. |
| `OrderedDicts.Get` | pandera/decorators.py:82 | `d[k]` fails exactly when `k` is absent, and then with `KeyError(k)`. |
| `OrderedDicts.Put` | pandera/decorators.py:82 | `d[k] = v` keeps the dictionary valid. A present key keeps its place and a new key is appended. |
| `OrderedDicts.GetPut` | pandera/decorators.py:82-83 | After `d[k] = v`, reading `k` gives `v` and reading any other key gives what it gave before. |
| `Decorators.CheckInputDefault` | pandera/decorators.py:84-91 | The None selector validates `args[0]` with `head, tail, sample, random_state`. An empty argument list raises IndexError. On success, `args[0]` is replaced. A SchemaError is re-raised with the `check_input` prefix and the original text. |
| `Messages.UnwrapRender` | pandera/decorators.py:89-91 | A re-raised message is the decorator's prefix for the function followed by the original message text, kept verbatim. |
| `Messages.UnwrapExact` | pandera/decorators.py:154-156 | A text that carries a decorator's prefix is exactly that prefix followed by the text left after removing it. |
| `Messages.Render` | pandera/decorators.py:63-156 | The texts of the errors and warnings: the out-of-range message (lines 63-73), the prefixed re-raises (89-91, 154-156), the unrecognized-type ValueError (93-94, 149-150), and the transformer warning (137-140). What the texts say is proved in the `Messages.IndexOutOfRange*` and `Messages.Unwrap*` lemmas. |
| `Decorators.CheckInputRejects` | pandera/decorators.py:92-94 | A callable or any other type of selector raises ValueError "obj_getter is unrecognized type" before anything is validated or called. |
| `Decorators.CheckInputTraceShape` | pandera/decorators.py:57-95 | For every selector, at most one object is validated, as the first event, with the sampling arguments only for None. Every later event is a call of the function. The function is called at most once, as the last event, and its outcome is the call's outcome. When the function is not called, the call fails. |
| `Decorators.CheckOutput` | pandera/decorators.py:134-158 | The transformer warning, naming the function, comes first exactly when the schema has a transformer. The function is then called once with the call's own arguments. A successful outcome is exactly the function's output, and a failure of the function propagates. |
| `Decorators.CheckOutputCallsOnce` | pandera/decorators.py:141 | `check_output` calls the wrapped function exactly once, whatever the selector and whatever `validate` does. |
| `Decorators.CheckOutputValidatesSelection` | pandera/decorators.py:142-150 | Once the function has returned, the object the selector picks (`out`, `out[key]` or `extractor(out)`) is validated last, with the sampling arguments. The call then returns the output itself when `validate` accepts. Otherwise it raises SchemaError with the `check_output` prefix and `validate`'s message. A failing selection ends the call with its error. An unsupported selector raises ValueError only after the function has run. |
| `Decorators.SelectOutput` | pandera/decorators.py:142-150 | The object validated is `out` for None, `out[obj_getter]` for an int or a str, and `obj_getter(out)` for a callable. Any other selector yields ValueError. How the selection is used is proved in `Decorators.CheckOutputValidatesSelection`. |
| `Decorators.CheckOutputIgnoresValidatedResult` | pandera/decorators.py:151-158 | Observe-only: two schemas that accept and reject the same objects with the same messages, and agree on having a transformer, give identical traces, whatever their `validate` returns. |

## Left out

- The decoration mechanics of `wrapt.decorator` and the `instance` binding belong to a foreign library. Each wrapper is modelled as a function of the call's positional and keyword arguments.
- `inspect.getfullargspec` and `inspect.ismethod` are reflection. The names `getfullargspec(fn).args` lists and the bound-method flag are given as fields of `WrappedFunction`. Those names leave out `*args`, keyword-only parameters and `**kwargs`, so a keyword-only name not passed as a keyword ends in the KeyError of `Decorators.CheckInputNameMissing`.
- `warnings.warn` goes through a process-wide registry. Issuing the warning is modelled as a `Warning` event in the trace, and registry filtering is not modelled.
- `schema.validate` and the whole validation engine are not part of this model. `validate` is an abstract function from an object and its sampling arguments to a new object or a SchemaError message.
- Decorators.CheckInputIndexInRange: a `validate` that raises IndexError is not modelled. The Python `except IndexError` would then turn that error into the out-of-range SchemaError. No other exception from `validate` is modelled either.
- Python's `bool` being an `int` is not modelled. A `True` selector belongs to the `ByIndex` case.
- `Decorators.TypeRepr` is only asked about a callable or an unsupported selector, the only ones that reach the ValueError. A callable is rendered as `<class 'function'>` whatever its class, and the `Unsupported` selector carries its own text.
- The wrapped function, the output's `__getitem__` and the extractor are abstract function-typed parameters. Their side effects are not modelled. Any exception they raise is carried as an `Error`, and as `Raised` for kinds the model does not name.
- A schema's transformer is applied inside `validate` in the library. Only whether a transformer is present is modelled.
- `Decorators.CheckInputNamePaired` assumes that the declared names are distinct, as a Python signature guarantees. With repeated names, Python's dictionary rules still apply through `OrderedDicts.FromZip`, but no lemma states that case.
- In the str branch, positional arguments beyond the declared names are dropped by `zip`, as the code does. The model keeps this behaviour and does not treat it as a defect.
- The width of Python's list index is fixed at 64 bits, as on a 64-bit CPython. On a 32-bit build the bound for "cannot fit 'int' into an index-sized integer" would be `2**31`.
- The integer string conversion limit is fixed at CPython's default of 4300 digits. A program that calls `sys.set_int_max_str_digits` moves it, and interpreters before Python 3.11 (and before the 3.7.14, 3.8.14, 3.9.14 and 3.10.7 security releases) have no limit, so there the out-of-range SchemaError is raised for every index.
