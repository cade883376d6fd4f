/**
 * The texts of the errors and warnings the decorators raise. A message is kept
 * as a structured value and `Render` gives the text Python formats for it on
 * a 64-bit CPython, so that what a message says can be read off without its
 * characters.
 */
module Messages {
  import opened Results
  import opened Decimal

  datatype Decorator = CheckInputDecorator | CheckOutputDecorator

  function DecoratorName(d: Decorator): string
  {
    match d
    case CheckInputDecorator => "check_input"
    case CheckOutputDecorator => "check_output"
  }

  datatype Message =
      /** a text taken verbatim, such as the message of a SchemaError raised by `validate` */
    | Text(text: string)
      /** a message re-raised by a decorator, prefixed with the name of the function it wraps */
    | InDecorator(decorator: Decorator, fnName: string, inner: Message)
      /** `check_input` was given an int selector outside the argument list */
    | IndexOutOfRange(index: int, nargs: nat)
      /** Python's IndexError for a list read out of range */
    | ListIndexOutOfRange
      /** the selector is of a type the decorator does not accept (`type(obj_getter)` rendered) */
    | UnrecognizedType(typeRepr: string)
      /** `str()` of an int with more digits than the interpreter's conversion limit */
    | StrDigitsExceeded(limit: nat)
      /** `check_output` was given a schema with a transformer */
    | TransformerNoEffect(fnName: string)

  /** The text a decorator puts before a re-raised error to name the function it wraps. */
  function ContextPrefix(d: Decorator, fnName: string): string
  {
    "error in " + DecoratorName(d) + " decorator of function '" + fnName + "': "
  }

  /** `max(0, n - 1)`: the largest index a function of `n` arguments accepts. */
  function MaxIndex(n: nat): nat
  {
    if n == 0 then 0 else n - 1
  }

  const ListIndexOutOfRangeText := "list index out of range"
  const IndexOverflowText := "cannot fit 'int' into an index-sized integer"

  /** The bounds of a 64-bit `Py_ssize_t`, the index type of a Python list. */
  const SsizeMin := -0x8000_0000_0000_0000
  const SsizeBound := 0x8000_0000_0000_0000

  /**
   * The text of the IndexError a list read `xs[i]` raises out of range: an
   * index that does not fit in a `Py_ssize_t` is refused before any bound check.
   */
  function IndexErrorText(i: int): string
  {
    if SsizeMin <= i < SsizeBound then ListIndexOutOfRangeText else IndexOverflowText
  }

  const IndexLead := "the index '"
  const IndexMiddle := "' was supplied to the check but this function accepts '"
  const MaxLead := "' arguments, so the maximum index is '"
  const ErrorLead := "'. The full error is: '"

  /** The text after the argument count in the out-of-range message. */
  function IndexOutOfRangeTail(index: int, nargs: nat): string
  {
    MaxLead + (IntToString(MaxIndex(nargs)) + (ErrorLead + (IndexErrorText(index) + "'")))
  }

  /** The text of a message, as `str()` of the exception carrying it gives it. */
  function Render(m: Message): string
  {
    match m
    case Text(s) => s
    case InDecorator(d, f, inner) => ContextPrefix(d, f) + Render(inner)
    case IndexOutOfRange(i, n) =>
      IndexLead + IntToString(i) + IndexMiddle + (IntToString(n) + IndexOutOfRangeTail(i, n))
    case ListIndexOutOfRange => ListIndexOutOfRangeText
    case UnrecognizedType(t) => "obj_getter is unrecognized type: " + t
    case StrDigitsExceeded(n) =>
      "Exceeds the limit (" + IntToString(n) + " digits) for integer string conversion; "
      + "use sys.set_int_max_str_digits() to increase the limit"
    case TransformerNoEffect(f) =>
      "The schema transformer function has no effect in a check_output decorator. "
      + "Please perform the necessary transformations in the '" + f + "' function instead."
  }

  /** The original text inside a re-raised one, if it carries this decorator's prefix for this function. */
  function UnwrapMessage(d: Decorator, fnName: string, s: string): Option<string>
  {
    var p := ContextPrefix(d, fnName);
    if |p| <= |s| && s[..|p|] == p then Some(s[|p|..]) else None
  }

  /** A re-raised message keeps the original text verbatim after the prefix. */
  lemma UnwrapRender(d: Decorator, fnName: string, inner: Message)
    ensures UnwrapMessage(d, fnName, Render(InDecorator(d, fnName, inner))) == Some(Render(inner))
  {
    var p, s := ContextPrefix(d, fnName), Render(inner);
    assert (p + s)[..|p|] == p && (p + s)[|p|..] == s;
  }

  /** A text with this decorator's prefix is exactly the prefix followed by what unwrapping gives. */
  lemma UnwrapExact(d: Decorator, fnName: string, s: string, original: string)
    requires UnwrapMessage(d, fnName, s) == Some(original)
    ensures s == ContextPrefix(d, fnName) + original
  {
    var p := ContextPrefix(d, fnName);
    assert s == s[..|p|] + s[|p|..];
  }

  /** The decimal text of `i`, placed after `lead` in any text, can be cut out again and read back as `i`. */
  lemma DigitsAfter(lead: string, i: int, rest: string)
    ensures var k := |IntToString(i)|;
      var s := lead + (IntToString(i) + rest);
      && |lead| + k <= |s|
      && s[..|lead|] == lead
      && ParseInt(s[|lead|..|lead| + k]) == Some(i)
  {
    var c := IntToString(i);
    var s := lead + (c + rest);
    assert s[|lead|..|lead| + |c|] == c;
    ParseIntToString(i);
  }

  /** The same, for digits that follow `p + l` and are followed by `m`, then `rest`. */
  lemma DigitsAfterPair(p: string, l: string, i: int, m: string, rest: string)
    ensures var lead := p + l;
      var k := |IntToString(i)|;
      var s := p + (l + IntToString(i) + m + rest);
      && |lead| + k <= |s|
      && s[..|lead|] == lead
      && ParseInt(s[|lead|..|lead| + k]) == Some(i)
  {
    var c := IntToString(i);
    assert p + (l + c + m + rest) == (p + l) + (c + (m + rest));
    DigitsAfter(p + l, i, m + rest);
  }

  /** The same, for digits that follow `lead + n + a`, where `n` and `a` are further pieces of text. */
  lemma DigitsAfterPieces(lead: string, n: string, a: string, i: int, rest: string)
    ensures var lead' := lead + n + a;
      var k := |IntToString(i)|;
      var s := lead + (n + (a + (IntToString(i) + rest)));
      && |lead'| + k <= |s|
      && s[..|lead'|] == lead'
      && ParseInt(s[|lead'|..|lead'| + k]) == Some(i)
  {
    var c := IntToString(i);
    assert lead + (n + (a + (c + rest))) == (lead + n + a) + (c + rest);
    DigitsAfter(lead + n + a, i, rest);
  }

  /** Of `l0 + n + a + x + el + e + "'"`, nested to the right, the piece `e` sits right after the others and before the quote. */
  lemma QuotedAfter(l0: string, n: string, a: string, x: string, el: string, e: string)
    ensures var lead := l0 + n + a + x + el;
      var s := l0 + (n + (a + (x + (el + (e + "'")))));
      && |lead| + |e| <= |s|
      && s[..|lead|] == lead
      && s[|lead|..|lead| + |e|] == e
      && s[|lead| + |e|..] == "'"
  {
    var lead := l0 + n + a + x + el;
    var s := l0 + (n + (a + (x + (el + (e + "'")))));
    assert s == lead + (e + "'");
  }

  /**
   * The out-of-range message of `check_input` starts with its prefix and then
   * names the index that was asked for, in digits that read back as the index.
   */
  lemma IndexOutOfRangeNamesIndex(fnName: string, index: int, nargs: nat)
    ensures var lead := ContextPrefix(CheckInputDecorator, fnName) + IndexLead;
      var r := Render(InDecorator(CheckInputDecorator, fnName, IndexOutOfRange(index, nargs)));
      var k := |IntToString(index)|;
      && |lead| + k <= |r|
      && r[..|lead|] == lead
      && ParseInt(r[|lead|..|lead| + k]) == Some(index)
  {
    DigitsAfterPair(ContextPrefix(CheckInputDecorator, fnName), IndexLead, index, IndexMiddle,
                    IntToString(nargs) + IndexOutOfRangeTail(index, nargs));
  }

  /** The out-of-range message also states, readably, how many arguments the function takes. */
  lemma IndexOutOfRangeNamesCount(index: int, nargs: nat)
    ensures var lead := IndexLead + IntToString(index) + IndexMiddle;
      var r := Render(IndexOutOfRange(index, nargs));
      var k := |IntToString(nargs)|;
      && |lead| + k <= |r|
      && r[..|lead|] == lead
      && ParseInt(r[|lead|..|lead| + k]) == Some(nargs)
  {
    DigitsAfter(IndexLead + IntToString(index) + IndexMiddle, nargs, IndexOutOfRangeTail(index, nargs));
  }

  /** The out-of-range message also names the largest index the function accepts, `max(0, n - 1)`, readably. */
  lemma IndexOutOfRangeNamesMaxIndex(index: int, nargs: nat)
    ensures var lead := IndexLead + IntToString(index) + IndexMiddle + IntToString(nargs) + MaxLead;
      var r := Render(IndexOutOfRange(index, nargs));
      var k := |IntToString(MaxIndex(nargs))|;
      && |lead| + k <= |r|
      && r[..|lead|] == lead
      && ParseInt(r[|lead|..|lead| + k]) == Some(if nargs > 0 then nargs - 1 else 0)
  {
    DigitsAfterPieces(IndexLead + IntToString(index) + IndexMiddle, IntToString(nargs), MaxLead,
                      MaxIndex(nargs), ErrorLead + (IndexErrorText(index) + "'"));
  }

  /**
   * The out-of-range message ends by quoting the IndexError the list read
   * raised: "list index out of range", or, for an index outside the 64-bit
   * range, the refusal to fit it into an index.
   */
  lemma IndexOutOfRangeQuotesError(index: int, nargs: nat)
    ensures var lead := IndexLead + IntToString(index) + IndexMiddle + IntToString(nargs) + MaxLead
                        + IntToString(MaxIndex(nargs)) + ErrorLead;
      var r := Render(IndexOutOfRange(index, nargs));
      var e := if SsizeMin <= index < SsizeBound then ListIndexOutOfRangeText else IndexOverflowText;
      && |lead| + |e| <= |r|
      && r[..|lead|] == lead
      && r[|lead|..|lead| + |e|] == e
      && r[|lead| + |e|..] == "'"
  {
    QuotedAfter(IndexLead + IntToString(index) + IndexMiddle, IntToString(nargs), MaxLead,
                IntToString(MaxIndex(nargs)), ErrorLead, IndexErrorText(index));
  }
}
