/** The validated dictionary look-ups: each returns the stored value or ends
    the program with a fixed message. A value is a Python object of one of
    the shapes the program stores (`None`, an int, a str, a tuple); a
    dictionary maps such objects to such objects. */
module Utilities {
  import opened Wrappers
  import opened PyBuiltins
  import opened Rgb

  datatype PyValue = PyNone | PyInt(i: int) | PyStr(s: string) | PyTuple(elems: seq<PyValue>)

  type PyDict = map<PyValue, PyValue>

  /** How a helper ends the program: a failed `assert`, `exit(msg)` (which
      raises `SystemExit`), or a `TypeError` that nothing catches. */
  datatype Exception = AssertionError | SystemExit | TypeError

  /** A call either returns a value or raises an exception with its text. */
  datatype Outcome<+T> = Return(value: T) | Raise(kind: Exception, message: string) {

    predicate IsFailure() {
      Raise?
    }

    function PropagateFailure<U>(): Outcome<U>
      requires Raise?
    {
      Raise(kind, message)
    }

    function Extract(): T
      requires Return?
    {
      value
    }
  }

  /** `d.get(key)`: the stored value, or `None` when the key is absent. */
  function Get(d: PyDict, key: PyValue): (v: PyValue)
    ensures key in d ==> v == d[key]
    ensures key !in d ==> v == PyNone
  {
    if key in d then d[key] else PyNone
  }

  /** `", ".join(parts)`. */
  function Join(parts: seq<string>): string {
    if |parts| == 0 then ""
    else if |parts| == 1 then parts[0]
    else parts[0] + ", " + Join(parts[1..])
  }

  /** `str(v)`, the text an f-string inserts. */
  function Show(v: PyValue): string
    decreases v, 0
  {
    match v
    case PyNone => "None"
    case PyInt(i) => IntToDecimal(i)
    case PyStr(s) => s
    case PyTuple(elems) =>
      var parts := seq(|elems|, k requires 0 <= k < |elems| => Repr(elems[k]));
      if |elems| == 1 then "(" + parts[0] + ",)" else "(" + Join(parts) + ")"
  }

  /** `repr(v)`, the text a tuple shows for each element; a string is put
      between single quotes. */
  function Repr(v: PyValue): string
    decreases v, 1
  {
    if v.PyStr? then "'" + v.s + "'" else Show(v)
  }

  /** The text of the failed `assert` when the key is absent. */
  function NotFound(n: string, key: PyValue): string {
    "ERR: " + n + ": \"" + Show(key) + "\" not found."
  }

  /** The same text without quotes round the key, as the triple-keyed
      look-up writes it. */
  function NotFoundBare(n: string, key: PyValue): string {
    "ERR: " + n + ": " + Show(key) + " not found."
  }

  /** `ERR: <n>: Value <val>`, the first half of a bad-value text. */
  function ValuePart(n: string, val: PyValue): string {
    "ERR: " + n + ": Value " + Show(val)
  }

  /** The text of the `exit` when the stored value has the wrong shape. */
  function BadValue(n: string, val: PyValue, key: PyValue, what: string): string {
    ValuePart(n, val) + " for key \"" + Show(key) + "\" is not " + what + "."
  }

  function BadValueBare(n: string, val: PyValue, key: PyValue, what: string): string {
    ValuePart(n, val) + " for key " + Show(key) + " is not " + what + "."
  }

  /** The `TypeError` that `int()` raises on a tuple. */
  const IntOfTuple := "int() argument must be a string, a bytes-like object or a real number, not 'tuple'"

  /** The failed `assert` shared by all helpers: the key is absent or maps to
      `None`. */
  predicate Missing(d: PyDict, key: PyValue) {
    Get(d, key) == PyNone
  }

  /** `ExitOnNoDictVal`: the stored value; fails exactly when the key is
      missing. */
  function ExitOnNoDictVal(key: PyValue, d: PyDict, n: string): (r: Outcome<PyValue>)
    ensures r.Return? <==> key in d && d[key] != PyNone
    ensures r.Return? ==> r.value == d[key]
    ensures r.Raise? ==> r == Raise(AssertionError, NotFound(n, key))
  {
    var val := Get(d, key);
    if val == PyNone then Raise(AssertionError, NotFound(n, key)) else Return(val)
  }

  /** `int(val)` for the values `ExitOnNoIntVal` can meet: `None` for the
      `ValueError` it catches. */
  function IntOf(val: PyValue): Outcome<Option<int>>
    requires val != PyNone
  {
    match val
    case PyInt(i) => Return(Some(i))
    case PyStr(s) => Return(ParseInt(s, 10))
    case PyTuple(_) => Raise(TypeError, IntOfTuple)
  }

  /** `ExitOnNoIntVal`: an int is returned as it is; a string is converted
      with `int()` and the program exits when it is not a numeral; a tuple
      makes `int()` raise a `TypeError` that is not caught. */
  function ExitOnNoIntVal(key: PyValue, d: PyDict, n: string): (r: Outcome<int>)
    ensures r.Return? <==> key in d && (d[key].PyInt? || (d[key].PyStr? && ParseInt(d[key].s, 10).Some?))
    ensures r.Return? && d[key].PyInt? ==> r.value == d[key].i
    ensures r.Return? && d[key].PyStr? ==> ParseInt(d[key].s, 10) == Some(r.value)
    ensures Missing(d, key) ==> r == Raise(AssertionError, NotFound(n, key))
    ensures key in d && d[key].PyStr? && ParseInt(d[key].s, 10).None? ==>
      r == Raise(SystemExit, BadValue(n, d[key], key, "an integer"))
    ensures key in d && d[key].PyTuple? ==> r == Raise(TypeError, IntOfTuple)
  {
    var val := Get(d, key);
    if val == PyNone then Raise(AssertionError, NotFound(n, key))
    else
      var converted :- IntOf(val);
      match converted
      case Some(nRet) => Return(nRet)
      case None => Raise(SystemExit, BadValue(n, val, key, "an integer"))
  }

  /** A tuple of three ints, each in 0..255. */
  predicate IsRGBValue(v: PyValue) {
    && v.PyTuple? && |v.elems| == 3
    && (forall k :: 0 <= k < 3 ==> v.elems[k].PyInt? && 0 <= v.elems[k].i <= 255)
  }

  /** The Python tuple of a triple. */
  function PyOfRGB(rgb: RGB): PyValue {
    PyTuple([PyInt(rgb.0), PyInt(rgb.1), PyInt(rgb.2)])
  }

  /** `ExitOnNoRGBVal`: the stored triple if it is a valid RGB tuple. */
  function ExitOnNoRGBVal(key: PyValue, d: PyDict, n: string): (r: Outcome<RGB>)
    ensures r.Return? <==> key in d && IsRGBValue(d[key])
    ensures r.Return? ==> d[key] == PyOfRGB(r.value) && IsValid(r.value)
    ensures Missing(d, key) ==> r == Raise(AssertionError, NotFound(n, key))
    ensures key in d && d[key] != PyNone && !IsRGBValue(d[key]) ==>
      r == Raise(SystemExit, BadValue(n, d[key], key, "a valid RGB tuple"))
  {
    var val := Get(d, key);
    if val == PyNone then Raise(AssertionError, NotFound(n, key))
    else if !IsRGBValue(val) then Raise(SystemExit, BadValue(n, val, key, "a valid RGB tuple"))
    else
      var rgb := (val.elems[0].i, val.elems[1].i, val.elems[2].i);
      assert val == PyOfRGB(rgb) by {
        assert val.elems == [PyInt(rgb.0), PyInt(rgb.1), PyInt(rgb.2)];
      }
      Return(rgb)
  }

  /** `ExitOnNoStrVal`: the stored value if it is a string. */
  function ExitOnNoStrVal(key: PyValue, d: PyDict, n: string): (r: Outcome<string>)
    ensures r.Return? <==> key in d && d[key].PyStr?
    ensures r.Return? ==> d[key] == PyStr(r.value)
    ensures Missing(d, key) ==> r == Raise(AssertionError, NotFound(n, key))
    ensures key in d && d[key] != PyNone && !d[key].PyStr? ==>
      r == Raise(SystemExit, BadValue(n, d[key], key, "a string"))
  {
    var val := Get(d, key);
    if val == PyNone then Raise(AssertionError, NotFound(n, key))
    else if !val.PyStr? then Raise(SystemExit, BadValue(n, val, key, "a string"))
    else Return(val.s)
  }

  /** `ExitOnNoStrForRGB`: like `ExitOnNoStrVal` for a triple key, whose
      messages show the key without quotes. */
  function ExitOnNoStrForRGB(key: PyValue, d: PyDict, n: string): (r: Outcome<string>)
    ensures r.Return? <==> key in d && d[key].PyStr?
    ensures r.Return? ==> d[key] == PyStr(r.value)
    ensures Missing(d, key) ==> r == Raise(AssertionError, NotFoundBare(n, key))
    ensures key in d && d[key] != PyNone && !d[key].PyStr? ==>
      r == Raise(SystemExit, BadValueBare(n, d[key], key, "a string"))
  {
    var val := Get(d, key);
    if val == PyNone then Raise(AssertionError, NotFoundBare(n, key))
    else if !val.PyStr? then Raise(SystemExit, BadValueBare(n, val, key, "a string"))
    else Return(val.s)
  }

  /** A dictionary from names to ints, as Python objects. */
  function IntDict(m: map<string, int>): (d: PyDict)
    ensures forall k :: PyStr(k) in d <==> k in m
    ensures forall k :: k in m ==> d[PyStr(k)] == PyInt(m[k])
  {
    map k | k in m :: PyStr(k) := PyInt(m[k])
  }

  /** A dictionary from names to triples, as Python objects. */
  function RGBDict(m: map<string, RGB>): (d: PyDict)
    ensures forall k :: PyStr(k) in d <==> k in m
    ensures forall k :: k in m ==> d[PyStr(k)] == PyOfRGB(m[k])
  {
    map k | k in m :: PyStr(k) := PyOfRGB(m[k])
  }

  /** A stored int is read back; an absent name fails with the not-found
      text. */
  lemma IntLookup(m: map<string, int>, key: string, n: string)
    ensures key in m ==> ExitOnNoIntVal(PyStr(key), IntDict(m), n) == Return(m[key])
    ensures key !in m ==>
      ExitOnNoIntVal(PyStr(key), IntDict(m), n) == Raise(AssertionError, NotFound(n, PyStr(key)))
  {
  }

  /** A stored valid triple is read back; an absent name fails with the
      not-found text. */
  lemma RGBLookup(m: map<string, RGB>, key: string, n: string)
    requires key in m ==> IsValid(m[key])
    ensures key in m ==> ExitOnNoRGBVal(PyStr(key), RGBDict(m), n) == Return(m[key])
    ensures key !in m ==>
      ExitOnNoRGBVal(PyStr(key), RGBDict(m), n) == Raise(AssertionError, NotFound(n, PyStr(key)))
  {
    if key in m {
      var v := PyOfRGB(m[key]);
      assert v.elems[0] == PyInt(m[key].0) && v.elems[1] == PyInt(m[key].1) && v.elems[2] == PyInt(m[key].2);
      assert IsRGBValue(v);
    }
  }

  /** A number stored as its decimal text is read back as the number. */
  lemma DecimalTextAccepted(key: PyValue, d: PyDict, n: string, v: int)
    requires key in d && d[key] == PyStr(IntToDecimal(v))
    ensures ExitOnNoIntVal(key, d, n) == Return(v)
  {
    DecimalRoundTrip(v);
  }

  /** Every valid triple stored as a tuple is accepted, and nothing else
      is. */
  lemma RGBAcceptedExactly(key: PyValue, d: PyDict, n: string)
    ensures ExitOnNoRGBVal(key, d, n).Return? <==>
      exists rgb: RGB :: IsValid(rgb) && key in d && d[key] == PyOfRGB(rgb)
  {
    if key in d && IsRGBValue(d[key]) {
      var rgb := ExitOnNoRGBVal(key, d, n).value;
      assert IsValid(rgb) && d[key] == PyOfRGB(rgb);
    }
    if exists rgb: RGB :: IsValid(rgb) && key in d && d[key] == PyOfRGB(rgb) {
      var rgb: RGB :| IsValid(rgb) && key in d && d[key] == PyOfRGB(rgb);
      var v := PyOfRGB(rgb);
      assert v.elems[0] == PyInt(rgb.0) && v.elems[1] == PyInt(rgb.1) && v.elems[2] == PyInt(rgb.2);
    }
  }

  // The checks of the module's own script, on its dictionaries.

  lemma ScriptDictVal()
    ensures ExitOnNoDictVal(PyStr("a"),
      map[PyStr("a") := PyStr("1"), PyStr("b") := PyStr("2"), PyStr("c") := PyStr("3")], "my_dict")
      == Return(PyStr("1"))
  {
  }

  lemma ScriptRGBVal()
    ensures ExitOnNoRGBVal(PyStr("red"),
      map[PyStr("red") := PyOfRGB((255, 0, 0)), PyStr("green") := PyOfRGB((0, 255, 0)),
          PyStr("blue") := PyOfRGB((0, 0, 255))], "my_dict")
      == Return((255, 0, 0))
  {
    var d := map[PyStr("red") := PyOfRGB((255, 0, 0)), PyStr("green") := PyOfRGB((0, 255, 0)),
                 PyStr("blue") := PyOfRGB((0, 0, 255))];
    assert IsRGBValue(d[PyStr("red")]);
  }

  lemma NotIntegerText()
    ensures BadValue("my_dict", PyStr("abc"), PyStr("x"), "an integer")
      == "ERR: my_dict: Value abc for key \"x\" is not an integer."
  {
    assert ValuePart("my_dict", PyStr("abc")) == "ERR: my_dict: Value abc";
    NotIntegerTail();
  }

  lemma NotIntegerTail()
    ensures "ERR: my_dict: Value abc" + " for key \"" + "x" + "\" is not " + "an integer" + "."
      == "ERR: my_dict: Value abc for key \"x\" is not an integer."
  {
  }

  lemma ScriptIntVal()
    ensures ExitOnNoIntVal(PyStr("x"), map[PyStr("x") := PyStr("abc")], "my_dict")
      == Raise(SystemExit, "ERR: my_dict: Value abc for key \"x\" is not an integer.")
  {
    var t := "abc";
    assert !IsSpace(t[0]) && !IsSpace(t[2]);
    TrimmedAlready(t);
    assert DropPrefix(DropSign(t), 10) == t;
    assert !IsDigit(t[0], 10);
    assert ParseInt(t, 10) == None;
    NotIntegerText();
  }

  lemma ScriptStrVal()
    ensures ExitOnNoStrVal(PyStr("a"),
      map[PyStr("a") := PyStr("1"), PyStr("b") := PyStr("2"), PyStr("c") := PyStr("3")], "my_dict_str")
      == Return("1")
  {
  }

  lemma Decimal123()
    ensures Show(PyInt(123)) == "123"
  {
    assert NatToDecimal(1) == "1";
    assert NatToDecimal(12) == "12";
  }

  lemma NotStringText()
    ensures BadValue("my_dict_invalid", PyInt(123), PyStr("x"), "a string")
      == "ERR: my_dict_invalid: Value 123 for key \"x\" is not a string."
  {
    NotStringHead();
    NotStringTail();
  }

  lemma NotStringHead()
    ensures ValuePart("my_dict_invalid", PyInt(123)) == "ERR: my_dict_invalid: Value 123"
  {
    Decimal123();
  }

  lemma NotStringTail()
    ensures "ERR: my_dict_invalid: Value 123" + " for key \"" + "x" + "\" is not " + "a string" + "."
      == "ERR: my_dict_invalid: Value 123 for key \"x\" is not a string."
  {
  }

  lemma ScriptStrValInvalid()
    ensures ExitOnNoStrVal(PyStr("x"), map[PyStr("x") := PyInt(123)], "my_dict_invalid")
      == Raise(SystemExit, "ERR: my_dict_invalid: Value 123 for key \"x\" is not a string.")
  {
    NotStringText();
  }

  lemma ScriptStrForRGB()
    ensures ExitOnNoStrForRGB(PyOfRGB((255, 0, 0)),
      map[PyOfRGB((255, 0, 0)) := PyStr("red"), PyOfRGB((0, 255, 0)) := PyStr("green"),
          PyOfRGB((0, 0, 255)) := PyStr("blue")], "my_dict_rgb")
      == Return("red")
  {
  }

  lemma Decimal255()
    ensures Show(PyInt(255)) == "255"
  {
    assert NatToDecimal(2) == "2";
    assert NatToDecimal(25) == "25";
  }

  lemma JoinThree(a: string, b: string, c: string)
    ensures Join([a, b, c]) == a + ", " + b + ", " + c
  {
    assert [a, b, c][1..] == [b, c];
    assert [b, c][1..] == [c];
    assert Join([b, c]) == b + ", " + c;
    assert a + ", " + (b + ", " + c) == a + ", " + b + ", " + c;
  }

  /** `str((255, 255, 255))`. */
  lemma ShowWhite()
    ensures Show(PyOfRGB((255, 255, 255))) == "(255, 255, 255)"
  {
    Decimal255();
    var parts := seq(3, k requires 0 <= k < 3 => Repr(PyOfRGB((255, 255, 255)).elems[k]));
    assert parts == ["255", "255", "255"];
    JoinThree("255", "255", "255");
  }

  lemma MissingTripleText()
    ensures NotFoundBare("my_dict_rgb", PyOfRGB((255, 255, 255)))
      == "ERR: my_dict_rgb: (255, 255, 255) not found."
  {
    ShowWhite();
    MissingTripleHead();
    MissingTripleTail();
  }

  lemma MissingTripleHead()
    ensures "ERR: " + "my_dict_rgb" + ": " == "ERR: my_dict_rgb: "
  {
  }

  lemma MissingTripleTail()
    ensures "ERR: my_dict_rgb: " + "(255, 255, 255)" + " not found."
      == "ERR: my_dict_rgb: (255, 255, 255) not found."
  {
  }

  /** The script's last check: the triple `(255, 255, 255)` is missing, and
      the message is the expected one, but it comes from the `assert`, so the
      exception is an `AssertionError` and the script's `except SystemExit`
      does not catch it. */
  lemma ScriptMissingTriple()
    ensures ExitOnNoStrForRGB(PyOfRGB((255, 255, 255)),
      map[PyOfRGB((255, 0, 0)) := PyStr("red"), PyOfRGB((0, 255, 0)) := PyStr("green"),
          PyOfRGB((0, 0, 255)) := PyStr("blue")], "my_dict_rgb")
      == Raise(AssertionError, "ERR: my_dict_rgb: (255, 255, 255) not found.")
  {
    MissingTripleText();
  }
}
