/**
 * `CustomAssertions` of mobile/src/utils/assertions.py. Each helper builds its
 * failure text, then tests one condition; it returns `None` when the
 * condition holds and raises `AssertionError` with that text otherwise.
 * Building the text calls `str()` on the arguments, which raises `ValueError`
 * for an integer of more than 4300 digits before anything is tested.
 * Arguments are drawn from a small universe of Python values.
 */
module Assertions {
  import opened Outcomes
  import opened Text

  datatype PyValue =
    | PyNone
    | PyBool(b: bool)
    | PyInt(i: int)
    | PyStr(s: string)
    | PyList(items: seq<PyValue>)

  /** `bool(v)`. */
  predicate Truthy(v: PyValue) {
    match v
    case PyNone => false
    case PyBool(b) => b
    case PyInt(i) => i != 0
    case PyStr(s) => s != ""
    case PyList(items) => items != []
  }

  /** `bool` is a subclass of `int`: True and False compare as 1 and 0. */
  function Numeric(v: PyValue): Option<int> {
    match v
    case PyBool(b) => Some(if b then 1 else 0)
    case PyInt(i) => Some(i)
    case _ => None
  }

  /** Python's `a == b` on these values. */
  predicate Equals(a: PyValue, b: PyValue)
    decreases a
  {
    match a
    case PyNone => b.PyNone?
    case PyStr(x) => b.PyStr? && b.s == x
    case PyList(xs) => b.PyList? && ListEquals(xs, b.items)
    case _ => Numeric(b).Some? && Numeric(b) == Numeric(a)
  }

  /** List equality: same length and equal elements, pairwise. */
  predicate ListEquals(xs: seq<PyValue>, ys: seq<PyValue>)
    decreases xs
  {
    if xs == [] then ys == []
    else ys != [] && Equals(xs[0], ys[0]) && ListEquals(xs[1..], ys[1..])
  }

  lemma {:induction false} EqualsReflexive(a: PyValue)
    ensures Equals(a, a)
    decreases a, 1
  {
    if a.PyList? {
      ListEqualsReflexive(a.items);
    }
  }

  lemma {:induction false} ListEqualsReflexive(xs: seq<PyValue>)
    ensures ListEquals(xs, xs)
    decreases xs, 0
  {
    if xs != [] {
      EqualsReflexive(xs[0]);
      ListEqualsReflexive(xs[1..]);
    }
  }

  lemma {:induction false} EqualsSymmetric(a: PyValue, b: PyValue)
    ensures Equals(a, b) <==> Equals(b, a)
    decreases a, 1
  {
    if a.PyList? && b.PyList? {
      ListEqualsSymmetric(a.items, b.items);
    }
  }

  lemma {:induction false} ListEqualsSymmetric(xs: seq<PyValue>, ys: seq<PyValue>)
    ensures ListEquals(xs, ys) <==> ListEquals(ys, xs)
    decreases xs, 0
  {
    if xs != [] && ys != [] {
      EqualsSymmetric(xs[0], ys[0]);
      ListEqualsSymmetric(xs[1..], ys[1..]);
    }
  }

  /** `type(v).__name__`. */
  function TypeName(v: PyValue): string {
    match v
    case PyNone => "NoneType"
    case PyBool(_) => "bool"
    case PyInt(_) => "int"
    case PyStr(_) => "str"
    case PyList(_) => "list"
  }

  /** `str(v)` returns: every integer in `v`, at any depth, has at most 4300 digits. */
  predicate Printable(v: PyValue)
    decreases v
  {
    match v
    case PyInt(i) => FitsStr(i)
    case PyList(items) => forall k :: 0 <= k < |items| ==> Printable(items[k])
    case _ => true
  }

  /** `str(v)`, as an f-string renders it. */
  function Str(v: PyValue): string
    requires Printable(v)
    decreases v, 0
  {
    match v
    case PyNone => "None"
    case PyBool(b) => if b then "True" else "False"
    case PyInt(i) => IntToString(i)
    case PyStr(s) => s
    case PyList(items) => "[" + Join(seq(|items|, k requires 0 <= k < |items| => Repr(items[k]))) + "]"
  }

  /** `repr(v)`: strings are quoted, everything else reads as `str(v)`. */
  function Repr(v: PyValue): string
    requires Printable(v)
    decreases v, 1
  {
    if v.PyStr? then "'" + v.s + "'" else Str(v)
  }

  /** `", ".join(parts)`. */
  function Join(parts: seq<string>): string {
    if parts == [] then "" else if |parts| == 1 then parts[0] else parts[0] + ", " + Join(parts[1..])
  }

  /** `sub` occurs in `hay` starting at offset `i`. */
  predicate OccursAt(sub: string, hay: string, i: int) {
    0 <= i <= |hay| - |sub| && hay[i..i + |sub|] == sub
  }

  /** `sub in hay` for two strings, scanning offsets left to right. */
  predicate IsSubstring(sub: string, hay: string) {
    if |sub| > |hay| then false else hay[..|sub|] == sub || IsSubstring(sub, hay[1..])
  }

  lemma {:induction false} IsSubstringAt(sub: string, hay: string)
    ensures IsSubstring(sub, hay) <==> exists i :: OccursAt(sub, hay, i)
  {
    if |sub| <= |hay| {
      if hay[..|sub|] == sub {
        assert OccursAt(sub, hay, 0);
      } else {
        IsSubstringAt(sub, hay[1..]);
        if IsSubstring(sub, hay[1..]) {
          var i :| OccursAt(sub, hay[1..], i);
          assert hay[i + 1..i + 1 + |sub|] == hay[1..][i..i + |sub|];
          assert OccursAt(sub, hay, i + 1);
        }
        if exists i :: OccursAt(sub, hay, i) {
          var i :| OccursAt(sub, hay, i);
          assert i != 0;
          assert hay[1..][i - 1..i - 1 + |sub|] == hay[i..i + |sub|];
          assert OccursAt(sub, hay[1..], i - 1);
        }
      }
    }
  }

  /** `item in items` for a list: some element equals the item. */
  predicate ListContains(items: seq<PyValue>, item: PyValue) {
    items != [] && (Equals(items[0], item) || ListContains(items[1..], item))
  }

  lemma {:induction false} ListContainsSomeElement(items: seq<PyValue>, item: PyValue)
    ensures ListContains(items, item) <==> exists k :: 0 <= k < |items| && Equals(items[k], item)
  {
    if items != [] {
      ListContainsSomeElement(items[1..], item);
      if exists k :: 0 <= k < |items| && Equals(items[k], item) {
        var k :| 0 <= k < |items| && Equals(items[k], item);
        if k > 0 {
          assert items[1..][k - 1] == items[k];
        }
      }
    }
  }

  /** `item in container`: a list or a string container, `TypeError` for anything else. */
  function Contains(item: PyValue, container: PyValue): Outcome<bool> {
    match container
    case PyList(items) => Ok(ListContains(items, item))
    case PyStr(hay) =>
      if item.PyStr? then Ok(IsSubstring(item.s, hay))
      else Raised(TypeError("'in <string>' requires string as left operand, not " + TypeName(item)))
    case _ => Raised(TypeError("argument of type '" + TypeName(container) + "' is not iterable"))
  }

  /** The failure text: the default text, prefixed by `message + ": "` when a message is given. */
  function Compose(message: string, default: string): string {
    if message != "" then message + ": " + default else default
  }

  /** The composed text always ends with the default text, and carries the message in front iff one is given. */
  lemma ComposeKeepsDefault(message: string, default: string)
    ensures var t := Compose(message, default);
      && |t| >= |default|
      && t[|t| - |default|..] == default
      && (t == default <==> message == "")
      && (message != "" ==> t[..|message| + 2] == message + ": ")
  {
  }

  /** `assert <condition>, <text>` once the text is built. */
  function Check(condition: bool, message: string, default: string): (r: Outcome<()>)
    ensures r.Ok? <==> condition
    ensures r.Raised? ==> r.error == AssertionError(Compose(message, default))
  {
    if condition then Done else Raised(AssertionError(Compose(message, default)))
  }

  /** `assert_equal(actual, expected, message)`: the text names `expected`, then `actual`. */
  function AssertEqual(actual: PyValue, expected: PyValue, message: string): Outcome<()> {
    if Printable(expected) && Printable(actual) then
      Check(Equals(actual, expected), message, "Expected " + Str(expected) + ", but got " + Str(actual))
    else Raised(StrLimitError)
  }

  /** `assert_true(condition, message)`: passes only for `True` itself (`condition is True`). */
  function AssertTrue(condition: PyValue, message: string): Outcome<()> {
    Check(condition == PyBool(true), message, "Expected condition to be True, but was False")
  }

  /** `assert_false(condition, message)`: passes only for `False` itself (`condition is False`). */
  function AssertFalse(condition: PyValue, message: string): Outcome<()> {
    Check(condition == PyBool(false), message, "Expected condition to be False, but was True")
  }

  /**
   * `assert_in(item, container, message)`: the text is built first; then a
   * `TypeError` from `in` propagates instead of an `AssertionError`.
   */
  function AssertIn(item: PyValue, container: PyValue, message: string): Outcome<()> {
    if Printable(item) && Printable(container) then
      var text := "Expected " + Str(item) + " to be in " + Str(container);
      var found :- Contains(item, container);
      Check(found, message, text)
    else Raised(StrLimitError)
  }

  /** `assert_not_none(value, message)`. */
  function AssertNotNone(value: PyValue, message: string): Outcome<()> {
    Check(!value.PyNone?, message, "Expected value to not be None")
  }

  /**
   * `assert_equal` passes iff both values can be written by `str()` and
   * compare equal, in either order, and so passes on a printable value
   * compared with itself. Otherwise it raises the `ValueError` of `str()`,
   * even for equal values, or an `AssertionError` whose text names the
   * expected value first.
   */
  lemma AssertEqualSpec(actual: PyValue, expected: PyValue, message: string)
    ensures AssertEqual(actual, expected, message) == Done <==>
      Printable(actual) && Printable(expected) && Equals(actual, expected)
    ensures AssertEqual(actual, expected, message).Ok? <==> AssertEqual(expected, actual, message).Ok?
    ensures AssertEqual(actual, actual, message) == Done <==> Printable(actual)
    ensures !Printable(actual) || !Printable(expected) ==> AssertEqual(actual, expected, message) == Raised(StrLimitError)
    ensures Printable(actual) && Printable(expected) && AssertEqual(actual, expected, message).Raised? ==>
      AssertEqual(actual, expected, message).error ==
        AssertionError(Compose(message, "Expected " + Str(expected) + ", but got " + Str(actual)))
  {
    EqualsSymmetric(actual, expected);
    EqualsReflexive(actual);
  }

  /** An integer of 4301 digits fails `assert_equal` against itself: its text cannot be built. */
  lemma AssertEqualPastLimit()
    ensures AssertEqual(PyInt(Pow10(MaxStrDigits)), PyInt(Pow10(MaxStrDigits)), "") == Raised(StrLimitError)
  {
    FitsStrBound(Pow10(MaxStrDigits));
  }

  /** `True == 1` in Python, so comparing True with 1 passes `assert_equal`. */
  lemma AssertEqualTrueAndOne()
    ensures AssertEqual(PyBool(true), PyInt(1), "") == Done
    ensures AssertEqual(PyList([PyInt(0)]), PyList([PyBool(false)]), "") == Done
  {
  }

  /**
   * `assert_true` checks identity with True, not truthiness: whatever it
   * accepts is truthy, but truthy values such as 1 or "x" fail it, with the
   * fixed text.
   */
  lemma AssertTrueIsIdentity(condition: PyValue)
    ensures AssertTrue(condition, "").Ok? <==> condition == PyBool(true)
    ensures AssertTrue(condition, "").Ok? ==> Truthy(condition)
    ensures Truthy(PyInt(1)) && AssertTrue(PyInt(1), "").Raised?
    ensures Truthy(PyStr("x")) && AssertTrue(PyStr("x"), "") == Raised(AssertionError("Expected condition to be True, but was False"))
  {
  }

  /** `assert_false` checks identity with False: falsy values 0, None and "" fail it. */
  lemma AssertFalseIsIdentity(condition: PyValue)
    ensures AssertFalse(condition, "").Ok? <==> condition == PyBool(false)
    ensures AssertFalse(condition, "").Ok? ==> !Truthy(condition)
    ensures !Truthy(PyInt(0)) && AssertFalse(PyInt(0), "").Raised?
    ensures !Truthy(PyNone) && AssertFalse(PyNone, "").Raised?
    ensures !Truthy(PyStr("")) && AssertFalse(PyStr(""), "").Raised?
  {
  }

  /**
   * `assert_in` on a list passes iff some element equals the item, on a
   * string iff the item is a string occurring in it, provided both arguments
   * can be written by `str()`. Any other pairing raises `TypeError`, not
   * `AssertionError`; an argument `str()` cannot write raises its
   * `ValueError` first, whatever the container.
   */
  lemma AssertInSpec(item: PyValue, container: PyValue, message: string)
    ensures container.PyList? ==>
      (AssertIn(item, container, message) == Done <==>
         Printable(item) && Printable(container) &&
         exists k :: 0 <= k < |container.items| && Equals(container.items[k], item))
    ensures container.PyStr? && item.PyStr? ==>
      (AssertIn(item, container, message) == Done <==>
         exists i :: OccursAt(item.s, container.s, i))
    ensures !Printable(item) || !Printable(container) ==> AssertIn(item, container, message) == Raised(StrLimitError)
    ensures (Printable(item) && Printable(container) &&
      ((container.PyStr? && !item.PyStr?) || container.PyNone? || container.PyBool? || container.PyInt?)) ==>
      AssertIn(item, container, message).Raised? && AssertIn(item, container, message).error.TypeError?
    ensures (Printable(item) && Printable(container) &&
      AssertIn(item, container, message).Raised? && AssertIn(item, container, message).error.AssertionError?) ==>
      AssertIn(item, container, message).error.message ==
        Compose(message, "Expected " + Str(item) + " to be in " + Str(container))
  {
    if container.PyList? {
      ListContainsSomeElement(container.items, item);
    }
    if container.PyStr? && item.PyStr? {
      IsSubstringAt(item.s, container.s);
    }
  }

  /** `assert_not_none` raises iff the value is None; 0, False and "" pass. */
  lemma AssertNotNoneSpec(value: PyValue, message: string)
    ensures AssertNotNone(value, message).Raised? <==> value == PyNone
    ensures AssertNotNone(PyInt(0), message) == Done && AssertNotNone(PyStr(""), message) == Done
    ensures AssertNotNone(PyNone, "") == Raised(AssertionError("Expected value to not be None"))
  {
  }
}
