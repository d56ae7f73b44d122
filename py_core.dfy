/** The few Python built-ins the client core relies on, stated once so that the
    modules below can use them with their Python meaning: truthiness, `str()`,
    `str.join`, `str.split`, `str.replace`, `str.strip`/`lstrip`,
    `str.startswith`/`endswith`, and the exceptions the core can raise. */
module PyCore {

  /** A Python value as it can appear in a binding dict, a query-parameter dict
      or a keyword-argument dict. Floats, dicts and sets are not modelled. */
  datatype Value =
    | PyNone
    | PyBool(b: bool)
    | PyInt(i: int)
    | PyStr(s: string)
    | PyList(items: seq<Value>)
    | PyTuple(items: seq<Value>)

  /** The exceptions the core raises (or, for `InvalidUrl`, the error the
      transport raises when handed the `ValueError` value instead of a URL). */
  datatype Error =
    | KeyError(key: string)
    | TypeError(what: string)
    | AttributeError(name: string)
    | IndexError
    | ValueError(msg: string)
    | ValidationError(field: string)
    | InvalidUrl(url: string)
    | DecodeError
    | ConnectionError

  datatype Result<+T> = Ok(value: T) | Err(error: Error) {
    predicate IsFailure() { Err? }
    function PropagateFailure<U>(): Result<U> requires Err? { Err(error) }
    function Extract(): T requires Ok? { value }
  }

  /** Python's `bool(v)`. */
  predicate Truthy(v: Value) {
    match v
    case PyNone => false
    case PyBool(b) => b
    case PyInt(i) => i != 0
    case PyStr(s) => s != ""
    case PyList(xs) => xs != []
    case PyTuple(xs) => xs != []
  }

  /** `bool(x)` for an optional string (`None` and `''` are falsy). */
  predicate SomeText(x: Option<string>) {
    x.Some? && x.value != ""
  }

  datatype Option<+T> = None | Some(value: T)

  /** `d.get(k, default)`. */
  function DictGet(d: map<string, Value>, k: string, default: Value): Value {
    if k in d then d[k] else default
  }

  function DigitChar(d: nat): char
    requires d < 10
  {
    "0123456789"[d]
  }

  /** Decimal digits of a natural number, most significant first. */
  function NatToStr(n: nat): (r: string)
    ensures |r| >= 1
    ensures forall k :: 0 <= k < |r| ==> '0' <= r[k] <= '9'
    decreases n
  {
    if n < 10 then [DigitChar(n)] else NatToStr(n / 10) + [DigitChar(n % 10)]
  }

  function IntToStr(i: int): string {
    if i < 0 then "-" + NatToStr(-i) else NatToStr(i)
  }

  function PyBoolStr(b: bool): string {
    if b then "True" else "False"
  }

  /** Python's `str(v)`. The repr of a string inside a list is written with
      single quotes and no escaping. */
  function ToStr(v: Value): string
    decreases v, 1
  {
    match v
    case PyNone => "None"
    case PyBool(b) => PyBoolStr(b)
    case PyInt(i) => IntToStr(i)
    case PyStr(s) => s
    case PyList(xs) => "[" + Join(", ", ReprItems(v, xs)) + "]"
    case PyTuple(xs) =>
      "(" + Join(", ", ReprItems(v, xs)) + (if |xs| == 1 then ",)" else ")")
  }

  function Repr(v: Value): string
    decreases v, 2
  {
    if v.PyStr? then "'" + v.s + "'" else ToStr(v)
  }

  function ReprItems(container: Value, xs: seq<Value>): (r: seq<string>)
    requires (container.PyList? || container.PyTuple?) && xs == container.items
    ensures |r| == |xs|
    decreases container, 0
  {
    seq(|xs|, k requires 0 <= k < |xs| => Repr(xs[k]))
  }

  /** `sep.join(xs)`. */
  function Join(sep: string, xs: seq<string>): string {
    if xs == [] then ""
    else if |xs| == 1 then xs[0]
    else xs[0] + sep + Join(sep, xs[1..])
  }

  /** `sub` occurs in `s` starting at position `j`. */
  predicate OccursAt(s: string, sub: string, j: nat) {
    j + |sub| <= |s| && s[j..j + |sub|] == sub
  }

  lemma OccursShift(s: string, sub: string, j: nat)
    requires s != []
    ensures OccursAt(s[1..], sub, j) <==> OccursAt(s, sub, j + 1)
  {
    if j + 1 + |sub| <= |s| {
      assert s[1..][j..j + |sub|] == s[j + 1..j + 1 + |sub|];
    }
  }

  lemma OccursShiftAll(s: string, sub: string)
    requires s != []
    ensures forall j: nat :: j >= 1 ==> (OccursAt(s, sub, j) <==> OccursAt(s[1..], sub, j - 1))
  {
    forall j: nat | j >= 1 ensures OccursAt(s, sub, j) <==> OccursAt(s[1..], sub, j - 1) {
      OccursShift(s, sub, j - 1);
    }
  }

  lemma OccursChar(s: string, c: char, j: nat)
    ensures OccursAt(s, [c], j) <==> j < |s| && s[j] == c
  {
    if j < |s| {
      assert s[j..j + 1] == [s[j]];
    }
  }

  /** Index of the first occurrence of `sub` in `s` (`str.find`), if any. */
  function IndexOf(s: string, sub: string): (r: Option<nat>)
    requires sub != []
    ensures r.Some? ==> OccursAt(s, sub, r.value)
    ensures r.Some? ==> forall j: nat :: j < r.value ==> !OccursAt(s, sub, j)
    ensures r.None? ==> forall j: nat :: !OccursAt(s, sub, j)
    decreases |s|
  {
    if |s| < |sub| then None
    else if s[..|sub|] == sub then Some(0)
    else
      match IndexOf(s[1..], sub)
      case None =>
        OccursShiftAll(s, sub);
        None
      case Some(i) =>
        OccursShiftAll(s, sub);
        Some(i + 1)
  }

  /** `s.split(sep)` for a non-empty separator: at least one piece, and the
      pieces joined with `sep` give back `s`. */
  function Split(s: string, sep: string): (r: seq<string>)
    requires sep != []
    ensures |r| >= 1
    decreases |s|
  {
    match IndexOf(s, sep)
    case None => [s]
    case Some(i) => [s[..i]] + Split(s[i + |sep|..], sep)
  }

  /** `s.replace(pat, repl)`: every non-overlapping occurrence, left to right. */
  function ReplaceAll(s: string, pat: string, repl: string): string
    requires pat != []
    decreases |s|
  {
    if |s| < |pat| then s
    else if s[..|pat|] == pat then repl + ReplaceAll(s[|pat|..], pat, repl)
    else [s[0]] + ReplaceAll(s[1..], pat, repl)
  }

  /** `s.lstrip(c)`. */
  function LStrip(s: string, c: char): (r: string)
    ensures r == [] || r[0] != c
    ensures |r| <= |s| && s[|s| - |r|..] == r
    ensures forall k :: 0 <= k < |s| - |r| ==> s[k] == c
  {
    if s != [] && s[0] == c then LStrip(s[1..], c) else s
  }

  /** `s.rstrip(c)`. */
  function RStrip(s: string, c: char): (r: string)
    ensures r == [] || r[|r| - 1] != c
    ensures |r| <= |s| && s[..|r|] == r
    ensures forall k :: |r| <= k < |s| ==> s[k] == c
  {
    if s != [] && s[|s| - 1] == c then RStrip(s[..|s| - 1], c) else s
  }

  /** `s.strip(c)`. */
  function Strip(s: string, c: char): string {
    RStrip(LStrip(s, c), c)
  }

  predicate EndsWith(s: string, suffix: string) {
    |suffix| <= |s| && s[|s| - |suffix|..] == suffix
  }

  // ---------------------------------------------------------------------
  // Properties of the built-ins that the client core leans on.

  /** Splitting `a + sep + b` on `sep` cuts at the separator that follows `a`
      when `a` holds no occurrence of the one-character separator. */
  lemma {:induction false} SplitAtFirst(a: string, c: char, b: string)
    requires c !in a
    ensures Split(a + [c] + b, [c]) == [a] + Split(b, [c])
  {
    var s := a + [c] + b;
    OccursChar(s, c, |a|);
    var r := IndexOf(s, [c]);
    OccursChar(s, c, r.value);
    assert s[..|a|] == a;
    assert s[|a| + 1..] == b;
  }

  /** `s.split(c)` undoes `c.join(xs)` for a non-empty list of pieces that do
      not contain `c`: the comma-joined form of a query parameter list can be
      read back piece by piece. */
  lemma {:induction false} SplitJoinRoundTrip(xs: seq<string>, c: char)
    requires xs != []
    requires forall k :: 0 <= k < |xs| ==> c !in xs[k]
    ensures Split(Join([c], xs), [c]) == xs
    decreases |xs|
  {
    if |xs| == 1 {
      var r := IndexOf(xs[0], [c]);
      if r.Some? {
        OccursChar(xs[0], c, r.value);
      }
    } else {
      SplitAtFirst(xs[0], c, Join([c], xs[1..]));
      SplitJoinRoundTrip(xs[1..], c);
      assert [xs[0]] + xs[1..] == xs;
    }
  }

  /** `str.replace` leaves a string unchanged when the pattern does not occur. */
  lemma {:induction false} ReplaceAbsent(s: string, pat: string, repl: string)
    requires pat != []
    requires IndexOf(s, pat).None?
    ensures ReplaceAll(s, pat, repl) == s
    decreases |s|
  {
    if |s| >= |pat| {
      assert !OccursAt(s, pat, 0);
      assert IndexOf(s[1..], pat).None? by {
        forall j: nat ensures !OccursAt(s[1..], pat, j) {
          OccursShift(s, pat, j);
        }
      }
      ReplaceAbsent(s[1..], pat, repl);
      assert [s[0]] + s[1..] == s;
    }
  }
}
