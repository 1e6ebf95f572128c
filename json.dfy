/** The values `json.loads` produces, and the Python operations the core
    applies to them: truthiness, `==`, `v[key]`, `v.get(key, default)`,
    iteration (`for x in v`), `list.extend` and `str(v)`. A dict keeps its
    members in insertion order, as Python's does. JSON numbers are integers
    here. Each operation that can raise returns the Python exception it
    raises. */
module Json {
  import opened PyStr

  /** The exceptions of the Python code that the model keeps apart. */
  datatype PyError = KeyError | TypeError | AttributeError | IndexError | JSONDecodeError

  datatype Result<+T> = Ok(value: T) | Err(error: PyError) {
    predicate IsFailure() { Err? }
    function PropagateFailure<U>(): Result<U>
      requires Err?
    {
      Err(error)
    }
    function Extract(): T
      requires Ok?
    {
      value
    }
  }

  datatype Value =
    | Null
    | Bool(b: bool)
    | Num(n: int)
    | Str(s: string)
    | Arr(items: seq<Value>)
    | Obj(fields: seq<(string, Value)>)

  /** The position of `key` among a dict's members, if any. */
  function IndexOf(fields: seq<(string, Value)>, key: string): (r: int)
    ensures -1 <= r < |fields|
    ensures r >= 0 ==> fields[r].0 == key && forall j :: 0 <= j < r ==> fields[j].0 != key
    ensures r < 0 ==> forall j :: 0 <= j < |fields| ==> fields[j].0 != key
  {
    if fields == [] then -1
    else if fields[0].0 == key then 0
    else
      var r := IndexOf(fields[1..], key);
      if r < 0 then -1 else r + 1
  }

  predicate HasKey(v: Value, key: string) {
    v.Obj? && IndexOf(v.fields, key) >= 0
  }

  /** The value under a key the dict has. */
  function At(v: Value, key: string): Value
    requires HasKey(v, key)
  {
    v.fields[IndexOf(v.fields, key)].1
  }

  /** The value under a key, or `None` when there is none; used to state
      what a built dict holds. */
  function Member(v: Value, key: string): (r: Value)
    ensures HasKey(v, key) ==> r == At(v, key)
  {
    if HasKey(v, key) then At(v, key) else Null
  }

  /** The members of a dict after `d[key] = value`: an existing key keeps its
      place and takes the new value, a new key goes last. */
  function Assign(fields: seq<(string, Value)>, key: string, value: Value): (r: seq<(string, Value)>)
    ensures HasKey(Obj(r), key) && At(Obj(r), key) == value
    ensures forall k :: k != key ==> (IndexOf(r, k) >= 0 <==> IndexOf(fields, k) >= 0)
    ensures forall k :: k != key && IndexOf(fields, k) >= 0 ==> r[IndexOf(r, k)].1 == fields[IndexOf(fields, k)].1
  {
    if fields == [] then [(key, value)]
    else if fields[0].0 == key then [(key, value)] + fields[1..]
    else
      var rest := Assign(fields[1..], key, value);
      var r := [fields[0]] + rest;
      assert r[1..] == rest;
      assert forall k :: k != fields[0].0 ==> IndexOf(r, k) == (if IndexOf(rest, k) < 0 then -1 else IndexOf(rest, k) + 1);
      r
  }

  /** `bool(v)` */
  predicate Truthy(v: Value) {
    match v
    case Null => false
    case Bool(b) => b
    case Num(n) => n != 0
    case Str(s) => s != ""
    case Arr(items) => items != []
    case Obj(fields) => fields != []
  }

  /** Python `a == b`: `True == 1` and `False == 0`, and two dicts are equal
      when they hold the same keys with equal values, in whatever order. */
  predicate PyEq(a: Value, b: Value) {
    match (a, b)
    case (Null, Null) => true
    case (Bool(x), Bool(y)) => x == y
    case (Bool(x), Num(n)) => n == (if x then 1 else 0)
    case (Num(n), Bool(y)) => n == (if y then 1 else 0)
    case (Num(m), Num(n)) => m == n
    case (Str(s), Str(t)) => s == t
    case (Arr(xs), Arr(ys)) =>
      |xs| == |ys| && forall i :: 0 <= i < |xs| ==> PyEq(xs[i], ys[i])
    case (Obj(fs), Obj(gs)) =>
      (forall i :: 0 <= i < |fs| ==> IndexOf(gs, fs[i].0) >= 0)
      && (forall j :: 0 <= j < |gs| ==> IndexOf(fs, gs[j].0) >= 0)
      && (forall i, j :: 0 <= i < |fs| && 0 <= j < |gs| && fs[i].0 == gs[j].0 ==> PyEq(fs[i].1, gs[j].1))
    case _ => false
  }

  /** Python's `x in xs` on a list: some element is `x` itself or equals it. */
  predicate InList(x: Value, xs: seq<Value>) {
    exists i :: 0 <= i < |xs| && (xs[i] == x || PyEq(xs[i], x))
  }

  /** `v[key]` with a string key. */
  function Subscript(v: Value, key: string): (r: Result<Value>)
    ensures r.Ok? <==> HasKey(v, key)
    ensures r.Ok? ==> r.value == At(v, key)
    ensures r.Err? ==> r.error == (if v.Obj? then KeyError else TypeError)
  {
    match v
    case Obj(fields) =>
      var i := IndexOf(fields, key);
      if i >= 0 then Ok(fields[i].1) else Err(KeyError)
    case _ => Err(TypeError)
  }

  /** `v.get(key, default)`: only a dict has `get`. */
  function Get(v: Value, key: string, default: Value): (r: Result<Value>)
    ensures r.Ok? <==> v.Obj?
    ensures r.Ok? ==> r.value == if HasKey(v, key) then At(v, key) else default
    ensures r.Err? ==> r.error == AttributeError
  {
    match v
    case Obj(fields) =>
      var i := IndexOf(fields, key);
      if i >= 0 then Ok(fields[i].1) else Ok(default)
    case _ => Err(AttributeError)
  }

  function Chars(s: string): (r: seq<Value>)
    ensures |r| == |s|
    ensures forall i :: 0 <= i < |s| ==> r[i] == Str([s[i]])
  {
    seq(|s|, i requires 0 <= i < |s| => Str([s[i]]))
  }

  function Keys(fields: seq<(string, Value)>): (r: seq<Value>)
    ensures |r| == |fields|
    ensures forall i :: 0 <= i < |fields| ==> r[i] == Str(fields[i].0)
  {
    seq(|fields|, i requires 0 <= i < |fields| => Str(fields[i].0))
  }

  /** The elements `for x in v` visits: a list's items, a string's
      characters, a dict's keys; anything else is not iterable. */
  function Iterate(v: Value): (r: Result<seq<Value>>)
    ensures r.Ok? <==> (v.Arr? || v.Str? || v.Obj?)
    ensures v.Arr? ==> r == Ok(v.items)
    ensures r.Err? ==> r.error == TypeError
  {
    match v
    case Arr(items) => Ok(items)
    case Str(s) => Ok(Chars(s))
    case Obj(fields) => Ok(Keys(fields))
    case _ => Err(TypeError)
  }

  /** The list `xs` after `xs.extend(v)`. */
  function Extend(xs: seq<Value>, v: Value): (r: Result<seq<Value>>)
    ensures r.Ok? <==> Iterate(v).Ok?
    ensures r.Ok? ==> r.value == xs + Iterate(v).value
  {
    var more :- Iterate(v);
    Ok(xs + more)
  }

  /** Decimal digits of a natural number, as `str(n)` prints them. */
  function NatText(n: nat): (r: string)
    ensures r != []
    ensures forall i :: 0 <= i < |r| ==> '0' <= r[i] <= '9'
    decreases n
  {
    var d := ['0' + (n % 10) as char];
    if n < 10 then d else NatText(n / 10) + d
  }

  /** `repr` of a string: single quotes unless the text holds a single
      quote and no double quote; backslashes, the chosen quote and the
      line-control characters are escaped. */
  function QuoteText(s: string): string {
    var q := if '\'' in s && '"' !in s then '"' else '\'';
    [q] + Escaped(s, q) + [q]
  }

  function Escaped(s: string, q: char): string {
    if s == [] then ""
    else
      var c := s[0];
      var e :=
        if c == '\\' then "\\\\"
        else if c == q then ['\\', q]
        else if c == '\n' then "\\n"
        else if c == '\r' then "\\r"
        else if c == '\t' then "\\t"
        else [c];
      e + Escaped(s[1..], q)
  }

  /** `repr(v)`: what Python shows for an element inside a list or dict. */
  function Repr(v: Value): string {
    match v
    case Null => "None"
    case Bool(b) => if b then "True" else "False"
    case Num(n) => if n < 0 then "-" + NatText(-n) else NatText(n)
    case Str(s) => QuoteText(s)
    case Arr(items) => "[" + ReprItems(items) + "]"
    case Obj(fields) => "{" + ReprFields(fields) + "}"
  }

  function ReprItems(items: seq<Value>): string {
    if items == [] then ""
    else if |items| == 1 then Repr(items[0])
    else Repr(items[0]) + ", " + ReprItems(items[1..])
  }

  function ReprFields(fields: seq<(string, Value)>): string {
    if fields == [] then ""
    else
      var member := ReprMember(fields[0]);
      if |fields| == 1 then member else member + ", " + ReprFields(fields[1..])
  }

  function ReprMember(m: (string, Value)): string {
    QuoteText(m.0) + ": " + Repr(m.1)
  }

  /** `str(v)`, as an f-string interpolates it: a string is shown bare,
      everything else as its `repr`. */
  function Display(v: Value): (r: string)
    ensures v.Str? ==> r == v.s
  {
    if v.Str? then v.s else Repr(v)
  }

  /** Python equality is reflexive on the values `json.loads` builds, whose
      dicts never repeat a key. */
  predicate DistinctKeys(v: Value) {
    match v
    case Arr(items) => forall i :: 0 <= i < |items| ==> DistinctKeys(items[i])
    case Obj(fields) =>
      (forall i, j :: 0 <= i < j < |fields| ==> fields[i].0 != fields[j].0)
      && forall i :: 0 <= i < |fields| ==> DistinctKeys(fields[i].1)
    case _ => true
  }

  lemma {:induction false} PyEqReflexive(v: Value)
    requires DistinctKeys(v)
    ensures PyEq(v, v)
  {
    match v
    case Arr(items) =>
      forall i | 0 <= i < |items| ensures PyEq(items[i], items[i]) {
        PyEqReflexive(items[i]);
      }
    case Obj(fields) =>
      forall i | 0 <= i < |fields| ensures IndexOf(fields, fields[i].0) >= 0 {
      }
      forall i, j | 0 <= i < |fields| && 0 <= j < |fields| && fields[i].0 == fields[j].0
        ensures PyEq(fields[i].1, fields[j].1)
      {
        assert i == j;
        PyEqReflexive(fields[i].1);
      }
    case _ =>
  }

  /** Python equality is symmetric. */
  lemma {:induction false} PyEqSymmetric(a: Value, b: Value)
    requires PyEq(a, b)
    ensures PyEq(b, a)
  {
    match (a, b)
    case (Arr(xs), Arr(ys)) =>
      forall i | 0 <= i < |ys| ensures PyEq(ys[i], xs[i]) {
        PyEqSymmetric(xs[i], ys[i]);
      }
    case (Obj(fs), Obj(gs)) =>
      forall j, i | 0 <= j < |gs| && 0 <= i < |fs| && gs[j].0 == fs[i].0
        ensures PyEq(gs[j].1, fs[i].1)
      {
        PyEqSymmetric(fs[i].1, gs[j].1);
      }
    case _ =>
  }
}
