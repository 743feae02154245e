/** The Python values the three scripts handle (what `json.load` produces, plus
    `datetime.date`), and the few Python operations on them whose behaviour the
    scripts depend on: truthiness, `in`, `v[k]`, `v.get(k, d)`, `v[k] = x`,
    iteration, `str()` and `repr()`.  A dict is an ordered list of entries, as
    Python dicts keep insertion order. */
module Json {
  import opened Results
  import opened Text
  import opened Calendar

  datatype Value =
    | VNone
    | VBool(b: bool)
    | VInt(i: int)
    | VStr(s: string)
    | VList(items: seq<Value>)
    | VDict(entries: seq<Entry>)
    | VDate(date: Date)

  datatype Entry = Entry(key: string, value: Value)

  type Dict = seq<Entry>

  /** The exceptions the scripts can raise on a value; `msg` is `str(e)`. */
  datatype PyError =
    | TypeError(msg: string)
    | AttributeError(msg: string)
    | KeyError(msg: string)

  /** The type's name as CPython's messages print it (`str`, `dict`, `datetime.date`). */
  function TypeName(v: Value): string {
    match v
    case VNone => "NoneType"
    case VBool(_) => "bool"
    case VInt(_) => "int"
    case VStr(_) => "str"
    case VList(_) => "list"
    case VDict(_) => "dict"
    case VDate(_) => "datetime.date"
  }

  /** `bool(v)` */
  predicate Truthy(v: Value) {
    match v
    case VNone => false
    case VBool(b) => b
    case VInt(i) => i != 0
    case VStr(s) => s != ""
    case VList(xs) => xs != []
    case VDict(es) => es != []
    case VDate(_) => true
  }

  // ------------------------------------------------------------ dicts

  /** `k in d` */
  predicate HasKey(d: Dict, k: string) {
    d != [] && (d[0].key == k || HasKey(d[1..], k))
  }

  /** The value stored under `k`, if any. */
  function Lookup(d: Dict, k: string): (r: Option<Value>)
    ensures r.Some? <==> HasKey(d, k)
  {
    if d == [] then None
    else if d[0].key == k then Some(d[0].value)
    else Lookup(d[1..], k)
  }

  /** Where a present key's value sits. */
  lemma {:induction false} LookupIndex(d: Dict, k: string) returns (i: nat)
    requires HasKey(d, k)
    ensures i < |d| && d[i].key == k && Lookup(d, k) == Some(d[i].value)
  {
    if d[0].key == k {
      i := 0;
    } else {
      var j := LookupIndex(d[1..], k);
      i := j + 1;
    }
  }

  /** `d.get(k, default)` */
  function GetOr(d: Dict, k: string, default: Value): Value {
    match Lookup(d, k)
    case Some(v) => v
    case None => default
  }

  function Keys(d: Dict): (r: seq<string>)
    ensures |r| == |d| && forall i :: 0 <= i < |d| ==> r[i] == d[i].key
  {
    if d == [] then [] else [d[0].key] + Keys(d[1..])
  }

  function Values(d: Dict): (r: seq<Value>)
    ensures |r| == |d| && forall i :: 0 <= i < |d| ==> r[i] == d[i].value
  {
    seq(|d|, i requires 0 <= i < |d| => d[i].value)
  }

  /** `d[k] = v`: an existing key keeps its place, a new key goes last. */
  function Assign(d: Dict, k: string, v: Value): Dict {
    if d == [] then [Entry(k, v)]
    else if d[0].key == k then [Entry(k, v)] + d[1..]
    else [d[0]] + Assign(d[1..], k, v)
  }

  lemma {:induction false} LookupAssign(d: Dict, k: string, v: Value, j: string)
    ensures Lookup(Assign(d, k, v), j) == if j == k then Some(v) else Lookup(d, j)
  {
    if d != [] && d[0].key != k {
      LookupAssign(d[1..], k, v, j);
    }
  }

  /** Assigning to a key that is present changes no key and no position. */
  lemma {:induction false} AssignPresent(d: Dict, k: string, v: Value)
    requires HasKey(d, k)
    ensures Keys(Assign(d, k, v)) == Keys(d)
  {
    if d[0].key != k {
      AssignPresent(d[1..], k, v);
    } else {
      assert Assign(d, k, v)[1..] == d[1..];
    }
  }

  /** Assigning to a key that is absent appends one entry. */
  lemma {:induction false} AssignAbsent(d: Dict, k: string, v: Value)
    requires !HasKey(d, k)
    ensures Assign(d, k, v) == d + [Entry(k, v)]
  {
    if d != [] {
      AssignAbsent(d[1..], k, v);
      assert [d[0]] + (d[1..] + [Entry(k, v)]) == d + [Entry(k, v)];
    }
  }

  /** Storing the value a key already has leaves the dict as it was. */
  lemma {:induction false} AssignSame(d: Dict, k: string, v: Value)
    requires Lookup(d, k) == Some(v)
    ensures Assign(d, k, v) == d
  {
    if d[0].key != k {
      AssignSame(d[1..], k, v);
    } else {
      assert [Entry(k, v)] + d[1..] == d;
    }
  }

  // --------------------------------------------- operations on any value

  /** `k in v` for a string `k`. */
  function In(k: string, v: Value): Result<bool, PyError> {
    match v
    case VDict(es) => Ok(HasKey(es, k))
    case VStr(s) => Ok(Contains(s, k))
    case VList(xs) => Ok(VStr(k) in xs)
    case _ => Err(TypeError("argument of type '" + TypeName(v) + "' is not iterable"))
  }

  /** `v[k]` for a string `k`. */
  function Subscript(v: Value, k: string): Result<Value, PyError> {
    match v
    case VDict(es) =>
      (match Lookup(es, k)
       case Some(x) => Ok(x)
       case None => Err(KeyError(StrRepr(k))))
    case VStr(_) => Err(TypeError("string indices must be integers, not 'str'"))
    case VList(_) => Err(TypeError("list indices must be integers or slices, not str"))
    case _ => Err(TypeError("'" + TypeName(v) + "' object is not subscriptable"))
  }

  /** `v.get(k, default)` */
  function GetMethod(v: Value, k: string, default: Value): Result<Value, PyError> {
    if v.VDict? then Ok(GetOr(v.entries, k, default))
    else Err(AttributeError("'" + TypeName(v) + "' object has no attribute 'get'"))
  }

  /** `v.items()` */
  function ItemsMethod(v: Value): Result<Dict, PyError> {
    if v.VDict? then Ok(v.entries)
    else Err(AttributeError("'" + TypeName(v) + "' object has no attribute 'items'"))
  }

  /** `v[k] = x` for a string `k`; the new value of `v`. */
  function SetItem(v: Value, k: string, x: Value): Result<Value, PyError> {
    match v
    case VDict(es) => Ok(VDict(Assign(es, k, x)))
    case VList(_) => Err(TypeError("list indices must be integers or slices, not str"))
    case _ => Err(TypeError("'" + TypeName(v) + "' object does not support item assignment"))
  }

  /** The elements `for x in v` visits. */
  function Iterate(v: Value): Result<seq<Value>, PyError> {
    match v
    case VList(xs) => Ok(xs)
    case VStr(s) => Ok(seq(|s|, i requires 0 <= i < |s| => VStr([s[i]])))
    case VDict(es) => Ok(seq(|es|, i requires 0 <= i < |es| => VStr(es[i].key)))
    case _ => Err(TypeError("'" + TypeName(v) + "' object is not iterable"))
  }

  // --------------------------------------------------- str() and repr()

  function HexDigit(n: nat): char
    requires n < 16
  {
    "0123456789abcdef"[n]
  }

  /** How `repr` writes one character of a string quoted with `q`. */
  function EscapeChar(c: char, q: char): string {
    if c == '\\' then "\\\\"
    else if c == q then ['\\', q]
    else if c == '\n' then "\\n"
    else if c == '\r' then "\\r"
    else if c == '\t' then "\\t"
    else if c as int < 32 || c as int == 127 then
      "\\x" + [HexDigit(c as int / 16), HexDigit(c as int % 16)]
    else [c]
  }

  function EscapeAll(s: string, q: char): string {
    if s == [] then "" else EscapeChar(s[0], q) + EscapeAll(s[1..], q)
  }

  /** `repr(s)`: single quotes, unless the text has a single quote and no double one. */
  function StrRepr(s: string): string {
    var q := if '\'' in s && '"' !in s then '"' else '\'';
    [q] + EscapeAll(s, q) + [q]
  }

  function Repr(v: Value): string
    decreases v
  {
    match v
    case VNone => "None"
    case VBool(b) => if b then "True" else "False"
    case VInt(i) => IntToDec(i)
    case VStr(s) => StrRepr(s)
    case VList(xs) =>
      "[" + Join(seq(|xs|, i requires 0 <= i < |xs| => Repr(xs[i])), ", ") + "]"
    case VDict(es) =>
      "{" + Join(seq(|es|, i requires 0 <= i < |es| => StrRepr(es[i].key) + ": " + Repr(es[i].value)), ", ") + "}"
    case VDate(d) => DateRepr(d)
  }

  /** `str(v)`, which is also what an f-string inserts. */
  function Str(v: Value): string {
    match v
    case VStr(s) => s
    case VDate(d) => IsoFormat(d)
    case _ => Repr(v)
  }
}
