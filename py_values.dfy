/**
 * Python values as the Byteflow adapter sees them: decoded JSON, optional
 * strings, Python truthiness, the `or` operator, and `str()` of a value.
 */
module PyValues {

  datatype Option<+T> = None | Some(value: T)

  /**
   * A value decoded by Python's json module. Objects keep their keys in
   * insertion order, as Python dicts do; numbers are restricted to integers.
   */
  datatype Json =
    | JNull
    | JBool(b: bool)
    | JNum(n: int)
    | JStr(s: string)
    | JList(items: seq<Json>)
    | JObj(fields: seq<(string, Json)>)

  /** Python truthiness of a decoded value: `bool(x)`. */
  predicate Truthy(j: Json) {
    match j
    case JNull => false
    case JBool(b) => b
    case JNum(n) => n != 0
    case JStr(s) => s != ""
    case JList(items) => items != []
    case JObj(fields) => fields != []
  }

  /** Truthiness of an `Optional[str]`: both `None` and `""` are falsy. */
  predicate Present(s: Option<string>) {
    s.Some? && s.value != ""
  }

  /** Python's `a or b` on two optional strings. */
  function Or(a: Option<string>, b: Option<string>): (r: Option<string>)
    ensures Present(r) <==> Present(a) || Present(b)
    ensures Present(a) ==> r == a
    ensures !Present(a) ==> r == b
  {
    if Present(a) then a else b
  }

  /** Python's `a or default` where the default is a literal string. */
  function OrDefault(a: Option<string>, default: string): (r: string)
    ensures default != "" ==> r != ""
    ensures Present(a) ==> r == a.value
    ensures !Present(a) ==> r == default
  {
    if Present(a) then a.value else default
  }

  /** An optional string as a JSON value: `None` becomes null. */
  function OptionalText(s: Option<string>): (j: Json)
    ensures Truthy(j) <==> Present(s)
  {
    match s
    case None => JNull
    case Some(t) => JStr(t)
  }

  /** How an f-string renders an `Optional[str]`: `None` prints as "None". */
  function Render(s: Option<string>): string {
    match s
    case None => "None"
    case Some(t) => t
  }

  /** The value stored under `key` in an object; a repeated key keeps its last value. */
  function Get(fields: seq<(string, Json)>, key: string): (r: Option<Json>)
    decreases |fields|
  {
    if fields == [] then None
    else if fields[|fields| - 1].0 == key then Some(fields[|fields| - 1].1)
    else Get(fields[..|fields| - 1], key)
  }

  /** Adding an entry at the end makes it the value of its key and leaves the other keys as they were. */
  lemma GetAfterAppend(fields: seq<(string, Json)>, entry: (string, Json))
    ensures forall key :: Get(fields + [entry], key) == if entry.0 == key then Some(entry.1) else Get(fields, key)
  {
    assert (fields + [entry])[..|fields|] == fields;
  }

  /** The keys of an object, in order. */
  function Keys(fields: seq<(string, Json)>): (ks: seq<string>)
    ensures |ks| == |fields|
    ensures forall i :: 0 <= i < |fields| ==> ks[i] == fields[i].0
  {
    if fields == [] then [] else [fields[0].0] + Keys(fields[1..])
  }

  /** Decimal digits of a natural number. */
  function NatStr(n: nat): (s: string)
    ensures s != []
    ensures forall i :: 0 <= i < |s| ==> '0' <= s[i] <= '9'
  {
    if n < 10 then [Digit(n)] else NatStr(n / 10) + [Digit(n % 10)]
  }

  function Digit(d: nat): (c: char)
    requires d < 10
    ensures '0' <= c <= '9'
  {
    "0123456789"[d]
  }

  /** Python's `str(n)` for an integer. */
  function IntStr(n: int): (s: string)
    ensures s != []
  {
    if n < 0 then "-" + NatStr(-n) else NatStr(n)
  }

  /**
   * Python's `str(x)`: a string is itself, every other value its repr.
   * Quote escaping inside reprs is not modelled.
   */
  function PyStr(j: Json): (r: string)
    ensures j.JStr? ==> r == j.s
    ensures !j.JStr? ==> r != ""
    ensures j.JNull? ==> r == "None"
    ensures j.JBool? ==> r == (if j.b then "True" else "False")
    ensures j.JNum? ==> r == IntStr(j.n)
  {
    if j.JStr? then j.s else Repr(j)
  }

  /** Python's `repr(x)`: never empty, since even `''`, `[]` and `{}` have text. */
  function Repr(j: Json): (r: string)
    ensures r != ""
  {
    match j
    case JNull => "None"
    case JBool(b) => if b then "True" else "False"
    case JNum(n) => IntStr(n)
    case JStr(s) => "'" + s + "'"
    case JList(items) => "[" + ReprItems(items) + "]"
    case JObj(fields) => "{" + ReprFields(fields) + "}"
  }

  function ReprItems(items: seq<Json>): string {
    if items == [] then ""
    else if |items| == 1 then Repr(items[0])
    else Repr(items[0]) + ", " + ReprItems(items[1..])
  }

  function ReprFields(fields: seq<(string, Json)>): string {
    if fields == [] then ""
    else
      var (key, value) := fields[0];
      assert value < fields[0];
      var entry := "'" + key + "': " + Repr(value);
      if |fields| == 1 then entry else entry + ", " + ReprFields(fields[1..])
  }

  /** `t` occurs in `s` starting at index `i`. */
  predicate OccursAt(t: string, s: string, i: nat) {
    i + |t| <= |s| && s[i..i + |t|] == t
  }

  /** Python's `t in s` on strings. */
  predicate Contains(s: string, t: string) {
    exists i: nat :: i <= |s| && OccursAt(t, s, i)
  }

  predicate StartsWith(s: string, prefix: string) {
    |prefix| <= |s| && s[..|prefix|] == prefix
  }

  lemma ContainsMiddle(a: string, t: string, b: string)
    ensures Contains(a + t + b, t)
  {
    assert (a + t + b)[|a|..|a| + |t|] == t;
    assert OccursAt(t, a + t + b, |a|);
  }

  lemma ContainsEnd(a: string, t: string)
    ensures Contains(a + t, t)
  {
    assert (a + t)[|a|..|a| + |t|] == t;
    assert OccursAt(t, a + t, |a|);
  }

  lemma StartsWithConcat(p: string, rest: string)
    ensures StartsWith(p + rest, p)
  {
    assert (p + rest)[..|p|] == p;
  }

  lemma StartsWithExtend(s: string, prefix: string, more: string)
    requires StartsWith(s, prefix)
    ensures StartsWith(s + more, prefix)
  {
    assert (s + more)[..|prefix|] == s[..|prefix|];
  }

  lemma ContainsExtend(s: string, t: string, more: string)
    requires Contains(s, t)
    ensures Contains(s + more, t)
  {
    var i: nat :| i <= |s| && OccursAt(t, s, i);
    assert (s + more)[i..i + |t|] == s[i..i + |t|];
    assert OccursAt(t, s + more, i);
  }

  /** A string whose i-th character differs from that of `q` does not start with `q`. */
  lemma NotStartsWith(s: string, q: string, i: nat)
    requires i < |s| && i < |q| && s[i] != q[i]
    ensures !StartsWith(s, q)
  {
    if |q| <= |s| {
      assert s[..|q|][i] == s[i];
    }
  }
}
