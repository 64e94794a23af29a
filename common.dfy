/** Shared vocabulary: optional values, promise outcomes, the JavaScript values a
    request body field can hold, and the few string operations the backend and
    the dashboard apply to timestamps. */
module Common {

  /** A value that may be absent (JavaScript `undefined`, SQL `NULL`). */
  datatype Option<T> = None | Some(value: T)

  /** How a promise settles: resolved with a value, or rejected. */
  datatype Outcome<T> = Resolved(value: T) | Rejected

  /** The JavaScript values a JSON request body field can carry. NaN is not
      modelled: every number is a real. Objects and arrays are not modelled. */
  datatype JsValue = Undefined | Null | Bool(b: bool) | Num(n: real) | Str(s: string)

  /** JavaScript truthiness (`!!v`). */
  predicate Truthy(v: JsValue)
  {
    match v
    case Undefined => false
    case Null => false
    case Bool(b) => b
    case Num(n) => n != 0.0
    case Str(s) => s != ""
  }

  /** `typeof v === 'number'`. */
  predicate IsNumber(v: JsValue)
  {
    v.Num?
  }

  /** `x || null` for an optional number: absent and zero both become null. */
  function FalsyToNull(x: Option<real>): (r: Option<real>)
    ensures r.None? <==> (x.None? || x.value == 0.0)
    ensures r.Some? ==> r == x
  {
    match x
    case None => None
    case Some(v) => if v == 0.0 then None else Some(v)
  }

  /** Index of the first occurrence of `c` in `s`, or `|s|` when there is none. */
  function IndexOf(s: string, c: char): (i: nat)
    ensures i <= |s|
  {
    if |s| == 0 then 0
    else if s[0] == c then 0
    else 1 + IndexOf(s[1..], c)
  }

  /** `IndexOf` finds the first occurrence, and finds one exactly when `c`
      occurs. */
  lemma {:induction false} IndexOfFirst(s: string, c: char)
    ensures IndexOf(s, c) < |s| <==> c in s
    ensures IndexOf(s, c) < |s| ==> s[IndexOf(s, c)] == c
    ensures forall k :: 0 <= k < IndexOf(s, c) ==> s[k] != c
  {
    if |s| > 0 && s[0] != c {
      IndexOfFirst(s[1..], c);
      assert s == [s[0]] + s[1..];
    }
  }

  /** `s.replace(c, rep)` with a one-character string pattern: only the first
      occurrence is replaced. */
  function ReplaceFirst(s: string, c: char, rep: string): string
  {
    var i := IndexOf(s, c);
    if i == |s| then s else s[..i] + rep + s[i + 1..]
  }

  /** `s.substring(0, n)` for a non-negative `n`. */
  function Prefix(s: string, n: nat): (r: string)
    ensures |r| == if n <= |s| then n else |s|
    ensures r <= s
  {
    if n <= |s| then s[..n] else s
  }

  /** `s.split(c)[1]`: the text between the first and the second `c`
      (or up to the end when there is no second one). */
  function SecondField(s: string, c: char): (r: string)
    requires c in s
    ensures c !in r
    ensures |r| < |s|
  {
    IndexOfFirst(s, c);
    var rest := s[IndexOf(s, c) + 1..];
    IndexOfFirst(rest, c);
    rest[..IndexOf(rest, c)]
  }

  /** `s.split(c)[0]`: the text before the first `c` (all of `s` when there is none). */
  function FirstField(s: string, c: char): (r: string)
    ensures c !in r
    ensures r <= s
  {
    IndexOfFirst(s, c);
    s[..IndexOf(s, c)]
  }

  /** `s.startsWith(p)`. */
  predicate StartsWith(s: string, p: string)
  {
    p <= s
  }

  /** SQLite's BINARY collation on TEXT: lexicographic order, a proper prefix first. */
  predicate LexLe(a: string, b: string)
    decreases |a|
  {
    |a| == 0 || (|b| > 0 && (a[0] < b[0] || (a[0] == b[0] && LexLe(a[1..], b[1..]))))
  }

  lemma {:induction false} LexLeReflexive(a: string)
    ensures LexLe(a, a)
    decreases |a|
  {
    if |a| > 0 { LexLeReflexive(a[1..]); }
  }

  lemma {:induction false} LexLeTotal(a: string, b: string)
    ensures LexLe(a, b) || LexLe(b, a)
    decreases |a|
  {
    if |a| > 0 && |b| > 0 && a[0] == b[0] { LexLeTotal(a[1..], b[1..]); }
  }

  lemma {:induction false} LexLeTransitive(a: string, b: string, c: string)
    requires LexLe(a, b) && LexLe(b, c)
    ensures LexLe(a, c)
    decreases |a|
  {
    if |a| > 0 && a[0] == b[0] && b[0] == c[0] {
      LexLeTransitive(a[1..], b[1..], c[1..]);
    }
  }
}
