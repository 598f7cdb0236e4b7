/** The dynamically typed values the Python code passes around: the dicts
    returned by the database client, the metadata of a memory, the values a
    filter condition compares against. */
module PyValues {
  import opened Wrappers

  /** A JSON-like Python value. Python's `int` and `float` are both `VNum`;
      `bool` stays separate because `True == 1` but `True` is not a number
      to `json`. */
  datatype Value =
    | VNone
    | VBool(b: bool)
    | VNum(r: real)
    | VStr(s: string)
    | VList(items: seq<Value>)
    | VDict(entries: map<string, Value>)

  /** A Python dict with string keys, as the database rows and the memory
      metadata are. */
  type Record = map<string, Value>

  /** `d.get(key, default)` */
  function Get(d: Record, key: string, default: Value): (v: Value)
    ensures key in d ==> v == d[key]
    ensures key !in d ==> v == default
  {
    if key in d then d[key] else default
  }

  /** Python truthiness (`bool(v)`). */
  predicate Truthy(v: Value) {
    match v
    case VNone => false
    case VBool(b) => b
    case VNum(r) => r != 0.0
    case VStr(s) => s != []
    case VList(xs) => xs != []
    case VDict(m) => m != map[]
  }

  /** The numeric value of an `int`, `float` or `bool`; `None` for other types. */
  function NumOf(v: Value): (n: Option<real>)
    ensures n.Some? <==> (v.VNum? || v.VBool?)
  {
    match v
    case VNum(r) => Some(r)
    case VBool(b) => Some(if b then 1.0 else 0.0)
    case _ => None
  }

  /** Python `==` on these values: numbers and booleans compare by numeric
      value, lists element by element, everything else structurally. */
  predicate PyEq(a: Value, b: Value)
    decreases a
  {
    if NumOf(a).Some? && NumOf(b).Some? then NumOf(a).value == NumOf(b).value
    else match (a, b)
      case (VNone, VNone) => true
      case (VStr(s), VStr(t)) => s == t
      case (VList(xs), VList(ys)) =>
        |xs| == |ys| && forall i :: 0 <= i < |xs| ==> PyEq(xs[i], ys[i])
      case (VDict(m), VDict(n)) => m == n
      case _ => false
  }

  lemma {:induction false} PyEqReflexive(a: Value)
    ensures PyEq(a, a)
    decreases a
  {
    if a.VList? {
      forall i | 0 <= i < |a.items| ensures PyEq(a.items[i], a.items[i]) {
        PyEqReflexive(a.items[i]);
      }
    }
  }

  /** Python's `s < t` on strings: lexicographic by code point. */
  predicate StrLt(s: string, t: string) {
    if s == [] then t != []
    else if t == [] then false
    else if s[0] != t[0] then s[0] < t[0]
    else StrLt(s[1..], t[1..])
  }

  predicate StrLe(s: string, t: string) {
    s == t || StrLt(s, t)
  }

  lemma {:induction false} StrLtIrreflexive(s: string)
    ensures !StrLt(s, s)
  {
    if s != [] { StrLtIrreflexive(s[1..]); }
  }

  lemma {:induction false} StrLtAsymmetric(s: string, t: string)
    ensures !(StrLt(s, t) && StrLt(t, s))
  {
    if s != [] && t != [] && s[0] == t[0] { StrLtAsymmetric(s[1..], t[1..]); }
  }

  /** `sub in s` for strings. */
  predicate IsSubstring(sub: string, s: string) {
    sub <= s || (s != [] && IsSubstring(sub, s[1..]))
  }

  /** `c.lower()` for the ASCII letters; other characters are unchanged. */
  function LowerChar(c: char): char {
    if 'A' <= c <= 'Z' then (c as int + 32) as char else c
  }

  /** `c.upper()` for the ASCII letters; other characters are unchanged. */
  function UpperChar(c: char): char {
    if 'a' <= c <= 'z' then (c as int - 32) as char else c
  }

  function Lower(s: string): (r: string)
    ensures |r| == |s| && forall i :: 0 <= i < |s| ==> r[i] == LowerChar(s[i])
  {
    if s == [] then [] else [LowerChar(s[0])] + Lower(s[1..])
  }

  function Upper(s: string): (r: string)
    ensures |r| == |s| && forall i :: 0 <= i < |s| ==> r[i] == UpperChar(s[i])
  {
    if s == [] then [] else [UpperChar(s[0])] + Upper(s[1..])
  }

  /** `sep.join(parts)` */
  function Join(sep: string, parts: seq<string>): string {
    if parts == [] then []
    else if |parts| == 1 then parts[0]
    else parts[0] + sep + Join(sep, parts[1..])
  }

  /** Joining four parts puts the separator between each pair. */
  lemma JoinFour(sep: string, a: string, b: string, c: string, d: string)
    ensures Join(sep, [a, b, c, d]) == a + sep + b + sep + c + sep + d
  {
    assert [a, b, c, d][1..] == [b, c, d];
    assert [b, c, d][1..] == [c, d];
    assert [c, d][1..] == [d];
    assert Join(sep, [c, d]) == c + sep + d;
    assert Join(sep, [b, c, d]) == b + sep + (c + sep + d);
  }

  /** `s.split(sep)` for a one-character separator. */
  function Split(s: string, sep: char): (parts: seq<string>)
    ensures |parts| >= 1
  {
    if s == [] then [""]
    else if s[0] == sep then [""] + Split(s[1..], sep)
    else
      var rest := Split(s[1..], sep);
      [[s[0]] + rest[0]] + rest[1..]
  }

  /** A string without the separator splits into itself alone, and one
      followed by the separator splits off as the first part. */
  lemma {:induction false} SplitPart(p: string, sep: char, tail: Option<string>)
    requires sep !in p
    ensures tail.None? ==> Split(p, sep) == [p]
    ensures tail.Some? ==> Split(p + [sep] + tail.value, sep) == [p] + Split(tail.value, sep)
  {
    if p != [] {
      SplitPart(p[1..], sep, tail);
      if tail.Some? {
        assert (p + [sep] + tail.value)[1..] == p[1..] + [sep] + tail.value;
      }
      assert [p[0]] + p[1..] == p;
    } else if tail.Some? {
      assert p + [sep] + tail.value == [sep] + tail.value;
      assert ([sep] + tail.value)[1..] == tail.value;
    }
  }

  /** Splitting what was joined with a separator that no part contains
      gives the parts back. */
  lemma {:induction false} SplitJoin(sep: char, parts: seq<string>)
    requires |parts| >= 1
    requires forall i :: 0 <= i < |parts| ==> sep !in parts[i]
    ensures Split(Join([sep], parts), sep) == parts
  {
    if |parts| == 1 {
      SplitPart(parts[0], sep, None);
    } else {
      SplitJoin(sep, parts[1..]);
      SplitPart(parts[0], sep, Some(Join([sep], parts[1..])));
      assert [parts[0]] + parts[1..] == parts;
    }
  }

  /**
   * The characters `str.strip()` removes: those for which `str.isspace()`
   * holds, namely tab to carriage return, the four separators 0x1C-0x1F,
   * space, NEL, no-break space and the Unicode space separators.
   */
  predicate IsSpace(c: char) {
    ('\t' <= c <= '\r') || (28 as char <= c <= ' ') || c == 0x85 as char || c == 0xA0 as char
    || c == 0x1680 as char || (0x2000 as char <= c <= 0x200A as char)
    || c == 0x2028 as char || c == 0x2029 as char || c == 0x202F as char
    || c == 0x205F as char || c == 0x3000 as char
  }

  function StripLeft(s: string): (r: string)
    ensures |r| <= |s| && r == s[|s| - |r|..]
    ensures r != [] ==> !IsSpace(r[0])
  {
    if s != [] && IsSpace(s[0]) then StripLeft(s[1..]) else s
  }

  function StripRight(s: string): (r: string)
    ensures |r| <= |s| && r == s[..|r|]
    ensures r != [] ==> !IsSpace(r[|r| - 1])
  {
    if s != [] && IsSpace(s[|s| - 1]) then StripRight(s[..|s| - 1]) else s
  }

  /** `s.strip()` */
  function Strip(s: string): string {
    StripRight(StripLeft(s))
  }

  /** `s[:n]` with Python's meaning for a negative `n` (counted from the end). */
  function SliceTo<T>(s: seq<T>, n: int): (r: seq<T>)
    ensures 0 <= n ==> |r| == if n < |s| then n else |s|
    ensures n < 0 ==> |r| == if -n < |s| then |s| + n else 0
    ensures r == s[..|r|]
  {
    if n >= 0 then (if n < |s| then s[..n] else s)
    else if -n < |s| then s[..|s| + n] else []
  }

  /** The decimal digits of a natural number, without leading zeros. */
  function NatToString(n: nat): (s: string)
    ensures s != [] && forall i :: 0 <= i < |s| ==> '0' <= s[i] <= '9'
  {
    if n < 10 then [DigitChar(n)] else NatToString(n / 10) + [DigitChar(n % 10)]
  }

  function DigitChar(d: nat): (c: char)
    requires d < 10
    ensures '0' <= c <= '9' && c as int - '0' as int == d
  {
    ('0' as int + d) as char
  }

  /** `b` keeps some of the elements of `a`, in their order. */
  predicate IsSubsequence<T(==)>(b: seq<T>, a: seq<T>) {
    if b == [] then true
    else if a == [] then false
    else (b[0] == a[0] && IsSubsequence(b[1..], a[1..])) || IsSubsequence(b, a[1..])
  }

  /** Every sequence is a subsequence of itself. */
  lemma {:induction false} SubsequenceReflexive<T>(a: seq<T>)
    ensures IsSubsequence(a, a)
  {
    if a != [] {
      SubsequenceReflexive(a[1..]);
    }
  }

  /** A subsequence of a subsequence is a subsequence. */
  lemma {:induction false} SubsequenceTransitive<T>(c: seq<T>, b: seq<T>, a: seq<T>)
    requires IsSubsequence(c, b) && IsSubsequence(b, a)
    ensures IsSubsequence(c, a)
    decreases |a|
  {
    if c != [] {
      if b[0] == a[0] && IsSubsequence(b[1..], a[1..]) {
        if c[0] == b[0] && IsSubsequence(c[1..], b[1..]) {
          SubsequenceTransitive(c[1..], b[1..], a[1..]);
        } else {
          SubsequenceTransitive(c, b[1..], a[1..]);
        }
      } else {
        SubsequenceTransitive(c, b, a[1..]);
      }
    }
  }

  /** `[x for x in s if keep(x)]` */
  function Filter<T(!new)>(keep: T -> bool, s: seq<T>): (r: seq<T>)
    ensures forall x :: x in r <==> x in s && keep(x)
    ensures IsSubsequence(r, s)
    ensures |r| <= |s|
  {
    if s == [] then []
    else
      var rest := Filter(keep, s[1..]);
      if keep(s[0]) then
        assert ([s[0]] + rest)[1..] == rest;
        [s[0]] + rest
      else rest
  }

  /** A filter keeps every copy of a value that passes and none of one
      that does not. */
  lemma {:induction false} FilterCounts<T(!new)>(keep: T -> bool, s: seq<T>)
    ensures forall x :: multiset(Filter(keep, s))[x] == if keep(x) then multiset(s)[x] else 0
  {
    if s != [] {
      FilterCounts(keep, s[1..]);
      assert s == [s[0]] + s[1..];
    }
  }

  /** A filter no element passes is empty. */
  lemma {:induction false} FilterNone<T(!new)>(keep: T -> bool, s: seq<T>)
    requires forall x :: x in s ==> !keep(x)
    ensures Filter(keep, s) == []
  {
    if s != [] {
      assert forall x :: x in s[1..] ==> x in s;
      FilterNone(keep, s[1..]);
    }
  }
}
