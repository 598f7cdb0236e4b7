/** The chainable memory filter: builder methods collect AND-conditions,
    OR-conditions and a sort order; `Apply` keeps the records that pass and
    sorts them by date or by similarity. */
module MatchFilter {
  import opened Wrappers
  import opened PyValues
  import opened IsoDate
  import opened Sorting

  // ---------------------------------------------------------------------
  // Field lookup

  /** `_get_value`: the value under `key` in the record's `metadata` when
      the metadata holds that key, otherwise the top-level value, otherwise
      `default`. The test `key in metadata` follows Python's `in` for the
      metadata's actual type (a substring test on a string, an element test
      on a list), and fetching from a metadata that is not a dict fails. */
  function GetValue(m: Record, key: string, default: Value): (r: Result<Value>)
    ensures "metadata" !in m ==> r == Ok(Get(m, key, default))
    ensures "metadata" in m && m["metadata"].VDict? ==>
      r == Ok(if key in m["metadata"].entries then m["metadata"].entries[key] else Get(m, key, default))
    ensures "metadata" in m && (m["metadata"].VNone? || m["metadata"].VNum? || m["metadata"].VBool?) ==>
      r == Err(TypeError)
    ensures r.Err? ==> "metadata" in m && !m["metadata"].VDict?
  {
    if "metadata" !in m then Ok(Get(m, key, default))
    else match In(VStr(key), m["metadata"])
      case Err(e) => Err(e)
      case Ok(found) =>
        if !found then Ok(Get(m, key, default))
        else if m["metadata"].VDict? then Ok(m["metadata"].entries[key])
        else Err(AttributeError)
  }

  /** Python's `item in container`. */
  function In(item: Value, container: Value): (r: Result<bool>)
    ensures container.VList? ==>
      r == Ok(exists i :: 0 <= i < |container.items| && PyEq(item, container.items[i]))
    ensures container.VDict? && item.VStr? ==> r == Ok(item.s in container.entries)
    ensures container.VStr? && item.VStr? ==> r == Ok(IsSubstring(item.s, container.s))
    ensures container.VNone? || container.VNum? || container.VBool? ==> r == Err(TypeError)
  {
    match container
    case VStr(s) => if item.VStr? then Ok(IsSubstring(item.s, s)) else Err(TypeError)
    case VList(xs) => Ok(exists i :: 0 <= i < |xs| && PyEq(item, xs[i]))
    case VDict(d) =>
      if item.VStr? then Ok(item.s in d)
      else if item.VList? || item.VDict? then Err(TypeError)  // unhashable
      else Ok(false)
    case _ => Err(TypeError)
  }

  // ---------------------------------------------------------------------
  // Comparison

  datatype CmpOp = OpGte | OpLte

  /** A comparison operand after `_compare`'s conversion: strings that
      `_is_date_string` accepts become datetimes (as their instant). */
  datatype Operand = ODate(micros: int) | OValue(v: Value)

  function Coerce(v: Value): Operand {
    if v.VStr? && Parse(v.s).Some? then ODate(Micros(Parse(v.s).value)) else OValue(v)
  }

  /** Python's `u >= w` / `u <= w` on plain values: numbers (booleans
      included) by value, strings by code points, lists lexicographically
      (the first pair of elements that are not `==` decides with the same
      operator, otherwise the lengths do); any other pairing raises
      TypeError. */
  function PyCmp(u: Value, w: Value, op: CmpOp): (r: Result<bool>)
    decreases u, 1
  {
    if NumOf(u).Some? && NumOf(w).Some? then
      Ok(if op == OpGte then NumOf(u).value >= NumOf(w).value else NumOf(u).value <= NumOf(w).value)
    else if u.VStr? && w.VStr? then
      Ok(if op == OpGte then StrLe(w.s, u.s) else StrLe(u.s, w.s))
    else if u.VList? && w.VList? then ListCmp(u.items, w.items, op)
    else Err(TypeError)
  }

  /** List comparison: equal leading elements are skipped. */
  function ListCmp(xs: seq<Value>, ys: seq<Value>, op: CmpOp): (r: Result<bool>)
    decreases xs, 0
  {
    if xs == [] || ys == [] then Ok(if op == OpGte then |xs| >= |ys| else |xs| <= |ys|)
    else if PyEq(xs[0], ys[0]) then ListCmp(xs[1..], ys[1..], op)
    else PyCmp(xs[0], ys[0], op)
  }

  /** `_compare(value, threshold, op)`: false for a `None` value; date
      strings are compared as datetimes (among themselves only), any other
      operands as Python compares them. */
  function Compare(value: Value, threshold: Value, op: CmpOp): (r: Result<bool>)
    ensures value.VNone? ==> r == Ok(false)
    ensures !value.VNone? && Coerce(value).ODate? && Coerce(threshold).ODate? ==>
      r == Ok(if op == OpGte then Coerce(value).micros >= Coerce(threshold).micros
              else Coerce(value).micros <= Coerce(threshold).micros)
    ensures Coerce(value).ODate? != Coerce(threshold).ODate? && !value.VNone? ==> r == Err(TypeError)
    ensures !value.VNone? && Coerce(value).OValue? && Coerce(threshold).OValue? ==> r == PyCmp(value, threshold, op)
  {
    if value.VNone? then Ok(false)
    else match (Coerce(value), Coerce(threshold))
      case (ODate(x), ODate(y)) => Ok(if op == OpGte then x >= y else x <= y)
      case (OValue(u), OValue(w)) => PyCmp(u, w, op)
      case _ => Err(TypeError)
  }

  /** Two lists with equal elements up to the shorter one's length compare
      by length; the first unequal pair decides otherwise. */
  lemma {:induction false} ListCmpMeaning(xs: seq<Value>, ys: seq<Value>, op: CmpOp, k: nat)
    requires k <= |xs| && k <= |ys| && forall i :: 0 <= i < k ==> PyEq(xs[i], ys[i])
    ensures (k == |xs| || k == |ys|) ==> ListCmp(xs, ys, op) == Ok(if op == OpGte then |xs| >= |ys| else |xs| <= |ys|)
    ensures k < |xs| && k < |ys| && !PyEq(xs[k], ys[k]) ==> ListCmp(xs, ys, op) == PyCmp(xs[k], ys[k], op)
    decreases k
  {
    if k > 0 {
      ListCmpMeaning(xs[1..], ys[1..], op, k - 1);
    }
  }

  /** A comparison that passes against a numeric threshold was a numeric
      comparison: the value is a number (or bool) on the right side of it. */
  lemma CompareWithNumber(value: Value, t: real, op: CmpOp)
    requires Compare(value, VNum(t), op) == Ok(true)
    ensures NumOf(value).Some?
    ensures op == OpGte ==> NumOf(value).value >= t
    ensures op == OpLte ==> NumOf(value).value <= t
  {
  }

  /** A comparison that passes against a datetime threshold was between
      datetimes: the value is a parseable date string on the right side. */
  lemma CompareWithDate(value: Value, t: DateTime, op: CmpOp)
    requires Valid(t) && Compare(value, VStr(Format(t)), op) == Ok(true)
    ensures value.VStr? && Parse(value.s).Some?
    ensures op == OpGte ==> Micros(Parse(value.s).value) >= Micros(t)
    ensures op == OpLte ==> Micros(Parse(value.s).value) <= Micros(t)
  {
    FormatParseRoundTrip(t);
  }

  /** `>=` and `<=` on the same pair: when either succeeds, so does the
      other, and unless the value is `None` at least one of them holds. */
  lemma {:induction false} CompareTotal(value: Value, threshold: Value)
    requires Compare(value, threshold, OpGte).Ok?
    ensures Compare(value, threshold, OpLte).Ok?
    ensures !value.VNone? ==>
      Compare(value, threshold, OpGte) == Ok(true) || Compare(value, threshold, OpLte) == Ok(true)
  {
    if !value.VNone? && Coerce(value).OValue? && Coerce(threshold).OValue? {
      PyCmpTotal(value, threshold);
    }
  }

  lemma {:induction false} PyCmpTotal(u: Value, w: Value)
    requires PyCmp(u, w, OpGte).Ok?
    ensures PyCmp(u, w, OpLte).Ok?
    ensures PyCmp(u, w, OpGte) == Ok(true) || PyCmp(u, w, OpLte) == Ok(true)
    decreases u, 1
  {
    if NumOf(u).Some? && NumOf(w).Some? {
    } else if u.VStr? && w.VStr? {
      StrLeTotal(u.s, w.s);
    } else if u.VList? && w.VList? {
      ListCmpTotal(u.items, w.items);
    }
  }

  lemma {:induction false} ListCmpTotal(xs: seq<Value>, ys: seq<Value>)
    requires ListCmp(xs, ys, OpGte).Ok?
    ensures ListCmp(xs, ys, OpLte).Ok?
    ensures ListCmp(xs, ys, OpGte) == Ok(true) || ListCmp(xs, ys, OpLte) == Ok(true)
    decreases xs, 0
  {
    if xs == [] || ys == [] {
    } else if PyEq(xs[0], ys[0]) {
      ListCmpTotal(xs[1..], ys[1..]);
    } else {
      PyCmpTotal(xs[0], ys[0]);
    }
  }

  lemma {:induction false} StrLeTotal(s: string, t: string)
    ensures StrLe(s, t) || StrLe(t, s)
  {
    if s != [] && t != [] && s[0] == t[0] {
      StrLeTotal(s[1..], t[1..]);
      assert s == [s[0]] + s[1..] && t == [t[0]] + t[1..];
    }
  }

  /** Python `==` against a string holds only for that same string. */
  lemma PyEqString(v: Value, t: string)
    requires PyEq(v, VStr(t))
    ensures v == VStr(t)
  {
  }

  // ---------------------------------------------------------------------
  // Conditions

  /** The closures the builder methods append, one constructor each. */
  datatype Condition =
    | Eq(key: string, expected: Value)             // match / or_match
    | AtLeast(key: string, threshold: Value)       // greater_than_or_equal
    | AtMost(key: string, threshold: Value)        // less_than_or_equal
    | Has(key: string, item: Value)                // contains / or_contains
    | HasAny(key: string, items: seq<Value>)       // contains_any
    | HasAll(key: string, items: seq<Value>)       // contains_all

  /** `any(item in container for item in items)` */
  function AnyIn(items: seq<Value>, container: Value): (r: Result<bool>)
    ensures r == Ok(false) <==> forall i :: 0 <= i < |items| ==> In(items[i], container) == Ok(false)
    ensures r == Ok(true) ==> exists i :: 0 <= i < |items| && In(items[i], container) == Ok(true)
  {
    if items == [] then Ok(false)
    else match In(items[0], container)
      case Err(e) => Err(e)
      case Ok(true) => Ok(true)
      case Ok(false) =>
        var r := AnyIn(items[1..], container);
        assert forall i :: 1 <= i < |items| ==> items[i] == items[1..][i - 1];
        r
  }

  /** When every test `item in container` is decided, `contains_any` is
      decided too, and passes exactly when one of them does. */
  lemma {:induction false} AnyInDecided(items: seq<Value>, container: Value)
    requires forall i :: 0 <= i < |items| ==> In(items[i], container).Ok?
    ensures AnyIn(items, container) == Ok(exists i :: 0 <= i < |items| && In(items[i], container) == Ok(true))
  {
    if items != [] && In(items[0], container) == Ok(false) {
      AnyInDecided(items[1..], container);
      assert forall i :: 1 <= i < |items| ==> items[i] == items[1..][i - 1];
    }
  }

  /** `all(item in container for item in items)` */
  function AllIn(items: seq<Value>, container: Value): (r: Result<bool>)
    ensures r == Ok(true) <==> forall i :: 0 <= i < |items| ==> In(items[i], container) == Ok(true)
  {
    if items == [] then Ok(true)
    else match In(items[0], container)
      case Err(e) => Err(e)
      case Ok(false) => Ok(false)
      case Ok(true) =>
        var r := AllIn(items[1..], container);
        assert forall i :: 1 <= i < |items| ==> items[i] == items[1..][i - 1];
        r
  }

  /** Evaluating one condition on a record. The list conditions look the
      field up with default `[]`, once per item, so with no items the lookup
      (and any error it raises) never happens. */
  function Holds(c: Condition, m: Record): Result<bool> {
    match c
    case Eq(k, e) =>
      (match GetValue(m, k, VNone) case Err(x) => Err(x) case Ok(v) => Ok(PyEq(v, e)))
    case AtLeast(k, t) =>
      (match GetValue(m, k, VNone) case Err(x) => Err(x) case Ok(v) => Compare(v, t, OpGte))
    case AtMost(k, t) =>
      (match GetValue(m, k, VNone) case Err(x) => Err(x) case Ok(v) => Compare(v, t, OpLte))
    case Has(k, item) =>
      (match GetValue(m, k, VList([])) case Err(x) => Err(x) case Ok(v) => In(item, v))
    case HasAny(k, items) =>
      if items == [] then Ok(false)
      else (match GetValue(m, k, VList([])) case Err(x) => Err(x) case Ok(v) => AnyIn(items, v))
    case HasAll(k, items) =>
      if items == [] then Ok(true)
      else (match GetValue(m, k, VList([])) case Err(x) => Err(x) case Ok(v) => AllIn(items, v))
  }

  /** A field that is nowhere in the record reads as `[]`: `contains` and
      `contains_any` fail and `contains_all` passes only for no items. */
  lemma MissingListField(m: Record, k: string, item: Value, items: seq<Value>)
    requires k !in m && ("metadata" !in m || (m["metadata"].VDict? && k !in m["metadata"].entries))
    ensures Holds(Has(k, item), m) == Ok(false)
    ensures Holds(HasAny(k, items), m) == Ok(false)
    ensures Holds(HasAll(k, items), m) == Ok(items == [])
  {
    if items != [] {
      assert In(items[0], VList([])) == Ok(false);
    }
  }

  /** `all(condition(memory) for condition in conditions)` */
  function AllHold(cs: seq<Condition>, m: Record): (r: Result<bool>)
    ensures r == Ok(true) <==> forall i :: 0 <= i < |cs| ==> Holds(cs[i], m) == Ok(true)
  {
    if cs == [] then Ok(true)
    else match Holds(cs[0], m)
      case Err(e) => Err(e)
      case Ok(false) => Ok(false)
      case Ok(true) =>
        var r := AllHold(cs[1..], m);
        assert forall i :: 1 <= i < |cs| ==> cs[i] == cs[1..][i - 1];
        r
  }

  /** `any(condition(memory) for condition in or_conditions)` */
  function AnyHolds(cs: seq<Condition>, m: Record): (r: Result<bool>)
    ensures r == Ok(false) <==> forall i :: 0 <= i < |cs| ==> Holds(cs[i], m) == Ok(false)
    ensures r == Ok(true) ==> exists i :: 0 <= i < |cs| && Holds(cs[i], m) == Ok(true)
  {
    if cs == [] then Ok(false)
    else match Holds(cs[0], m)
      case Err(e) => Err(e)
      case Ok(true) => Ok(true)
      case Ok(false) =>
        var r := AnyHolds(cs[1..], m);
        assert forall i :: 1 <= i < |cs| ==> cs[i] == cs[1..][i - 1];
        r
  }

  /** Whether `apply` keeps a record: all AND-conditions hold, or (only
      evaluated when they do not) some OR-condition holds. */
  function Keep(conds: seq<Condition>, orConds: seq<Condition>, m: Record): (r: Result<bool>)
    ensures (forall i :: 0 <= i < |conds| ==> Holds(conds[i], m) == Ok(true)) ==> r == Ok(true)
    ensures r == Ok(true) ==>
      (forall i :: 0 <= i < |conds| ==> Holds(conds[i], m) == Ok(true)) ||
      (exists j :: 0 <= j < |orConds| && Holds(orConds[j], m) == Ok(true))
    ensures orConds == [] ==> r == AllHold(conds, m)
  {
    match AllHold(conds, m)
    case Err(e) => Err(e)
    case Ok(true) => Ok(true)
    case Ok(false) => AnyHolds(orConds, m)
  }

  /** The list comprehension of `apply`: the records `Keep` accepts, in
      input order; the first error raised ends it. */
  function FilterKept(conds: seq<Condition>, orConds: seq<Condition>, ms: seq<Record>): (r: Result<seq<Record>>)
    ensures r.Ok? <==> forall i :: 0 <= i < |ms| ==> Keep(conds, orConds, ms[i]).Ok?
    ensures r.Ok? ==> IsSubsequence(r.value, ms)
    ensures r.Ok? ==> forall m :: m in r.value ==> Keep(conds, orConds, m) == Ok(true)
    ensures r.Ok? ==> forall m :: m in ms && Keep(conds, orConds, m) == Ok(true) ==> m in r.value
  {
    if ms == [] then Ok([])
    else
      assert forall i :: 1 <= i < |ms| ==> ms[i] == ms[1..][i - 1];
      match Keep(conds, orConds, ms[0])
      case Err(e) => Err(e)
      case Ok(k) =>
        match FilterKept(conds, orConds, ms[1..])
        case Err(e) => Err(e)
        case Ok(rest) =>
          if k then
            assert ([ms[0]] + rest)[1..] == rest;
            Ok([ms[0]] + rest)
          else
            assert rest == [] || IsSubsequence(rest, ms[1..]);
            Ok(rest)
  }

  /** With no AND-conditions every record is kept: OR-conditions alone
      never narrow the result (they are not even evaluated). */
  lemma {:induction false} NoConditionsKeepsAll(orConds: seq<Condition>, ms: seq<Record>)
    ensures FilterKept([], orConds, ms) == Ok(ms)
  {
    if ms != [] {
      NoConditionsKeepsAll(orConds, ms[1..]);
      assert [ms[0]] + ms[1..] == ms;
    }
  }

  /** When the verdict on every record that can be judged is `keep`, a
      comprehension that succeeds keeps exactly `Filter(keep, ms)`. */
  lemma {:induction false} FilterKeptByPredicate(conds: seq<Condition>, orConds: seq<Condition>,
                                                 ms: seq<Record>, keep: Record -> bool)
    requires forall m :: m in ms && Keep(conds, orConds, m).Ok? ==> Keep(conds, orConds, m) == Ok(keep(m))
    requires FilterKept(conds, orConds, ms).Ok?
    ensures FilterKept(conds, orConds, ms).value == Filter(keep, ms)
  {
    if ms != [] {
      assert forall m :: m in ms[1..] ==> m in ms;
      FilterKeptByPredicate(conds, orConds, ms[1..], keep);
    }
  }

  /** `all(...)` over a condition and the rest: the first condition is
      evaluated first and short-circuits. */
  lemma AllHoldCons(c: Condition, cs: seq<Condition>, m: Record)
    ensures AllHold([c] + cs, m) ==
      match Holds(c, m)
      case Err(e) => Err(e)
      case Ok(b) => if b then AllHold(cs, m) else Ok(false)
  {
    assert ([c] + cs)[0] == c && ([c] + cs)[1..] == cs;
  }

  // ---------------------------------------------------------------------
  // Sorting

  datatype Order = Asc | Desc
  datatype SortField = ByTimestamp | BySimilarity

  /** A real that orders strings as Python orders them: the code points,
      each plus one, are the digits after the point in base 0x110001. */
  function Rank(s: string): (r: real)
    ensures 0.0 <= r < 1.0
  {
    if s == [] then 0.0 else ((s[0] as int + 1) as real + Rank(s[1..])) / 1114113.0
  }

  lemma {:induction false} RankMonotone(s: string, t: string)
    requires StrLt(s, t)
    ensures Rank(s) < Rank(t)
  {
    if s != [] && s[0] == t[0] {
      RankMonotone(s[1..], t[1..]);
    }
  }

  /** Comparing ranks is comparing the strings. */
  lemma RankOrder(s: string, t: string)
    ensures StrLe(s, t) <==> Rank(s) <= Rank(t)
  {
    if StrLt(s, t) {
      RankMonotone(s, t);
    } else if !StrLe(s, t) {
      StrLeTotal(s, t);
      RankMonotone(t, s);
    }
  }

  /** `m.get("similarity", 0.0)` */
  function SimilarityOf(m: Record): Value {
    Get(m, "similarity", VNum(0.0))
  }

  /** Python can order the similarity keys of `ms` against each other:
      all are numbers (booleans included) or all are strings. */
  predicate SimilaritiesComparable(ms: seq<Record>) {
    (forall i :: 0 <= i < |ms| ==> NumOf(SimilarityOf(ms[i])).Some?) ||
    (forall i :: 0 <= i < |ms| ==> SimilarityOf(ms[i]).VStr?)
  }

  /** The sort key of one record, `None` when Python would raise.
      Dates: the top-level `timestamp`, `datetime.min` when it is falsy,
      otherwise it must be a string `fromisoformat` accepts. Similarity: the
      top-level `similarity`, 0.0 when absent; a number is its own key and
      a string sorts by `Rank`. */
  function SortKeyOf(field: SortField, m: Record): (k: Option<real>)
    ensures field == ByTimestamp && !Truthy(Get(m, "timestamp", VNone)) ==> k == Some(Micros(Min) as real)
    ensures field == ByTimestamp && Truthy(Get(m, "timestamp", VNone)) ==>
      (k.Some? <==> Get(m, "timestamp", VNone).VStr? && Parse(Get(m, "timestamp", VNone).s).Some?)
    ensures field == BySimilarity && NumOf(SimilarityOf(m)).Some? ==> k == NumOf(SimilarityOf(m))
    ensures field == BySimilarity && SimilarityOf(m).VStr? ==> k == Some(Rank(SimilarityOf(m).s))
    ensures field == BySimilarity ==> (k.None? <==> NumOf(SimilarityOf(m)).None? && !SimilarityOf(m).VStr?)
  {
    match field
    case ByTimestamp =>
      var t := Get(m, "timestamp", VNone);
      if !Truthy(t) then Some(Micros(Min) as real)
      else if t.VStr? && Parse(t.s).Some? then Some(Micros(Parse(t.s).value) as real)
      else None
    case BySimilarity =>
      var v := SimilarityOf(m);
      if NumOf(v).Some? then NumOf(v) else if v.VStr? then Some(Rank(v.s)) else None
  }

  /** Pairs every record with its key; a record without one raises
      ValueError (a date that does not parse) or TypeError (a similarity
      Python cannot order). */
  function KeyAll(field: SortField, ms: seq<Record>): (r: Result<seq<Keyed<Record>>>)
    ensures r.Ok? <==> forall i :: 0 <= i < |ms| ==> SortKeyOf(field, ms[i]).Some?
    ensures r.Ok? ==> |r.value| == |ms|
    ensures r.Ok? ==> forall i :: 0 <= i < |ms| ==> r.value[i] == Keyed(SortKeyOf(field, ms[i]).value, ms[i])
  {
    if ms == [] then Ok([])
    else
      assert forall i :: 1 <= i < |ms| ==> ms[i] == ms[1..][i - 1];
      match SortKeyOf(field, ms[0])
      case None => Err(if field == ByTimestamp then ValueError else TypeError)
      case Some(k) =>
        match KeyAll(field, ms[1..])
        case Err(e) => Err(e)
        case Ok(rest) => Ok([Keyed(k, ms[0])] + rest)
  }

  /** The key a record sorts by; records without one only reach the sort
      when there is nothing to compare them with. */
  function KeyOf(field: SortField, m: Record): real {
    SortKeyOf(field, m).GetOr(0.0)
  }

  /** `x` comes no later than `y` in the requested order. */
  predicate KeyedBefore(field: SortField, x: Record, y: Record, descending: bool) {
    Before(KeyOf(field, x), KeyOf(field, y), descending)
  }

  /** `sorted(ms, key=..., reverse=descending)`. Python evaluates the key of
      every element; similarity keys are only compared, and so only fail,
      when there are two elements or more. */
  function SortRecords(field: SortField, ms: seq<Record>, descending: bool): (r: Result<seq<Record>>)
    ensures r.Ok? ==> multiset(r.value) == multiset(ms)
    ensures r.Ok? ==> forall i, j :: 0 <= i < j < |r.value| ==> KeyedBefore(field, r.value[i], r.value[j], descending)
    ensures field == ByTimestamp ==> (r.Err? <==> exists i :: 0 <= i < |ms| && SortKeyOf(field, ms[i]).None?)
    ensures field == BySimilarity ==> (r.Err? <==> |ms| >= 2 && !SimilaritiesComparable(ms))
  {
    if field == BySimilarity && |ms| < 2 then Ok(ms)
    else if field == BySimilarity && !SimilaritiesComparable(ms) then Err(TypeError)
    else match KeyAll(field, ms)
      case Err(e) => Err(e)
      case Ok(keyed) =>
        SortedRecords(field, ms, keyed, descending);
        Ok(Items(Sort(keyed, descending)))
  }

  /** Sorting by string similarities orders them as Python's string
      comparison does. */
  lemma SortByTextSimilarity(ms: seq<Record>, descending: bool)
    requires forall m :: m in ms ==> SimilarityOf(m).VStr?
    requires SortRecords(BySimilarity, ms, descending).Ok?
    ensures var r := SortRecords(BySimilarity, ms, descending).value;
      forall i, j :: 0 <= i < j < |r| ==>
        SimilarityOf(r[i]).VStr? && SimilarityOf(r[j]).VStr? &&
        if descending then StrLe(SimilarityOf(r[j]).s, SimilarityOf(r[i]).s)
        else StrLe(SimilarityOf(r[i]).s, SimilarityOf(r[j]).s)
  {
    var r := SortRecords(BySimilarity, ms, descending).value;
    forall i, j | 0 <= i < j < |r|
      ensures SimilarityOf(r[i]).VStr? && SimilarityOf(r[j]).VStr? &&
              if descending then StrLe(SimilarityOf(r[j]).s, SimilarityOf(r[i]).s)
              else StrLe(SimilarityOf(r[i]).s, SimilarityOf(r[j]).s)
    {
      assert r[i] in multiset(ms) && r[j] in multiset(ms);
      assert KeyedBefore(BySimilarity, r[i], r[j], descending);
      RankOrder(SimilarityOf(r[i]).s, SimilarityOf(r[j]).s);
      RankOrder(SimilarityOf(r[j]).s, SimilarityOf(r[i]).s);
    }
  }

  lemma SortedRecords(field: SortField, ms: seq<Record>, keyed: seq<Keyed<Record>>, descending: bool)
    requires KeyAll(field, ms) == Ok(keyed)
    ensures multiset(Items(Sort(keyed, descending))) == multiset(ms)
    ensures var r := Items(Sort(keyed, descending));
      forall i, j :: 0 <= i < j < |r| ==> KeyedBefore(field, r[i], r[j], descending)
  {
    assert Items(keyed) == ms;
    SortItemsPermutation(keyed, descending);
    var f := (m: Record) => KeyOf(field, m);
    assert KeysBy(keyed, f);
    SortOrdersItems(keyed, descending, f);
  }

  // ---------------------------------------------------------------------
  // The filter object

  class MemoryFilter {
    var conditions: seq<Condition>
    var orConditions: seq<Condition>
    var sortOrder: Option<Order>
    var sortKey: SortField

    constructor()
      ensures conditions == [] && orConditions == []
      ensures sortOrder == None && sortKey == ByTimestamp
    {
      conditions := [];
      orConditions := [];
      sortOrder := None;
      sortKey := ByTimestamp;
    }

    /** Appends one AND-condition; every builder returns the filter itself. */
    method AddCondition(c: Condition) returns (self: MemoryFilter)
      modifies this
      ensures self == this
      ensures conditions == old(conditions) + [c] && orConditions == old(orConditions)
      ensures sortOrder == old(sortOrder) && sortKey == old(sortKey)
    {
      conditions := conditions + [c];
      self := this;
    }

    method AddOrCondition(c: Condition) returns (self: MemoryFilter)
      modifies this
      ensures self == this
      ensures orConditions == old(orConditions) + [c] && conditions == old(conditions)
      ensures sortOrder == old(sortOrder) && sortKey == old(sortKey)
    {
      orConditions := orConditions + [c];
      self := this;
    }

    /** `match(key, expected_value)` */
    method Match(key: string, expected: Value) returns (self: MemoryFilter)
      modifies this
      ensures self == this
      ensures conditions == old(conditions) + [Eq(key, expected)] && orConditions == old(orConditions)
      ensures sortOrder == old(sortOrder) && sortKey == old(sortKey)
    {
      self := AddCondition(Eq(key, expected));
    }

    /** `or_match(key, expected_value)` */
    method OrMatch(key: string, expected: Value) returns (self: MemoryFilter)
      modifies this
      ensures self == this
      ensures orConditions == old(orConditions) + [Eq(key, expected)] && conditions == old(conditions)
      ensures sortOrder == old(sortOrder) && sortKey == old(sortKey)
    {
      self := AddOrCondition(Eq(key, expected));
    }

    /** `greater_than_or_equal(key, threshold)` */
    method GreaterThanOrEqual(key: string, threshold: Value) returns (self: MemoryFilter)
      modifies this
      ensures self == this
      ensures conditions == old(conditions) + [AtLeast(key, threshold)] && orConditions == old(orConditions)
      ensures sortOrder == old(sortOrder) && sortKey == old(sortKey)
    {
      self := AddCondition(AtLeast(key, threshold));
    }

    /** `less_than_or_equal(key, threshold)` */
    method LessThanOrEqual(key: string, threshold: Value) returns (self: MemoryFilter)
      modifies this
      ensures self == this
      ensures conditions == old(conditions) + [AtMost(key, threshold)] && orConditions == old(orConditions)
      ensures sortOrder == old(sortOrder) && sortKey == old(sortKey)
    {
      self := AddCondition(AtMost(key, threshold));
    }

    /** `contains(key, expected_item)` */
    method Contains(key: string, item: Value) returns (self: MemoryFilter)
      modifies this
      ensures self == this
      ensures conditions == old(conditions) + [Has(key, item)] && orConditions == old(orConditions)
      ensures sortOrder == old(sortOrder) && sortKey == old(sortKey)
    {
      self := AddCondition(Has(key, item));
    }

    /** `or_contains(key, expected_item)` */
    method OrContains(key: string, item: Value) returns (self: MemoryFilter)
      modifies this
      ensures self == this
      ensures orConditions == old(orConditions) + [Has(key, item)] && conditions == old(conditions)
      ensures sortOrder == old(sortOrder) && sortKey == old(sortKey)
    {
      self := AddOrCondition(Has(key, item));
    }

    /** `contains_any(key, items)` */
    method ContainsAny(key: string, items: seq<Value>) returns (self: MemoryFilter)
      modifies this
      ensures self == this
      ensures conditions == old(conditions) + [HasAny(key, items)] && orConditions == old(orConditions)
      ensures sortOrder == old(sortOrder) && sortKey == old(sortKey)
    {
      self := AddCondition(HasAny(key, items));
    }

    /** `contains_all(key, items)` */
    method ContainsAll(key: string, items: seq<Value>) returns (self: MemoryFilter)
      modifies this
      ensures self == this
      ensures conditions == old(conditions) + [HasAll(key, items)] && orConditions == old(orConditions)
      ensures sortOrder == old(sortOrder) && sortKey == old(sortKey)
    {
      self := AddCondition(HasAll(key, items));
    }

    /** `sort_by_date(order)`: sets the order only; a key chosen earlier by
        `sort_by_similarity` stays. Any order but "asc"/"desc" raises
        ValueError and changes nothing. */
    method SortByDate(order: string) returns (r: Result<MemoryFilter>)
      modifies this
      ensures order != "asc" && order != "desc" ==> r == Err(ValueError) && sortOrder == old(sortOrder)
      ensures order == "asc" || order == "desc" ==>
        r == Ok(this) && sortOrder == Some(if order == "asc" then Asc else Desc)
      ensures sortKey == old(sortKey)
      ensures conditions == old(conditions) && orConditions == old(orConditions)
    {
      if order != "asc" && order != "desc" {
        return Err(ValueError);
      }
      sortOrder := Some(if order == "asc" then Asc else Desc);
      r := Ok(this);
    }

    /** `sort_by_similarity(order)`: sets the order and the similarity key,
        or raises ValueError and changes nothing. */
    method SortBySimilarity(order: string) returns (r: Result<MemoryFilter>)
      modifies this
      ensures order != "asc" && order != "desc" ==>
        r == Err(ValueError) && sortOrder == old(sortOrder) && sortKey == old(sortKey)
      ensures order == "asc" || order == "desc" ==>
        r == Ok(this) && sortOrder == Some(if order == "asc" then Asc else Desc) && sortKey == BySimilarity
      ensures conditions == old(conditions) && orConditions == old(orConditions)
    {
      if order != "asc" && order != "desc" {
        return Err(ValueError);
      }
      sortOrder := Some(if order == "asc" then Asc else Desc);
      sortKey := BySimilarity;
      r := Ok(this);
    }

    /** `apply(memories)`: the kept records, sorted when an order was set. */
    function Apply(memories: seq<Record>): (r: Result<seq<Record>>)
      reads this
      ensures r.Ok? ==> forall m :: m in r.value ==> Keep(conditions, orConditions, m) == Ok(true)
      ensures r.Ok? ==> forall m :: m in memories && Keep(conditions, orConditions, m) == Ok(true) ==> m in r.value
      ensures r.Ok? && sortOrder.None? ==> IsSubsequence(r.value, memories)
      ensures r.Ok? ==> FilterKept(conditions, orConditions, memories).Ok?
      ensures sortOrder.None? ==> r == FilterKept(conditions, orConditions, memories)
      ensures sortOrder.Some? ==>
        (r.Ok? <==> FilterKept(conditions, orConditions, memories).Ok? &&
                    SortRecords(sortKey, FilterKept(conditions, orConditions, memories).value,
                                sortOrder.value == Desc).Ok?)
      ensures r.Ok? && sortOrder.Some? ==>
        multiset(r.value) == multiset(FilterKept(conditions, orConditions, memories).value)
      ensures r.Ok? && sortOrder.Some? ==>
        forall i, j :: 0 <= i < j < |r.value| ==>
          KeyedBefore(sortKey, r.value[i], r.value[j], sortOrder.value == Desc)
    {
      match FilterKept(conditions, orConditions, memories)
      case Err(e) => Err(e)
      case Ok(kept) =>
        if sortOrder.None? then Ok(kept)
        else
          var r := SortRecords(sortKey, kept, sortOrder.value == Desc);
          if r.Ok? then
            SameMembers(r.value, kept);
            r
          else r
    }
  }

  lemma SameMembers<T>(a: seq<T>, b: seq<T>)
    requires multiset(a) == multiset(b)
    ensures forall x :: x in a <==> x in b
  {
    forall x ensures x in a <==> x in b {
      assert x in a <==> x in multiset(a);
    }
  }
}
