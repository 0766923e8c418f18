/**
 * The Python values the core handles: what `response.json()` and the
 * session store hand back, Python's `str()` of such a value, and a
 * Python `dict` with string keys kept in insertion order.
 */
module PyValues {
  import opened Wrappers

  /** A decoded JSON value. Numbers other than integers are not modelled. */
  datatype Json =
    | JNull
    | JBool(b: bool)
    | JInt(i: int)
    | JStr(s: string)
    | JArr(items: seq<Json>)
    | JObj(fields: map<string, Json>)

  /** The exceptions that subscripting and iterating raise. */
  datatype PyError = KeyError(key: string) | TypeError

  /** `v[k]` for a string key: only a dict can be subscripted by a string. */
  function Index(v: Json, k: string): Result<Json, PyError> {
    match v
    case JObj(fields) => if k in fields then Ok(fields[k]) else Err(KeyError(k))
    case _ => Err(TypeError)
  }

  /** `v[k0][k1]...`, evaluated left to right, stopping at the first exception. */
  function Path(v: Json, keys: seq<string>): Result<Json, PyError>
    decreases |keys|
  {
    if keys == [] then Ok(v)
    else
      var w :- Index(v, keys[0]);
      Path(w, keys[1..])
  }

  /** `not v` */
  predicate Falsy(v: Json) {
    match v
    case JNull => true
    case JBool(b) => !b
    case JInt(i) => i == 0
    case JStr(s) => s == ""
    case JArr(items) => items == []
    case JObj(fields) => |fields| == 0
  }

  // ---------------------------------------------------------------------
  // str() of an int: decimal digits, no leading zero, '-' for negatives

  const DIGITS: string := "0123456789"

  predicate IsDigit(ch: char) {
    '0' <= ch <= '9'
  }

  function NatDigits(n: nat): (r: string)
    ensures |r| >= 1 && (r[0] == '0' ==> r == "0")
    ensures forall k :: 0 <= k < |r| ==> IsDigit(r[k])
    decreases n
  {
    if n < 10 then [DIGITS[n]] else NatDigits(n / 10) + [DIGITS[n % 10]]
  }

  /** Python's `str(i)` for an int. */
  function Decimal(i: int): string {
    if i < 0 then "-" + NatDigits(-i) else NatDigits(i)
  }

  /** Reading a string of decimal digits back as a number. */
  function ParseNat(s: string): nat
    requires forall k :: 0 <= k < |s| ==> IsDigit(s[k])
    decreases |s|
  {
    if s == [] then 0
    else
      var last := s[|s| - 1];
      assert IsDigit(last);
      10 * ParseNat(s[..|s| - 1]) + (last as int - '0' as int)
  }

  /** The digits of `str(n)` read back give `n`. */
  lemma {:induction false} ParseNatDigits(n: nat)
    ensures ParseNat(NatDigits(n)) == n
    decreases n
  {
    var r := NatDigits(n);
    if n >= 10 {
      ParseNatDigits(n / 10);
      assert r[..|r| - 1] == NatDigits(n / 10);
    }
  }

  /**
   * Python's `str(v)`. For a list or a dict that is Python's `repr`, which
   * the model does not spell out: the caller supplies it as `repr`.
   */
  function Str(v: Json, repr: Json -> string): string {
    match v
    case JNull => "None"
    case JBool(b) => if b then "True" else "False"
    case JInt(i) => Decimal(i)
    case JStr(s) => s
    case _ => repr(v)
  }

  // ---------------------------------------------------------------------
  // A dict with string keys: an insertion-ordered list of distinct keys

  type Entries = seq<(string, Json)>

  predicate DistinctKeys(e: Entries) {
    forall i, j :: 0 <= i < j < |e| ==> e[i].0 != e[j].0
  }

  /** `d.get(k)` */
  function Lookup(e: Entries, k: string): Option<Json>
    decreases |e|
  {
    if e == [] then None
    else if e[0].0 == k then Some(e[0].1)
    else Lookup(e[1..], k)
  }

  /** The entries after `d.setdefault(k, v)`. */
  function WithDefault(e: Entries, k: string, v: Json): Entries {
    if Lookup(e, k).Some? then e else e + [(k, v)]
  }

  lemma {:induction false} LookupFound(e: Entries, i: nat)
    requires DistinctKeys(e) && i < |e|
    ensures Lookup(e, e[i].0) == Some(e[i].1)
    decreases |e|
  {
    if i > 0 {
      assert e[0].0 != e[i].0;
      assert e[1..][i - 1] == e[i];
      LookupFound(e[1..], i - 1);
    }
  }

  lemma {:induction false} LookupMissing(e: Entries, k: string)
    requires forall i :: 0 <= i < |e| ==> e[i].0 != k
    ensures Lookup(e, k) == None
    decreases |e|
  {
    if e != [] {
      assert e[0].0 != k;
      LookupMissing(e[1..], k);
    }
  }

  lemma {:induction false} LookupAppend(e: Entries, p: (string, Json), k: string)
    ensures Lookup(e + [p], k) == if Lookup(e, k).Some? then Lookup(e, k)
                                  else if p.0 == k then Some(p.1) else None
    decreases |e|
  {
    if e == [] {
      assert e + [p] == [p];
    } else {
      assert (e + [p])[1..] == e[1..] + [p];
      LookupAppend(e[1..], p, k);
    }
  }

  /**
   * `d.setdefault(k, v)` keeps every existing entry in its place; when `k`
   * was absent it appends `(k, v)` as the last entry and nothing else.
   * Afterwards `d[k]` is the caller's value if there was one, else `v`,
   * and every other key keeps its value.
   */
  lemma WithDefaultSpec(e: Entries, k: string, v: Json)
    requires DistinctKeys(e)
    ensures DistinctKeys(WithDefault(e, k, v))
    ensures Lookup(e, k).Some? ==> WithDefault(e, k, v) == e
    ensures Lookup(e, k).None? ==> WithDefault(e, k, v) == e + [(k, v)]
    ensures Lookup(WithDefault(e, k, v), k) == if Lookup(e, k).Some? then Lookup(e, k) else Some(v)
    ensures forall k' :: k' != k ==> Lookup(WithDefault(e, k, v), k') == Lookup(e, k')
  {
    if Lookup(e, k).None? {
      forall i | 0 <= i < |e|
        ensures e[i].0 != k
      {
        if e[i].0 == k { LookupFound(e, i); }
      }
      forall k' | true
        ensures Lookup(e + [(k, v)], k') == if k' == k then Some(v) else Lookup(e, k')
      {
        LookupAppend(e, (k, v), k');
      }
    }
  }

  /**
   * A Python dict whose keys are strings, iterated in insertion order.
   * The source mutates such a dict in place with `setdefault`.
   */
  class Dict {
    var entries: Entries

    ghost predicate Valid()
      reads this
    {
      DistinctKeys(entries)
    }

    /** A dict display such as `{"act": "a_check", "key": key}`. */
    constructor (init: Entries)
      requires DistinctKeys(init)
      ensures Valid() && entries == init
    {
      entries := init;
    }

    /**
     * `d.setdefault(k, v)`: returns `d[k]` if present, otherwise inserts
     * `(k, v)` at the end and returns `v`.
     */
    method SetDefault(k: string, v: Json) returns (r: Json)
      requires Valid()
      modifies this
      ensures Valid()
      ensures entries == WithDefault(old(entries), k, v)
      ensures Some(r) == Lookup(entries, k)
    {
      WithDefaultSpec(entries, k, v);
      var found := Lookup(entries, k);
      if found.Some? {
        r := found.value;
      } else {
        entries := entries + [(k, v)];
        r := v;
      }
    }
  }
}
