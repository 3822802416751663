/** Decoded JSON values, as `json.loads` hands them to the SDK, plus the
    Python operations the SDK applies to them (`bool(v)` and `key in v`).

    Numbers are modelled as integers.  Three leaves stand for values that are
    built from a `datetime` and that the model does not render character by
    character: `JIso(t)` is the text `t.replace(microsecond=0).astimezone(utc)
    .isoformat()` produces, `JStrfZ(t)` is `t.strftime("%Y-%m-%dT%H:%M:%SZ")`,
    and `JDate(t)` is the `datetime` object itself, left for the HTTP library
    to render.  Instants are whole seconds. */
module Json {
  import opened Common

  type Instant = int

  datatype Json =
    | JNull
    | JBool(b: bool)
    | JNum(n: int)
    | JStr(s: string)
    | JArr(items: seq<Json>)
    | JObj(fields: map<string, Json>)
    | JIso(at: Instant)
    | JStrfZ(at: Instant)
    | JDate(at: Instant)

  /** `bool(v)` in Python. Rendered timestamps are non-empty strings and
      `datetime` objects are always truthy. */
  predicate Truthy(v: Json) {
    match v
    case JNull => false
    case JBool(b) => b
    case JNum(n) => n != 0
    case JStr(s) => s != ""
    case JArr(items) => |items| > 0
    case JObj(fields) => |fields| > 0
    case _ => true
  }

  /** `sub` occurs as a contiguous substring of `s`. */
  predicate IsSubstring(sub: string, s: string)
    decreases |s|
  {
    (|sub| <= |s| && s[..|sub|] == sub) || (|s| > 0 && IsSubstring(sub, s[1..]))
  }

  /** `key in v` in Python: key membership for an object, element membership
      for a list, substring for a string; for a number, a bool or null Python
      raises `TypeError`, which is `None` here.  A rendered timestamp is a
      string whose characters the model does not know, and a `datetime`
      object does not support `in`; both are `None` as well. */
  function PyIn(key: string, v: Json): (r: Option<bool>)
    ensures v.JObj? ==> r == Some(key in v.fields)
    ensures r.None? <==> !(v.JObj? || v.JArr? || v.JStr?)
  {
    match v
    case JObj(fields) => Some(key in fields)
    case JArr(items) => Some(JStr(key) in items)
    case JStr(s) => Some(IsSubstring(key, s))
    case _ => None
  }

  /** An optional string field rendered as JSON, `None` becoming `null`. */
  function OptStr(o: Option<string>): Json {
    match o
    case Some(s) => JStr(s)
    case None => JNull
  }

  // Values of conditional assignments, by the test the source applies.

  /** `if x is not None` on an optional string. */
  function SomeStr(o: Option<string>): Option<Json> {
    if o.Some? then Some(JStr(o.value)) else None
  }

  /** `if x:` on an optional string. */
  function TruthyStr(o: Option<string>): Option<Json> {
    if StrSet(o) then Some(JStr(o.value)) else None
  }

  /** `if x is not None` on an optional bool (so `False` is kept). */
  function SomeBool(o: Option<bool>): Option<Json> {
    if o.Some? then Some(JBool(o.value)) else None
  }

  /** `if x is not None` on an optional list. */
  function SomeList(o: Option<seq<Json>>): Option<Json> {
    if o.Some? then Some(JArr(o.value)) else None
  }

  /** `if x is not None` on an optional dictionary. */
  function SomeObj(o: Option<map<string, Json>>): Option<Json> {
    if o.Some? then Some(JObj(o.value)) else None
  }

  // ---------------------------------------------------------------------
  // Objects built by a chain of conditional assignments

  /** One conditional assignment `d[key] = value`: `None` when the source's
      `if` leaves the key out. */
  type Entry = (string, Option<Json>)

  /** The dictionary the first `n` conditional assignments of `es` leave,
      starting from `{}`. */
  function Collect(es: seq<Entry>, n: nat): map<string, Json>
    requires n <= |es|
  {
    if n == 0 then map[]
    else
      var d := Collect(es, n - 1);
      if es[n - 1].1.Some? then d[es[n - 1].0 := es[n - 1].1.value] else d
  }

  predicate DistinctKeys(es: seq<Entry>) {
    forall i, j :: 0 <= i < j < |es| ==> es[i].0 != es[j].0
  }

  lemma {:induction false} CollectAbsent(es: seq<Entry>, n: nat, k: string)
    requires n <= |es|
    requires forall j :: 0 <= j < n ==> es[j].0 != k
    ensures k !in Collect(es, n)
  {
    if n > 0 {
      CollectAbsent(es, n - 1, k);
    }
  }

  /** With distinct keys, the `i`-th key is present exactly when its value
      was given, and then holds that value. */
  lemma {:induction false} CollectAt(es: seq<Entry>, n: nat, i: nat)
    requires i < n <= |es| && DistinctKeys(es)
    ensures es[i].0 in Collect(es, n) <==> es[i].1.Some?
    ensures es[i].1.Some? ==> Collect(es, n)[es[i].0] == es[i].1.value
  {
    if i < n - 1 {
      CollectAt(es, n - 1, i);
    } else {
      CollectAbsent(es, n - 1, es[i].0);
    }
  }

  /** Only keys of `es` occur in the result. */
  lemma {:induction false} CollectKeys(es: seq<Entry>, n: nat, k: string)
    requires n <= |es|
    requires k in Collect(es, n)
    ensures exists i :: 0 <= i < n && es[i].0 == k && es[i].1.Some?
  {
    if n > 0 && !(es[n - 1].0 == k && es[n - 1].1.Some?) {
      CollectKeys(es, n - 1, k);
    }
  }

  /** The result is empty exactly when no value was given. */
  lemma {:induction false} CollectEmpty(es: seq<Entry>, n: nat)
    requires n <= |es|
    ensures Collect(es, n) == map[] <==> forall i :: 0 <= i < n ==> es[i].1.None?
  {
    if n > 0 {
      CollectEmpty(es, n - 1);
      if es[n - 1].1.Some? {
        assert es[n - 1].0 in Collect(es, n);
      }
    }
  }

  /** Changing one entry of a list with distinct keys to `Some(v)` changes the
      collected object in that key alone. */
  lemma {:induction false} CollectSet(es: seq<Entry>, es': seq<Entry>, n: nat, i: nat, v: Json)
    requires n <= |es| == |es'| && i < |es| && DistinctKeys(es)
    requires es'[i] == (es[i].0, Some(v))
    requires forall j :: 0 <= j < |es| && j != i ==> es'[j] == es[j]
    ensures i < n ==> Collect(es', n) == Collect(es, n)[es[i].0 := v]
    ensures n <= i ==> Collect(es', n) == Collect(es, n)
  {
    if n > 0 {
      CollectSet(es, es', n - 1, i, v);
      if n - 1 > i {
        var e := es[n - 1];
        assert es'[n - 1] == e && e.0 != es[i].0;
        if e.1.Some? {
          assert Collect(es, n - 1)[es[i].0 := v][e.0 := e.1.value] == Collect(es, n - 1)[e.0 := e.1.value][es[i].0 := v];
        }
      }
    }
  }
}
