/**
 * JSON values as Python's `json.loads` hands them to the views and as the
 * browser's `JSON.stringify` sends them, together with the few pieces of
 * Python semantics the views apply to them: `dict.get`, truthiness, `str()`
 * and `list()`.
 */
module JsonValues {
  import opened Wrappers
  import opened Text

  /**
   * A JSON value. Numbers are integers. An object keeps its members in
   * insertion order, because a Python `dict` does and `list(d)` exposes it.
   */
  datatype Json =
    | JNull
    | JBool(b: bool)
    | JNum(n: int)
    | JStr(s: string)
    | JArr(items: seq<Json>)
    | JObj(members: Members)

  type Members = seq<(string, Json)>

  /** The value stored under `key`: the last member with that key, as `json.loads` keeps the last duplicate. */
  function Get(ms: Members, key: string): Option<Json> {
    if ms == [] then None
    else if ms[|ms| - 1].0 == key then Some(ms[|ms| - 1].1)
    else Get(ms[..|ms| - 1], key)
  }

  /** `Get` finds a value exactly when some member has the key, and the value is that of the last such member. */
  lemma {:induction false} GetFindsLastMember(ms: Members, key: string)
    ensures Get(ms, key).None? <==> forall i :: 0 <= i < |ms| ==> ms[i].0 != key
    ensures Get(ms, key).Some? ==> exists i :: && 0 <= i < |ms| && ms[i] == (key, Get(ms, key).value)
                                             && forall j :: i < j < |ms| ==> ms[j].0 != key
  {
    if ms != [] && ms[|ms| - 1].0 != key {
      var front := ms[..|ms| - 1];
      GetFindsLastMember(front, key);
      assert forall i :: 0 <= i < |front| ==> front[i] == ms[i];
    }
  }

  /** With a key that occurs once, `Get` finds that member. */
  lemma GetUnique(ms: Members, i: nat)
    requires i < |ms|
    requires forall j :: 0 <= j < |ms| && j != i ==> ms[j].0 != ms[i].0
    ensures Get(ms, ms[i].0) == Some(ms[i].1)
  {
    GetFindsLastMember(ms, ms[i].0);
  }

  /** Python's `payload.get(key)`: an absent key and a JSON null are both `None`. */
  function Arg(ms: Members, key: string): Json {
    match Get(ms, key)
    case None => JNull
    case Some(v) => v
  }

  /**
   * `payload.get(key)` is null when no member has the key, and otherwise the
   * value of the last member that has it.
   */
  lemma ArgFindsLastMember(ms: Members, key: string)
    ensures (forall i :: 0 <= i < |ms| ==> ms[i].0 != key) ==> Arg(ms, key) == JNull
    ensures (exists i :: 0 <= i < |ms| && ms[i].0 == key) ==>
              exists i :: && 0 <= i < |ms| && ms[i] == (key, Arg(ms, key))
                          && forall j :: i < j < |ms| ==> ms[j].0 != key
  {
    GetFindsLastMember(ms, key);
  }

  /** A lookup in `a + b` finds the member of `b` when `b` has the key, and that of `a` otherwise. */
  lemma {:induction false} GetAppend(a: Members, b: Members, key: string)
    ensures Get(a + b, key) == if Get(b, key).Some? then Get(b, key) else Get(a, key)
  {
    if b == [] {
      assert a + b == a;
    } else {
      var ab := a + b;
      assert ab[..|ab| - 1] == a + b[..|b| - 1];
      GetAppend(a, b[..|b| - 1], key);
    }
  }

  /** In a one-member object, `Arg` finds that member's value or nothing. */
  lemma ArgOfSingleMember(k: string, v: Json, key: string)
    ensures Arg([(k, v)], key) == if k == key then v else JNull
  {
    var ms := [(k, v)];
    assert ms[..|ms| - 1] == [];
    assert Get(ms, key) == if k == key then Some(v) else Get([], key);
  }

  /** The distinct keys of an object in first-insertion order (`list(d)` for a Python dict). */
  function Keys(ms: Members): (r: seq<string>)
    ensures |r| <= |ms|
    ensures r == [] <==> ms == []
  {
    if ms == [] then []
    else
      var rest := Keys(ms[..|ms| - 1]);
      var k := ms[|ms| - 1].0;
      if k in rest then rest else rest + [k]
  }

  predicate HasKey(ms: Members, k: string) {
    exists i :: 0 <= i < |ms| && ms[i].0 == k
  }

  /** The index of the first member with key `k`. */
  function FirstAt(ms: Members, k: string): (n: nat)
    requires HasKey(ms, k)
    ensures n < |ms| && ms[n].0 == k
    ensures forall j :: 0 <= j < n ==> ms[j].0 != k
  {
    var front := ms[..|ms| - 1];
    if HasKey(front, k) then FirstAt(front, k) else |ms| - 1
  }

  /** `Keys` lists each key of the object exactly once, in the order of their first members. */
  lemma {:induction false} KeysListsEachKeyOnce(ms: Members)
    ensures forall k :: k in Keys(ms) <==> HasKey(ms, k)
    ensures forall i, j :: 0 <= i < j < |Keys(ms)| ==> Keys(ms)[i] != Keys(ms)[j]
    ensures forall i, j :: 0 <= i < j < |Keys(ms)| ==> FirstAt(ms, Keys(ms)[i]) < FirstAt(ms, Keys(ms)[j])
  {
    if ms != [] {
      var front := ms[..|ms| - 1];
      KeysListsEachKeyOnce(front);
      assert forall i :: 0 <= i < |front| ==> front[i] == ms[i];
      forall k | HasKey(front, k)
        ensures FirstAt(ms, k) == FirstAt(front, k) < |front|
      {
      }
      assert forall i :: 0 <= i < |Keys(front)| ==> Keys(ms)[i] == Keys(front)[i];
    }
  }

  /** Python's `bool(v)`: false exactly for `None`, `False`, `0`, `""`, `[]` and `{}`. */
  predicate Truthy(v: Json)
    ensures !Truthy(v) <==> (|| v == JNull || v == JBool(false) || v == JNum(0)
                             || v == JStr("") || v == JArr([]) || v == JObj([]))
  {
    match v
    case JNull => false
    case JBool(b) => b
    case JNum(n) => n != 0
    case JStr(s) => s != []
    case JArr(items) => items != []
    case JObj(ms) => ms != []
  }

  /**
   * Python's `str(v)`. Scalars are converted exactly; the text Python gives
   * for a list or a dict (its `repr`) is supplied by the caller as `repr`.
   */
  function PyStr(v: Json, repr: Json -> string): (r: string)
    ensures v.JStr? ==> r == v.s
    ensures v.JNum? ==> r == IntToString(v.n)
  {
    match v
    case JNull => "None"
    case JBool(b) => if b then "True" else "False"
    case JNum(n) => IntToString(n)
    case JStr(s) => s
    case JArr(_) => repr(v)
    case JObj(_) => repr(v)
  }

  /**
   * `str()` of an integer is its decimal text: a minus sign exactly when it is
   * negative, then digits that read back as its magnitude, with a leading zero
   * only for zero itself.
   */
  lemma PyStrOfInteger(n: int, repr: Json -> string)
    ensures var r := PyStr(JNum(n), repr);
            var digits := if n < 0 then r[1..] else r;
            && (r[0] == '-' <==> n < 0)
            && digits != [] && (forall i :: 0 <= i < |digits| ==> IsDigit(digits[i]))
            && DigitsValue(digits) == (if n < 0 then -n else n)
            && (digits[0] == '0' <==> n == 0)
  {
    var m := if n < 0 then -n else n;
    NatToStringRoundTrip(m);
    if n < 0 {
      assert PyStr(JNum(n), repr)[1..] == NatToString(m);
    }
  }

  /**
   * Python's `list(v)`: the items of an array, the one-character strings of a
   * string, the keys of an object; `None` where Python raises `TypeError`
   * (numbers and booleans).
   */
  function AsList(v: Json): (r: Option<seq<Json>>)
    requires v != JNull
    ensures r.None? <==> v.JNum? || v.JBool?
    ensures v.JArr? ==> r == Some(v.items)
    ensures v.JStr? ==> |r.value| == |v.s| && forall i :: 0 <= i < |v.s| ==> r.value[i] == JStr([v.s[i]])
    ensures v.JObj? ==> r.value == Strings(Keys(v.members))
  {
    match v
    case JArr(items) => Some(items)
    case JStr(s) => Some(Strings(Chars(s)))
    case JObj(ms) => Some(Strings(Keys(ms)))
    case _ => None
  }

  /** The one-character strings of `s`, in order. */
  function Chars(s: string): (r: seq<string>)
    ensures |r| == |s|
    ensures forall i :: 0 <= i < |s| ==> r[i] == [s[i]]
  {
    if s == [] then [] else Chars(s[..|s| - 1]) + [[s[|s| - 1]]]
  }

  /** Each string as a JSON string, in order. */
  function Strings(ss: seq<string>): (r: seq<Json>)
    ensures |r| == |ss|
    ensures forall i :: 0 <= i < |ss| ==> r[i] == JStr(ss[i])
  {
    if ss == [] then [] else Strings(ss[..|ss| - 1]) + [JStr(ss[|ss| - 1])]
  }

  /** `bool(list(v))` agrees with `bool(v)` wherever `list(v)` is defined. */
  lemma AsListKeepsTruthiness(v: Json)
    requires v != JNull && AsList(v).Some?
    ensures (|AsList(v).value| > 0) == Truthy(v)
  {
    if v.JObj? && v.members != [] {
      KeysListsEachKeyOnce(v.members);
      var k := v.members[0].0;
      assert k in Keys(v.members);
    }
  }
}
