/**
  The Python objects the binding handles: what `response.json()` decodes to,
  the arguments callers pass, and the enum members the translator puts in.
  A dict is an association list in insertion order (Python dicts keep it);
  its keys are strings, or TagStatus members once file metadata is re-keyed.
*/
module PyValue {
  import opened Wrappers
  import opened Vocabulary

  datatype Key = KStr(s: string) | KStatus(status: TagStatus)

  datatype Value =
    | NoneV
    | BoolV(b: bool)
    | IntV(i: int)
    | StrV(s: string)
    | ListV(items: seq<Value>)
    | DictV(entries: seq<(Key, Value)>)
    | MemberV(member: EnumMember)

  type Entries = seq<(Key, Value)>

  /** Python's `bool(v)`; an IntEnum member is falsy exactly when its value is 0. */
  predicate Truthy(v: Value) {
    match v
    case NoneV => false
    case BoolV(b) => b
    case IntV(i) => i != 0
    case StrV(s) => s != ""
    case ListV(items) => items != []
    case DictV(entries) => entries != []
    case MemberV(m) => m.Code() != 0
  }

  /**
    The falsy values: None, False, 0, "", [], {} and an IntEnum member whose
    value is 0. So an empty list of hashes or a file id of 0 counts as absent.
  */
  lemma FalsyValues(v: Value)
    ensures !Truthy(v) <==>
      || v in {NoneV, BoolV(false), IntV(0), StrV(""), ListV([]), DictV([])}
      || (v.MemberV? && v.member.Code() == 0)
  {
  }

  /** The integer a value compares equal to, if any (bool and IntEnum are int subclasses). */
  function IntValue(v: Value): Option<int> {
    match v
    case IntV(i) => Some(i)
    case BoolV(b) => Some(if b then 1 else 0)
    case MemberV(m) => Some(m.Code())
    case _ => None
  }

  /** A dict key as the object iteration over the dict yields. */
  function KeyValue(k: Key): Value {
    match k
    case KStr(s) => StrV(s)
    case KStatus(t) => MemberV(TagStatusMember(t))
  }

  /** What `for x in v` visits, or None when v is not iterable (TypeError). */
  function Iterate(v: Value): (r: Option<seq<Value>>)
    ensures r.Some? <==> v.ListV? || v.StrV? || v.DictV?
    ensures v.ListV? ==> r == Some(v.items)
    ensures v.StrV? ==> |r.value| == |v.s| && forall i :: 0 <= i < |v.s| ==> r.value[i] == StrV([v.s[i]])
    ensures v.DictV? ==> |r.value| == |v.entries|
    ensures v.DictV? ==> forall i :: 0 <= i < |v.entries| ==> r.value[i] == KeyValue(v.entries[i].0)
  {
    match v
    case ListV(items) => Some(items)
    case StrV(s) => Some(seq(|s|, i requires 0 <= i < |s| => StrV([s[i]])))
    case DictV(entries) => Some(seq(|entries|, i requires 0 <= i < |entries| => KeyValue(entries[i].0)))
    case _ => None
  }

  // ---------------------------------------------------------------------------
  // Dicts as association lists

  function KeysOf(d: Entries): seq<Key> {
    seq(|d|, i requires 0 <= i < |d| => d[i].0)
  }

  /** A Python dict never holds a key twice. */
  predicate DistinctKeys(d: Entries) {
    forall i, j :: 0 <= i < j < |d| ==> d[i].0 != d[j].0
  }

  /** The mapping a dict denotes; an earlier entry shadows a later one with the same key. */
  function ToMap(d: Entries): map<Key, Value> {
    if d == [] then map[] else ToMap(d[1..])[d[0].0 := d[0].1]
  }

  lemma {:induction false} ToMapDomain(d: Entries)
    ensures forall k :: k in ToMap(d) <==> k in KeysOf(d)
  {
    if d != [] {
      ToMapDomain(d[1..]);
      assert KeysOf(d) == [d[0].0] + KeysOf(d[1..]);
    }
  }

  /** `d[k]`: the value of the entry for k, if there is one. */
  function Get(d: Entries, k: Key): (r: Option<Value>)
    ensures r.Some? <==> k in ToMap(d)
    ensures r.Some? ==> r.value == ToMap(d)[k]
  {
    if d == [] then None
    else if d[0].0 == k then Some(d[0].1)
    else Get(d[1..], k)
  }

  /** `d[k] = v`: an existing key keeps its place, a new key goes last. */
  function Set(d: Entries, k: Key, v: Value): Entries {
    if d == [] then [(k, v)]
    else if d[0].0 == k then [(k, v)] + d[1..]
    else [d[0]] + Set(d[1..], k, v)
  }

  lemma {:induction false} SetMap(d: Entries, k: Key, v: Value)
    ensures ToMap(Set(d, k, v)) == ToMap(d)[k := v]
  {
    if d != [] && d[0].0 != k {
      SetMap(d[1..], k, v);
    }
  }

  lemma {:induction false} SetKeys(d: Entries, k: Key, v: Value)
    ensures k in KeysOf(d) ==> KeysOf(Set(d, k, v)) == KeysOf(d)
    ensures k !in KeysOf(d) ==> KeysOf(Set(d, k, v)) == KeysOf(d) + [k]
  {
    if d != [] {
      assert KeysOf(d) == [d[0].0] + KeysOf(d[1..]);
      if d[0].0 == k {
        assert KeysOf(Set(d, k, v)) == KeysOf(d);
      } else {
        SetKeys(d[1..], k, v);
        assert KeysOf(Set(d, k, v)) == [d[0].0] + KeysOf(Set(d[1..], k, v));
      }
    }
  }

  lemma SetKeepsDistinct(d: Entries, k: Key, v: Value)
    requires DistinctKeys(d)
    ensures DistinctKeys(Set(d, k, v))
  {
    var r := Set(d, k, v);
    SetKeys(d, k, v);
    assert forall j :: 0 <= j < |r| ==> r[j].0 == KeysOf(r)[j];
    assert forall j :: 0 <= j < |d| ==> d[j].0 == KeysOf(d)[j];
  }

  /** `del d[k]`: every entry for k goes, the others keep their order. */
  function Del(d: Entries, k: Key): Entries {
    if d == [] then []
    else if d[0].0 == k then Del(d[1..], k)
    else [d[0]] + Del(d[1..], k)
  }

  lemma {:induction false} DelMap(d: Entries, k: Key)
    ensures ToMap(Del(d, k)) == ToMap(d) - {k}
  {
    if d != [] {
      DelMap(d[1..], k);
    }
  }

  lemma {:induction false} DelMembers(d: Entries, k: Key)
    ensures forall e :: e in Del(d, k) <==> e in d && e.0 != k
  {
    if d != [] {
      DelMembers(d[1..], k);
    }
  }

  lemma {:induction false} DelKeepsDistinct(d: Entries, k: Key)
    requires DistinctKeys(d)
    ensures DistinctKeys(Del(d, k))
  {
    if d != [] {
      DelKeepsDistinct(d[1..], k);
      DelMembers(d[1..], k);
      var r := Del(d, k);
      if d[0].0 != k {
        forall j | 1 <= j < |r| ensures r[j].0 != d[0].0 {
          assert r[j] in Del(d[1..], k);
          assert r[j] in d[1..];
        }
      }
    }
  }

  // ---------------------------------------------------------------------------
  // Python's int() on a string

  predicate IsDigit(c: char) {
    '0' <= c <= '9'
  }

  predicate AllDigits(s: string) {
    forall i :: 0 <= i < |s| ==> IsDigit(s[i])
  }

  function DigitValue(c: char): nat
    requires IsDigit(c)
  {
    (c as int) - ('0' as int)
  }

  /** The number a non-empty run of decimal digits denotes. */
  function DigitsValue(s: string): nat
    requires AllDigits(s)
  {
    if s == [] then 0 else 10 * DigitsValue(s[..|s| - 1]) + DigitValue(s[|s| - 1])
  }

  /** `int(s)`: an optional sign and at least one decimal digit, or None (ValueError). */
  function ParseInt(s: string): (r: Option<int>)
    ensures r.Some? <==> (s != [] && AllDigits(s)) || (|s| >= 2 && s[0] in "+-" && AllDigits(s[1..]))
  {
    if s != [] && AllDigits(s) then Some(DigitsValue(s))
    else if |s| >= 2 && s[0] == '+' && AllDigits(s[1..]) then Some(DigitsValue(s[1..]))
    else if |s| >= 2 && s[0] == '-' && AllDigits(s[1..]) then Some(0 - DigitsValue(s[1..]) as int)
    else None
  }

  /** `str(n)` for an integer: the decimal digits, no leading zero, a minus sign when negative. */
  function ShowNat(n: nat): (s: string)
    ensures s != [] && AllDigits(s)
    ensures s[0] == '0' ==> n == 0
  {
    if n < 10 then ['0' + n as char]
    else ShowNat(n / 10) + ['0' + (n % 10) as char]
  }

  function ShowInt(n: int): string {
    if n < 0 then "-" + ShowNat(-n) else ShowNat(n)
  }

  lemma {:induction false} DigitsOfShowNat(n: nat)
    ensures DigitsValue(ShowNat(n)) == n
  {
    if n >= 10 {
      DigitsOfShowNat(n / 10);
      var s := ShowNat(n);
      assert s[..|s| - 1] == ShowNat(n / 10);
    }
  }

  /** int(str(n)) == n: the service's status keys parse back to the numbers it wrote. */
  lemma ParseShowInt(n: int)
    ensures ParseInt(ShowInt(n)) == Some(n)
  {
    if n < 0 {
      DigitsOfShowNat(-n);
      assert ShowInt(n)[1..] == ShowNat(-n);
    } else {
      DigitsOfShowNat(n);
    }
  }
}
