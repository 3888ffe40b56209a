/**
 * A JSON document as PHP's `json_decode($text, true)` hands it over: objects
 * become ordered associative arrays (string keys, insertion order kept) and
 * arrays become lists. Only the operations `changeComposer` performs on such a
 * value are defined here: key lookup, `isset`, assignment to a key, PHP's
 * truthiness test, and PHP 8's loose comparison with a non-numeric string.
 */
module Json {
  import opened Wrappers

  datatype Value =
    | Null
    | Bool(b: bool)
    | Num(n: int)
    | Str(s: string)
    | Arr(items: seq<Value>)
    | Obj(members: seq<(string, Value)>)

  /** The keys of an associative array, in order. */
  function Keys(ms: seq<(string, Value)>): (ks: seq<string>)
    ensures |ks| == |ms|
    ensures forall i :: 0 <= i < |ms| ==> ks[i] == ms[i].0
  {
    if ms == [] then [] else [ms[0].0] + Keys(ms[1..])
  }

  /** The values of an associative array, in order (what `in_array` scans). */
  function Values(ms: seq<(string, Value)>): (vs: seq<Value>)
    ensures |vs| == |ms|
    ensures forall i :: 0 <= i < |ms| ==> vs[i] == ms[i].1
  {
    if ms == [] then [] else [ms[0].1] + Values(ms[1..])
  }

  /** `$a[$key]` on an associative array: the value stored under `key`, if any. */
  function Lookup(ms: seq<(string, Value)>, key: string): (r: Option<Value>)
    ensures r.Some? <==> key in Keys(ms)
  {
    if ms == [] then None
    else if ms[0].0 == key then Some(ms[0].1)
    else Lookup(ms[1..], key)
  }

  /**
   * `$a[$key] = $val`: an existing key keeps its position and takes the new
   * value; a new key is appended at the end.
   */
  function Assign(ms: seq<(string, Value)>, key: string, val: Value): (r: seq<(string, Value)>)
    ensures Lookup(r, key) == Some(val)
    ensures forall k :: k != key ==> Lookup(r, k) == Lookup(ms, k)
  {
    if ms == [] then [(key, val)]
    else if ms[0].0 == key then
      ConsFacts((key, val), ms[1..]);
      ConsFacts(ms[0], ms[1..]);
      [(key, val)] + ms[1..]
    else
      var rest := Assign(ms[1..], key, val);
      ConsFacts(ms[0], rest);
      ConsFacts(ms[0], ms[1..]);
      [ms[0]] + rest
  }

  /** An assigned key keeps its place among the keys, or is appended when it is new. */
  lemma {:induction false} AssignKeys(ms: seq<(string, Value)>, key: string, val: Value)
    ensures Keys(Assign(ms, key, val)) == if key in Keys(ms) then Keys(ms) else Keys(ms) + [key]
  {
    AssignKeysByLookup(ms, key, val);
  }

  lemma {:induction false} AssignKeysByLookup(ms: seq<(string, Value)>, key: string, val: Value)
    ensures Keys(Assign(ms, key, val)) == if Lookup(ms, key).Some? then Keys(ms) else Keys(ms) + [key]
  {
    if ms != [] && ms[0].0 != key {
      var head, tail := ms[0], ms[1..];
      var rest := Assign(tail, key, val);
      assert Assign(ms, key, val) == [head] + rest;
      assert Lookup(ms, key) == Lookup(tail, key);
      AssignKeysByLookup(tail, key, val);
      KeysCons(head, rest);
      KeysCons(head, tail);
      assert [head] + tail == ms;
      if Lookup(tail, key).None? {
        AppendAssoc(head.0, Keys(tail), key);
      }
    } else if ms != [] {
      KeysCons((key, val), ms[1..]);
      KeysCons(ms[0], ms[1..]);
      assert [ms[0]] + ms[1..] == ms;
    }
  }

  lemma KeysCons(m: (string, Value), rest: seq<(string, Value)>)
    ensures Keys([m] + rest) == [m.0] + Keys(rest)
  {
    assert ([m] + rest)[1..] == rest;
  }

  lemma AppendAssoc(x: string, s: seq<string>, y: string)
    ensures [x] + (s + [y]) == ([x] + s) + [y]
  {
  }

  /** How `Lookup` and `Keys` see a member placed in front of others. */
  lemma ConsFacts(m: (string, Value), rest: seq<(string, Value)>)
    ensures Keys([m] + rest) == [m.0] + Keys(rest)
    ensures forall k :: Lookup([m] + rest, k) == if m.0 == k then Some(m.1) else Lookup(rest, k)
  {
    assert ([m] + rest)[1..] == rest;
  }

  /**
   * `$v[$key]` read as PHP's `isset` sees it: the member's value when `v` is an
   * associative array holding `key`, and `Null` otherwise (a missing key, a
   * list, or a scalar, whose string offsets are never set for these keys).
   */
  function Member(v: Value, key: string): (r: Value)
    ensures r != Null ==> v.Obj? && Lookup(v.members, key) == Some(r)
    ensures v.Obj? && Lookup(v.members, key).Some? ==> r == Lookup(v.members, key).value
  {
    match v
    case Obj(ms) => Lookup(ms, key).GetOr(Null)
    case _ => Null
  }

  /** `Member` after an assignment: the key holds the new value, every other key its old one. */
  lemma MemberAssign(ms: seq<(string, Value)>, key: string, val: Value)
    ensures Member(Obj(Assign(ms, key, val)), key) == val
    ensures forall k :: k != key ==> Member(Obj(Assign(ms, key, val)), k) == Member(Obj(ms), k)
  {
  }

  /** `isset($v[$key])`: the key is present and its value is not null. */
  predicate IsSet(v: Value, key: string) {
    Member(v, key) != Null
  }

  /** PHP's conversion to bool, as `if (!$content)` applies it. */
  predicate Truthy(v: Value) {
    match v
    case Null => false
    case Bool(b) => b
    case Num(n) => n != 0
    case Str(s) => s != "" && s != "0"
    case Arr(items) => items != []
    case Obj(ms) => ms != []
  }

  /** An integer as PHP converts it to a string: decimal digits, `-` in front when negative. */
  function Decimal(n: int): string
    decreases if n < 0 then 1 - n else n
  {
    if n < 0 then "-" + Decimal(-n)
    else if n < 10 then [Digit(n)]
    else Decimal(n / 10) + [Digit(n % 10)]
  }

  function Digit(d: int): char
    requires 0 <= d < 10
  {
    "0123456789"[d]
  }

  /** The first character of an integer's decimal form is a digit or `-`. */
  lemma {:induction false} DecimalLead(n: int)
    ensures Decimal(n) != [] && Decimal(n)[0] in "-0123456789"
    decreases if n < 0 then 1 - n else n
  {
    if n < 0 {
      assert Decimal(n)[0] == '-';
    } else if n >= 10 {
      DecimalLead(n / 10);
      assert Decimal(n)[0] == Decimal(n / 10)[0];
    }
  }

  /**
   * Keys "0", "1", ... in order: PHP holds an associative array with exactly
   * these keys as a list, and `json_encode` writes it as a JSON array.
   */
  predicate ListKeys(ms: seq<(string, Value)>) {
    forall i :: 0 <= i < |ms| ==> ms[i].0 == Decimal(i)
  }

  /**
   * A value after `json_encode` has written it and `json_decode($text, true)`
   * has read it back: an object whose keys are "0", "1", ... in order (the
   * empty object among them) comes back as a list, and everything inside is
   * treated alike.
   */
  function Canon(v: Value): (c: Value)
    ensures !v.Arr? && !v.Obj? ==> c == v
    ensures v.Arr? ==> c.Arr? && |c.items| == |v.items|
    ensures v.Obj? && ListKeys(v.members) ==> c.Arr? && |c.items| == |v.members|
    ensures v.Obj? && !ListKeys(v.members) ==> c.Obj? && Keys(c.members) == Keys(v.members)
    decreases v
  {
    match v
    case Arr(items) => Arr(seq(|items|, i requires 0 <= i < |items| => Canon(items[i])))
    case Obj(ms) =>
      if ListKeys(ms) then Arr(seq(|ms|, i requires 0 <= i < |ms| => Canon(ms[i].1)))
      else Obj(seq(|ms|, i requires 0 <= i < |ms| => (ms[i].0, Canon(ms[i].1))))
    case _ => v
  }

  /**
   * Writing and reading back a value that has already been through the
   * round trip changes nothing: `Canon` is idempotent.
   */
  lemma {:induction false} CanonStable(v: Value)
    ensures Canon(Canon(v)) == Canon(v)
    decreases v
  {
    match v
    case Arr(items) =>
      var c := Canon(v);
      forall i | 0 <= i < |items| ensures Canon(c.items[i]) == c.items[i] {
        CanonStable(items[i]);
      }
      assert Canon(c).items == c.items;
    case Obj(ms) =>
      var c := Canon(v);
      forall i | 0 <= i < |ms| ensures Canon(Canon(ms[i].1)) == Canon(ms[i].1) {
        CanonStable(ms[i].1);
      }
      if ListKeys(ms) {
        assert Canon(c).items == c.items;
      } else {
        assert !ListKeys(c.members) by {
          var i :| 0 <= i < |ms| && ms[i].0 != Decimal(i);
          assert Keys(c.members)[i] == Keys(ms)[i];
        }
        assert Canon(c).members == c.members;
      }
    case _ =>
  }

  /** `Canon` of a list is the list of `Canon` of its elements. */
  lemma CanonList(items: seq<Value>)
    ensures Canon(Arr(items)).Arr? && |Canon(Arr(items)).items| == |items|
    ensures forall i :: 0 <= i < |items| ==> Canon(Arr(items)).items[i] == Canon(items[i])
  {
  }

  /** A key that does not start like a number keeps an object from being a list. */
  lemma KeyBlocksList(ms: seq<(string, Value)>, key: string)
    requires key in Keys(ms) && key != [] && key[0] !in "-0123456789"
    ensures !ListKeys(ms)
  {
    var i :| 0 <= i < |ms| && Keys(ms)[i] == key;
    DecimalLead(i);
  }

  /** Looking a key up member by member in canonical members. */
  lemma {:induction false} LookupCanon(ms: seq<(string, Value)>, cm: seq<(string, Value)>, key: string)
    requires |cm| == |ms| && forall i :: 0 <= i < |ms| ==> cm[i] == (ms[i].0, Canon(ms[i].1))
    ensures Lookup(cm, key) == if Lookup(ms, key).Some? then Some(Canon(Lookup(ms, key).value)) else None
  {
    if ms != [] && ms[0].0 != key {
      assert cm[0] == (ms[0].0, Canon(ms[0].1));
      LookupCanon(ms[1..], cm[1..], key);
    }
  }

  /**
   * A value holding a key that does not start like a number is an object
   * that stays one under `Canon`, and its member is `Canon` of the old one.
   */
  lemma MemberOfCanon(v: Value, key: string)
    requires Member(v, key) != Null && key != [] && key[0] !in "-0123456789"
    ensures Canon(v).Obj? && Canon(v).members != []
    ensures Member(Canon(v), key) == Canon(Member(v, key))
  {
    KeyBlocksList(v.members, key);
    MemberCanon(v.members, key);
  }

  /** In an object that is not a list, a member of `Canon` is `Canon` of the member. */
  lemma MemberCanon(ms: seq<(string, Value)>, key: string)
    requires !ListKeys(ms)
    ensures Canon(Obj(ms)).Obj? && |Canon(Obj(ms)).members| == |ms|
    ensures Member(Canon(Obj(ms)), key) == Canon(Member(Obj(ms), key))
  {
    LookupCanon(ms, Canon(Obj(ms)).members, key);
  }

  /**
   * A string that cannot be numeric in PHP's sense: a numeric string starts,
   * after optional whitespace, with a sign, a digit or a decimal point.
   */
  predicate NonNumeric(s: string) {
    s != [] && s[0] !in " \t\n\r\U{0B}\U{0C}+-.0123456789"
  }

  /**
   * PHP 8's loose comparison `$x == $s` of a decoded value with a string that
   * is not numeric: `null` compares as the empty string; a bool compares with
   * the string's truth value; an integer compares as its decimal string
   * (PHP 8 no longer converts the string to a number when it is not numeric);
   * two strings compare byte by byte; an array never equals a string.
   */
  predicate LooseEqualsText(x: Value, s: string)
    requires NonNumeric(s)
  {
    match x
    case Null => s == ""
    case Bool(b) => b == Truthy(Str(s))
    case Num(n) => Decimal(n) == s
    case Str(t) => t == s
    case Arr(_) => false
    case Obj(_) => false
  }
}
