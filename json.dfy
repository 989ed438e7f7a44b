/**
 * JSON values as the handlers read and write them: `JSON.stringify` (section
 * 25.5.2 of ECMA-262, for integer numbers), JavaScript truthiness, `a || b`,
 * property reads and the string conversion a template literal applies.
 * `JSON.parse` is not defined here: the handlers receive it as a parameter.
 */
module Json {
  import opened Options
  import Text

  datatype Value =
    | Null
    | Bool(b: bool)
    | Num(n: int)
    | Str(s: string)
    | Arr(items: seq<Value>)
    | Obj(members: seq<(string, Value)>)

  /** ToBoolean (ECMA-262 section 7.1.2) on a parsed value. */
  predicate Truthy(v: Value) {
    match v
    case Null => false
    case Bool(b) => b
    case Num(n) => n != 0
    case Str(s) => s != ""
    case Arr(_) => true
    case Obj(_) => true
  }

  /** `a || d`, where `a` may be `undefined`. */
  function Or(a: Option<Value>, d: Value): (r: Value)
    ensures a.Some? && Truthy(a.value) ==> r == a.value
    ensures !(a.Some? && Truthy(a.value)) ==> r == d
  {
    if a.Some? && Truthy(a.value) then a.value else d
  }

  /**
   * The value read by `v.key` for a key that names no built-in property: the
   * last member with that key of an object (as `JSON.parse` keeps the last of
   * duplicate keys), `undefined` on any other non-null value.  Reading from
   * `null` throws; callers test for it first.
   */
  function Member(v: Value, key: string): (r: Option<Value>)
    ensures v.Obj? && (exists i :: 0 <= i < |v.members| && v.members[i].0 == key) <==> r.Some?
  {
    if v.Obj? then LastMember(v.members, key) else None
  }

  function LastMember(members: seq<(string, Value)>, key: string): (r: Option<Value>)
    ensures r.Some? <==> exists i :: 0 <= i < |members| && members[i].0 == key
    ensures r.Some? ==> exists i :: 0 <= i < |members| && members[i] == (key, r.value)
  {
    if members == [] then None
    else
      var last := members[|members| - 1];
      if last.0 == key then Some(last.1)
      else
        var r := LastMember(members[..|members| - 1], key);
        assert forall i :: 0 <= i < |members| - 1 ==> members[..|members| - 1][i] == members[i];
        r
  }

  /** A member that is written after every other member with the same key is the one read. */
  lemma {:induction false} MemberOfObject(before: seq<(string, Value)>, key: string, v: Value, after: seq<(string, Value)>)
    requires forall i :: 0 <= i < |after| ==> after[i].0 != key
    ensures Member(Obj(before + [(key, v)] + after), key) == Some(v)
    decreases |after|
  {
    if after != [] {
      var ms := before + [(key, v)] + after;
      assert ms[..|ms| - 1] == before + [(key, v)] + after[..|after| - 1];
      MemberOfObject(before, key, v, after[..|after| - 1]);
    }
  }

  /** `a?.key`: `undefined` when `a` is `null` or `undefined`, the property read otherwise. */
  function OptMember(a: Option<Value>, key: string): (r: Option<Value>)
    ensures (a.None? || a.value.Null?) ==> r.None?
    ensures a.Some? && !a.value.Null? ==> r == Member(a.value, key)
  {
    if a.None? || a.value.Null? then None else Member(a.value, key)
  }

  /** `a?.[0]`: the first item of an array, the member `"0"` of an object, the first character of a string. */
  function OptFirst(a: Option<Value>): (r: Option<Value>)
    ensures a.Some? && a.value.Arr? ==> (r.Some? <==> |a.value.items| > 0)
    ensures a.Some? && a.value.Arr? && |a.value.items| > 0 ==> r == Some(a.value.items[0])
  {
    if a.None? then None
    else match a.value
      case Arr(items) => if |items| > 0 then Some(items[0]) else None
      case Obj(_) => Member(a.value, "0")
      case Str(s) => if |s| > 0 then Some(Str([s[0]])) else None
      case _ => None
  }

  /** A key written nowhere in the object reads as `undefined`. */
  lemma MemberAbsent(members: seq<(string, Value)>, key: string)
    requires forall i :: 0 <= i < |members| ==> members[i].0 != key
    ensures Member(Obj(members), key) == None
  {
  }

  /**
   * The member read from an object written as fields: the field of that key,
   * when no other field before or after it has the same key.
   */
  lemma MemberOfFields(before: seq<(string, Value)>, key: string, v: Option<Value>, after: seq<(string, Value)>)
    requires forall i :: 0 <= i < |before| ==> before[i].0 != key
    requires forall i :: 0 <= i < |after| ==> after[i].0 != key
    ensures Member(Obj(before + Field(key, v) + after), key) == v
  {
    if v.Some? {
      MemberOfObject(before, key, v.value, after);
    } else {
      assert before + Field(key, v) + after == before + after;
      MemberAbsent(before + after, key);
    }
  }

  /** The members of a JavaScript object literal: a property whose value is `undefined` is left out. */
  function Field(key: string, v: Option<Value>): (r: seq<(string, Value)>)
    ensures v.None? ==> r == []
    ensures v.Some? ==> r == [(key, v.value)]
  {
    match v
    case None => []
    case Some(x) => [(key, x)]
  }

  /** The members of an object literal whose properties may be `undefined`: the defined ones, in order. */
  function Fields(props: seq<(string, Option<Value>)>): seq<(string, Value)> {
    if props == [] then []
    else
      var last := props[|props| - 1];
      Fields(props[..|props| - 1]) + Field(last.0, last.1)
  }

  /** Every member of an object literal comes from one of its properties. */
  lemma {:induction false} FieldsKeys(props: seq<(string, Option<Value>)>)
    ensures forall i :: 0 <= i < |Fields(props)| ==> exists j :: 0 <= j < |props| && Fields(props)[i].0 == props[j].0
    decreases |props|
  {
    if props != [] {
      var init := props[..|props| - 1];
      FieldsKeys(init);
      var last := props[|props| - 1];
      var front, ms := Fields(init), Fields(props);
      assert ms == front + Field(last.0, last.1);
      forall i | 0 <= i < |ms| ensures exists j :: 0 <= j < |props| && ms[i].0 == props[j].0 {
        if i < |front| {
          assert ms[i] == front[i];
          var j :| 0 <= j < |init| && front[i].0 == init[j].0;
          assert init[j] == props[j];
        } else {
          assert ms[i].0 == props[|props| - 1].0;
        }
      }
    } else {
      assert Fields(props) == [];
    }
  }

  predicate DistinctKeys(props: seq<(string, Option<Value>)>) {
    forall i, j :: 0 <= i < j < |props| ==> props[i].0 != props[j].0
  }

  /** Each property of an object literal with distinct keys reads back as the value it was given. */
  lemma {:induction false} MemberOfFieldsAt(props: seq<(string, Option<Value>)>, k: nat)
    requires DistinctKeys(props) && k < |props|
    ensures Member(Obj(Fields(props)), props[k].0) == props[k].1
    decreases |props|
  {
    var init, last, key := props[..|props| - 1], props[|props| - 1], props[k].0;
    var ms := Fields(props);
    assert ms == Fields(init) + Field(last.0, last.1);
    if k == |props| - 1 {
      if last.1.None? {
        FieldsKeys(init);
        forall i | 0 <= i < |ms| ensures ms[i].0 != key {
          var j :| 0 <= j < |init| && ms[i].0 == init[j].0;
          assert init[j] == props[j];
        }
      }
    } else {
      MemberOfFieldsAt(init, k);
      assert init[k] == props[k];
      assert last.0 != key;
      if last.1.Some? {
        assert ms[|ms| - 1] == (last.0, last.1.value);
        assert ms[..|ms| - 1] == Fields(init);
        assert Member(Obj(ms), key) == LastMember(Fields(init), key);
      } else {
        assert ms == Fields(init);
      }
    }
  }

  /** The first three properties of an object literal with distinct keys read back as given. */
  lemma MemberOfFieldsFirstThree(props: seq<(string, Option<Value>)>)
    requires DistinctKeys(props) && |props| >= 3
    ensures Member(Obj(Fields(props)), props[0].0) == props[0].1
    ensures Member(Obj(Fields(props)), props[1].0) == props[1].1
    ensures Member(Obj(Fields(props)), props[2].0) == props[2].1
  {
    MemberOfFieldsAt(props, 0);
    MemberOfFieldsAt(props, 1);
    MemberOfFieldsAt(props, 2);
  }

  function OptStr(o: Option<string>): Option<Value> {
    match o
    case None => None
    case Some(s) => Some(Str(s))
  }

  /** ToString as a template literal applies it (ECMA-262 section 7.1.17); arrays render as `join(',')`. */
  function ToText(v: Value): string
    decreases v
  {
    match v
    case Null => "null"
    case Bool(b) => if b then "true" else "false"
    case Num(n) => Text.Decimal(n)
    case Str(s) => s
    case Arr(items) =>
      Commas(seq(|items|, i requires 0 <= i < |items| =>
        assert items[i] in items;
        if items[i].Null? then "" else ToText(items[i])))
    case Obj(_) => "[object Object]"
  }

  /** The pieces separated by commas; the empty string for no pieces. */
  function Commas(parts: seq<string>): string {
    if parts == [] then "" else if |parts| == 1 then parts[0] else parts[0] + "," + Commas(parts[1..])
  }

  // ---------------------------------------------------------------------------
  // JSON.stringify

  function LowerHex(v: nat): char
    requires v < 16
  {
    "0123456789abcdef"[v]
  }

  /** One character of a JSON string literal, escaped as QuoteJSONString (ECMA-262 section 25.5.2.3) escapes it. */
  function QuoteChar(c: char): string {
    if c == '\U{0008}' then "\\b"
    else if c == '\t' then "\\t"
    else if c == '\n' then "\\n"
    else if c == '\U{000C}' then "\\f"
    else if c == '\r' then "\\r"
    else if c == '"' then "\\\""
    else if c == '\\' then "\\\\"
    else if c < ' ' then "\\u00" + [LowerHex(c as int / 16), LowerHex(c as int % 16)]
    else [c]
  }

  function QuoteChars(s: string): string {
    if s == "" then "" else QuoteChar(s[0]) + QuoteChars(s[1..])
  }

  function Quote(s: string): string {
    "\"" + QuoteChars(s) + "\""
  }

  /** A string that needs no escaping is written between quotes as it is. */
  lemma {:induction false} QuotePlain(s: string)
    requires forall i :: 0 <= i < |s| ==> s[i] >= ' ' && s[i] != '"' && s[i] != '\\'
    ensures Quote(s) == "\"" + s + "\""
  {
    QuoteCharsPlain(s);
  }

  lemma {:induction false} QuoteCharsPlain(s: string)
    requires forall i :: 0 <= i < |s| ==> s[i] >= ' ' && s[i] != '"' && s[i] != '\\'
    ensures QuoteChars(s) == s
  {
    if s != "" {
      QuoteCharsPlain(s[1..]);
      assert [s[0]] + s[1..] == s;
    }
  }

  /** `JSON.stringify(v)` without indentation. */
  function Stringify(v: Value): string
    decreases v, 1
  {
    match v
    case Null => "null"
    case Bool(b) => if b then "true" else "false"
    case Num(n) => Text.Decimal(n)
    case Str(s) => Quote(s)
    case Arr(items) => "[" + ItemsText(v, 0) + "]"
    case Obj(members) => "{" + MembersText(v, 0) + "}"
  }

  /** The items of an array from index `i` on, stringified and separated by commas. */
  function ItemsText(v: Value, i: nat): string
    requires v.Arr? && i <= |v.items|
    decreases v, 0, |v.items| - i
  {
    if i == |v.items| then ""
    else
      assert v.items[i] in v.items;
      (if i > 0 then "," else "") + Stringify(v.items[i]) + ItemsText(v, i + 1)
  }

  /** The members of an object from index `i` on, as `"key":value`, separated by commas. */
  function MembersText(v: Value, i: nat): string
    requires v.Obj? && i <= |v.members|
    decreases v, 0, |v.members| - i
  {
    if i == |v.members| then ""
    else
      assert v.members[i] in v.members;
      (if i > 0 then "," else "") + MemberText(v.members[i].0, v.members[i].1) + MembersText(v, i + 1)
  }

  /** One member of an object, `"key":value`. */
  function MemberText(key: string, value: Value): string
    decreases value, 2
  {
    Quote(key) + ":" + Stringify(value)
  }

  /** An object with two members is written as both members, in order, between braces. */
  lemma StringifyTwoMembers(k1: string, v1: Value, k2: string, v2: Value)
    ensures Stringify(Obj([(k1, v1), (k2, v2)])) == "{" + MemberText(k1, v1) + "," + MemberText(k2, v2) + "}"
  {
    var v := Obj([(k1, v1), (k2, v2)]);
    TwoMembersText(k1, v1, k2, v2);
    assert Stringify(v) == "{" + MembersText(v, 0) + "}";
  }

  lemma TwoMembersText(k1: string, v1: Value, k2: string, v2: Value)
    ensures MembersText(Obj([(k1, v1), (k2, v2)]), 0) == MemberText(k1, v1) + "," + MemberText(k2, v2)
  {
    var v := Obj([(k1, v1), (k2, v2)]);
    MembersTextStep(v, 0);
    MembersTextStep(v, 1);
    assert MembersText(v, 2) == "";
  }

  /** One step of `MembersText`: the member at `i`, preceded by a comma unless it is the first. */
  lemma MembersTextStep(v: Value, i: nat)
    requires v.Obj? && i < |v.members|
    ensures MembersText(v, i) == (if i > 0 then "," else "") + MemberText(v.members[i].0, v.members[i].1) + MembersText(v, i + 1)
  {
  }

  /** Quoting adds no `%`: none of the escapes QuoteJSONString writes contains one. */
  lemma {:induction false} QuoteCharsLacksPercent(s: string)
    requires Text.Lacks(s, '%')
    ensures Text.Lacks(QuoteChars(s), '%')
  {
    if s != "" {
      QuoteCharsLacksPercent(s[1..]);
      var q := QuoteChar(s[0]);
      assert Text.Lacks(q, '%') by {
        if s[0] < ' ' && q == "\\u00" + [LowerHex(s[0] as int / 16), LowerHex(s[0] as int % 16)] {
          assert q[4] == LowerHex(s[0] as int / 16) && q[5] == LowerHex(s[0] as int % 16);
        }
      }
      Text.LacksConcat(q, QuoteChars(s[1..]), '%');
    }
  }

  /** A member with a string value has no `%` when neither its key nor its value has one. */
  lemma MemberTextLacksPercent(key: string, s: string)
    requires Text.Lacks(key, '%') && Text.Lacks(s, '%')
    ensures Text.Lacks(MemberText(key, Str(s)), '%')
  {
    QuoteCharsLacksPercent(key);
    QuoteCharsLacksPercent(s);
    Text.LacksConcat("\"", QuoteChars(key), '%');
    Text.LacksConcat("\"" + QuoteChars(key), "\"", '%');
    Text.LacksConcat("\"", QuoteChars(s), '%');
    Text.LacksConcat("\"" + QuoteChars(s), "\"", '%');
    Text.LacksConcat(Quote(key), ":", '%');
    Text.LacksConcat(Quote(key) + ":", Quote(s), '%');
  }

  /** An object of two string members has no `%` when none of its keys and values has one. */
  lemma TwoStringMembersLackPercent(k1: string, s1: string, k2: string, s2: string)
    requires Text.Lacks(k1, '%') && Text.Lacks(s1, '%') && Text.Lacks(k2, '%') && Text.Lacks(s2, '%')
    ensures Text.Lacks(Stringify(Obj([(k1, Str(s1)), (k2, Str(s2))])), '%')
  {
    var m1, m2 := MemberText(k1, Str(s1)), MemberText(k2, Str(s2));
    StringifyTwoMembers(k1, Str(s1), k2, Str(s2));
    MemberTextLacksPercent(k1, s1);
    MemberTextLacksPercent(k2, s2);
    Text.LacksConcat("{", m1, '%');
    Text.LacksConcat("{" + m1, ",", '%');
    Text.LacksConcat("{" + m1 + ",", m2, '%');
    Text.LacksConcat("{" + m1 + "," + m2, "}", '%');
  }
}
