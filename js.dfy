/**
 * JavaScript values as the client sees them after `res.json()` or
 * `JSON.parse`: the usual JSON tree plus `undefined`. Numbers are integers
 * here (floating point is not modelled). Object members keep their textual
 * order; a repeated key resolves to its last occurrence, as in `JSON.parse`.
 */
module Js {
  import opened Common
  import opened Text

  datatype Json =
    | Undefined
    | Null
    | Bool(b: bool)
    | Num(n: int)
    | Str(s: string)
    | Arr(items: seq<Json>)
    | Obj(members: seq<Member>)

  datatype Member = Member(key: string, value: Json)

  /** JavaScript truthiness (`NaN` does not arise, numbers being integers). */
  predicate Truthy(v: Json) {
    match v
    case Undefined => false
    case Null => false
    case Bool(b) => b
    case Num(n) => n != 0
    case Str(s) => s != []
    case Arr(_) => true
    case Obj(_) => true
  }

  /** `null` or `undefined`: the values on which property access throws. */
  predicate Nullish(v: Json) { v.Undefined? || v.Null? }

  /** Some element is `null` or `undefined`: reading a property of it throws. */
  predicate SomeNullish(items: seq<Json>) {
    exists k :: 0 <= k < |items| && Nullish(items[k])
  }

  /** `a || b`: the first operand when it is truthy, else the second. */
  function Or(a: Json, b: Json): (r: Json)
    ensures Truthy(r) <==> Truthy(a) || Truthy(b)
    ensures r == a || r == b
  {
    if Truthy(a) then a else b
  }

  /** `a ?? b`: the first operand unless it is `null` or `undefined`. */
  function Coalesce(a: Json, b: Json): (r: Json)
    ensures r.Undefined? || r.Null? ==> (a.Undefined? || a.Null?)
    ensures r == a || r == b
  {
    if a.Undefined? || a.Null? then b else a
  }

  predicate HasKey(members: seq<Member>, key: string) {
    exists k :: 0 <= k < |members| && members[k].key == key
  }

  /** The value of the last member named `key`, or `undefined` when there is none. */
  function Lookup(members: seq<Member>, key: string): (r: Json)
    ensures !HasKey(members, key) ==> r == Undefined
  {
    if members == [] then Undefined
    else
      var last := members[|members| - 1];
      if last.key == key then last.value
      else Lookup(members[..|members| - 1], key)
  }

  /** A present key reads as the value of its last occurrence, at position `k`. */
  lemma {:induction false} LookupReadsLast(members: seq<Member>, key: string) returns (k: nat)
    requires HasKey(members, key)
    ensures k < |members| && members[k].key == key && members[k].value == Lookup(members, key)
    ensures forall j :: k < j < |members| ==> members[j].key != key
  {
    var n := |members| - 1;
    if members[n].key == key {
      k := n;
    } else {
      var init := members[..n];
      assert HasKey(init, key) by {
        var i :| 0 <= i < |members| && members[i].key == key;
        assert init[i] == members[i];
      }
      k := LookupReadsLast(init, key);
      assert members[k] == init[k];
      forall j | k < j < |members|
        ensures members[j].key != key
      {
        if j < n {
          assert members[j] == init[j];
        }
      }
    }
  }

  /**
   * Property access `v?.key`: the member of an object, and `undefined` for
   * every non-object (`null`, `undefined`, arrays, strings and numbers have
   * none of the keys the client reads).
   */
  function Get(v: Json, key: string): (r: Json)
    ensures !v.Obj? ==> r == Undefined
    ensures v.Obj? && !HasKey(v.members, key) ==> r == Undefined
  {
    if v.Obj? then Lookup(v.members, key) else Undefined
  }

  /** The newest binding wins: a member appended last is what property access sees. */
  lemma GetLastMember(members: seq<Member>, key: string, value: Json)
    ensures Get(Obj(members + [Member(key, value)]), key) == value
  {
  }

  /** A key that occurs once is found at its only position. */
  lemma {:induction false} LookupUnique(members: seq<Member>, key: string, k: int)
    requires 0 <= k < |members| && members[k].key == key
    requires forall j :: 0 <= j < |members| && j != k ==> members[j].key != key
    ensures Lookup(members, key) == members[k].value
  {
    var last := LookupReadsLast(members, key);
  }

  /** Reading a key of a three-member object literal: the last member with that key wins. */
  lemma LookupOfThree(a: Member, b: Member, c: Member, key: string)
    ensures Lookup([a, b, c], key)
      == if c.key == key then c.value else if b.key == key then b.value else if a.key == key then a.value else Undefined
  {
    assert [a, b, c][..2] == [a, b];
    assert [a, b][..1] == [a];
    assert [a][..0] == [];
    assert Lookup([a], key) == if a.key == key then a.value else Undefined;
  }

  /** A four-member literal reads its fourth member first, then the other three. */
  lemma LookupOfFour(a: Member, b: Member, c: Member, d: Member, key: string)
    ensures Lookup([a, b, c, d], key) == if d.key == key then d.value else Lookup([a, b, c], key)
  {
    assert [a, b, c, d][..3] == [a, b, c];
  }

  /** A five-member literal reads its last two members first, then the other three. */
  lemma LookupOfFive(a: Member, b: Member, c: Member, d: Member, e: Member, key: string)
    ensures Lookup([a, b, c, d, e], key)
      == if e.key == key then e.value else if d.key == key then d.value else Lookup([a, b, c], key)
  {
    assert [a, b, c, d, e][..4] == [a, b, c, d];
    assert [a, b, c, d][..3] == [a, b, c];
  }

  /** Members named differently from `key` do not affect `v?.key`. */
  lemma {:induction false} LookupIgnoresOtherKeys(members: seq<Member>, other: Member, key: string)
    requires other.key != key
    ensures Lookup(members + [other], key) == Lookup(members, key)
  {
    assert (members + [other])[..|members|] == members;
  }

  // ---------------------------------------------------------------------------
  // String(v)

  function ElementText(e: Json): string
    decreases e, 2
  {
    if e.Undefined? || e.Null? then "" else ToText(e)
  }

  /**
   * `String(v)` (also what a template literal `${v}` produces): arrays join
   * their elements with "," writing `null`/`undefined` as "", and every
   * object prints as "[object Object]".
   */
  function ToText(v: Json): (r: string)
    decreases v, 1
    ensures v.Str? ==> r == v.s
  {
    match v
    case Undefined => "undefined"
    case Null => "null"
    case Bool(b) => if b then "true" else "false"
    case Num(n) => IntToString(n)
    case Str(s) => s
    case Arr(items) => JoinText(v, 0)
    case Obj(_) => "[object Object]"
  }

  function JoinText(v: Json, i: nat): string
    requires v.Arr? && i <= |v.items|
    decreases v, 0, |v.items| - i
  {
    if i == |v.items| then ""
    else
      assert v.items[i] in v.items;
      ElementText(v.items[i]) + (if i + 1 < |v.items| then "," else "") + JoinText(v, i + 1)
  }

  /** `parseInt(String(n), 10) == n`: a number's text reads back as that number. */
  lemma NumberTextRoundTrip(n: int)
    ensures ParseInt(ToText(Num(n))) == Some(n)
  {
    ParseIntOfIntToString(n);
  }

  /** `String(v)` is empty only for the empty string and for arrays whose elements all print as "". */
  lemma ToTextEmptyOnlyForBlankValues(v: Json)
    requires !v.Arr?
    ensures ToText(v) == [] <==> v == Str([])
  {
  }

  // ---------------------------------------------------------------------------
  // JSON.stringify

  function HexLower(d: nat): (c: char)
    requires d < 16
  {
    ['0', '1', '2', '3', '4', '5', '6', '7', '8', '9', 'a', 'b', 'c', 'd', 'e', 'f'][d]
  }

  /** The JSON escape of one character inside a quoted string. */
  function EscapeChar(c: char): (r: string)
    ensures |r| >= 1
    ensures r[0] == '\\' <==> (c == '"' || c == '\\' || c < ' ')
  {
    if c == '"' then "\\\""
    else if c == '\\' then "\\\\"
    else if c == '\U{8}' then "\\b"
    else if c == '\U{9}' then "\\t"
    else if c == '\U{A}' then "\\n"
    else if c == '\U{C}' then "\\f"
    else if c == '\U{D}' then "\\r"
    else if c < ' ' then "\\u00" + [HexLower((c as int) / 16), HexLower((c as int) % 16)]
    else [c]
  }

  function EscapeText(s: string): (r: string)
    ensures |r| >= |s|
  {
    if s == [] then [] else EscapeChar(s[0]) + EscapeText(s[1..])
  }

  /** A quoted JSON string literal. */
  function Quote(s: string): (r: string)
    ensures |r| >= 2 && r[0] == '"' && r[|r| - 1] == '"'
  {
    "\"" + EscapeText(s) + "\""
  }

  /** Characters that JSON writes as they are inside a string literal. */
  predicate IsPlainChar(c: char) { c != '"' && c != '\\' && c >= ' ' }

  /** Text without quotes, backslashes or control characters is quoted verbatim. */
  lemma {:induction false} QuotePlainText(s: string)
    requires forall k :: 0 <= k < |s| ==> IsPlainChar(s[k])
    ensures Quote(s) == "\"" + s + "\""
  {
    PlainTextEscapesToItself(s);
  }

  lemma {:induction false} PlainTextEscapesToItself(s: string)
    requires forall k :: 0 <= k < |s| ==> IsPlainChar(s[k])
    ensures EscapeText(s) == s
  {
    if s != [] {
      PlainTextEscapesToItself(s[1..]);
      assert s == [s[0]] + s[1..];
    }
  }

  /**
   * `JSON.stringify(v)`: `None` for `undefined` (stringify returns
   * `undefined`), `undefined` array elements written as `null`, object
   * members holding `undefined` skipped.
   */
  function Stringify(v: Json): (r: Option<string>)
    decreases v, 1
    ensures r.None? <==> v.Undefined?
    ensures v.Str? ==> r == Some(Quote(v.s))
  {
    match v
    case Undefined => None
    case Null => Some("null")
    case Bool(b) => Some(if b then "true" else "false")
    case Num(n) => Some(IntToString(n))
    case Str(s) => Some(Quote(s))
    case Arr(_) => Some("[" + ArrayBody(v, 0) + "]")
    case Obj(_) => Some("{" + ObjectBody(v, 0, true) + "}")
  }

  function ArrayBody(v: Json, i: nat): string
    requires v.Arr? && i <= |v.items|
    decreases v, 0, |v.items| - i
  {
    if i == |v.items| then ""
    else
      assert v.items[i] in v.items;
      var text := Stringify(v.items[i]).GetOr("null");
      (if i == 0 then "" else ",") + text + ArrayBody(v, i + 1)
  }

  function ObjectBody(v: Json, i: nat, first: bool): string
    requires v.Obj? && i <= |v.members|
    decreases v, 0, |v.members| - i
  {
    if i == |v.members| then ""
    else
      var m := v.members[i];
      assert m in v.members;
      assert m.value < m;
      match Stringify(m.value)
      case None => ObjectBody(v, i + 1, first)
      case Some(text) => (if first then "" else ",") + Quote(m.key) + ":" + text + ObjectBody(v, i + 1, false)
  }
}
