/**
 * The device ordering shared by the status and device-management lists:
 * a priority-list comparator for type and location, and a three-key sort
 * (type, then location, then name) applied to a copy of the list.
 */
module DeviceOrder {
  import opened Common
  import opened Text
  import opened Js
  import opened Sorting

  /** `order.indexOf(x)`: the first position of `x`, or -1. */
  function IndexOf(order: seq<string>, x: string): (i: int)
    ensures -1 <= i < |order|
    ensures i == -1 <==> x !in order
    ensures i >= 0 ==> order[i] == x && forall k :: 0 <= k < i ==> order[k] != x
  {
    if order == [] then -1
    else if order[0] == x then 0
    else
      var j := IndexOf(order[1..], x);
      if j == -1 then -1 else j + 1
  }

  /** `byOrder(a, b, order)`: listed values first, by position; unlisted ones by string order. */
  function ByOrder(a: string, b: string, order: seq<string>): (r: int)
    ensures a in order && b !in order ==> r < 0
    ensures a !in order && b in order ==> r > 0
    ensures a in order && b in order ==> r == IndexOf(order, a) - IndexOf(order, b)
    ensures a !in order && b !in order ==> r == LocaleCompare(a, b)
  {
    var ia := IndexOf(order, a);
    var ib := IndexOf(order, b);
    if ia != -1 || ib != -1 then
      if ia == -1 then 1
      else if ib == -1 then -1
      else ia - ib
    else LocaleCompare(a, b)
  }

  /** A listed value ranks before an unlisted one, whichever side it is on. */
  lemma ListedBeforeUnlisted(a: string, b: string, order: seq<string>)
    requires a in order && b !in order
    ensures ByOrder(a, b, order) < 0 && ByOrder(b, a, order) > 0
  {
  }

  /** Equal values tie and distinct values never do; swapping the operands flips the sign. */
  lemma ByOrderAntisymmetric(a: string, b: string, order: seq<string>)
    ensures ByOrder(a, b, order) == 0 <==> a == b
    ensures ByOrder(a, b, order) < 0 <==> ByOrder(b, a, order) > 0
  {
    LocaleCompareAntisymmetric(a, b);
  }

  lemma ByOrderTransitive(a: string, b: string, c: string, order: seq<string>)
    requires ByOrder(a, b, order) <= 0 && ByOrder(b, c, order) <= 0
    ensures ByOrder(a, c, order) <= 0
  {
    if a !in order && b !in order && c !in order {
      LocaleCompareTransitive(a, b, c);
    }
  }

  // ---------------------------------------------------------------------------
  // The three sort keys

  /** `String(d.type || 'Unknown').trim()`: a falsy type keys as "Unknown", a string type as its trim. */
  function TypeKey(d: Json): (r: string)
    ensures !Truthy(Get(d, "type")) ==> r == "Unknown"
    ensures Get(d, "type").Str? && Get(d, "type").s != [] ==> r == Trim(Get(d, "type").s)
  {
    var v := Or(Get(d, "type"), Str("Unknown"));
    assert !Truthy(Get(d, "type")) ==> v == Str("Unknown");
    UnknownIsItsOwnKey();
    Trim(ToText(v))
  }

  /** `String(d.location || 'Unknown').trim()`, defaulted and trimmed as the type is. */
  function LocationKey(d: Json): (r: string)
    ensures !Truthy(Get(d, "location")) ==> r == "Unknown"
    ensures Get(d, "location").Str? && Get(d, "location").s != [] ==> r == Trim(Get(d, "location").s)
  {
    var v := Or(Get(d, "location"), Str("Unknown"));
    assert !Truthy(Get(d, "location")) ==> v == Str("Unknown");
    UnknownIsItsOwnKey();
    Trim(ToText(v))
  }

  /** `String(d.name || '')`: a string name as it is (untrimmed), a falsy one as "". */
  function NameKey(d: Json): (r: string)
    ensures Get(d, "name").Str? ==> r == Get(d, "name").s
    ensures !Truthy(Get(d, "name")) ==> r == ""
  {
    ToText(Or(Get(d, "name"), Str("")))
  }

  /** A string with non-blank ends is its own trim. */
  lemma TrimOfTrimmed(s: string)
    requires s != [] && !IsJsWhitespace(s[0]) && !IsJsWhitespace(s[|s| - 1])
    ensures Trim(s) == s
  {
  }

  lemma UnknownIsItsOwnKey()
    ensures Trim(ToText(Str("Unknown"))) == "Unknown"
  {
    var u := "Unknown";
    assert u[0] == 'U' && u[|u| - 1] == 'n';
    TrimOfTrimmed(u);
  }

  /**
   * A missing or falsy type reads as "Unknown" and a non-empty string type is
   * trimmed. A blank (whitespace-only) type is truthy, so it becomes "" and
   * not "Unknown".
   */
  lemma TypeKeyDefaults(d: Json)
    ensures Get(d, "type").Str? && Get(d, "type").s != [] && AllWhitespace(Get(d, "type").s) ==> TypeKey(d) == []
  {
    if Get(d, "type").Str? {
      TrimEmptyIffBlank(Get(d, "type").s);
    }
  }

  /** A device without a location, or with only a blank one, does not key as a listed location. */
  lemma LocationKeyDefaults(d: Json)
    ensures Get(d, "location").Str? && Get(d, "location").s != [] && AllWhitespace(Get(d, "location").s) ==> LocationKey(d) == []
  {
    if Get(d, "location").Str? {
      TrimEmptyIffBlank(Get(d, "location").s);
    }
  }

  /** The three keys the comparator reads from a device. */
  datatype SortKey = SortKey(kind: string, place: string, name: string)

  function KeyCompare(x: SortKey, y: SortKey, typeOrder: seq<string>, locationOrder: seq<string>): int {
    if x.kind != y.kind then ByOrder(x.kind, y.kind, typeOrder)
    else if x.place != y.place then ByOrder(x.place, y.place, locationOrder)
    else LocaleCompare(x.name, y.name)
  }

  /**
   * The comparator passed to `sort`: type rank decides, then location rank,
   * then the name; two devices tie only when all three keys agree.
   */
  function DeviceCompare(a: Json, b: Json, typeOrder: seq<string>, locationOrder: seq<string>): (r: int)
    ensures TypeKey(a) != TypeKey(b) ==> r == ByOrder(TypeKey(a), TypeKey(b), typeOrder)
    ensures TypeKey(a) == TypeKey(b) && LocationKey(a) != LocationKey(b) ==> r == ByOrder(LocationKey(a), LocationKey(b), locationOrder)
    ensures r == 0 <==> TypeKey(a) == TypeKey(b) && LocationKey(a) == LocationKey(b) && NameKey(a) == NameKey(b)
  {
    ByOrderAntisymmetric(TypeKey(a), TypeKey(b), typeOrder);
    ByOrderAntisymmetric(LocationKey(a), LocationKey(b), locationOrder);
    LocaleCompareAntisymmetric(NameKey(a), NameKey(b));
    var x := SortKey(TypeKey(a), LocationKey(a), NameKey(a));
    var y := SortKey(TypeKey(b), LocationKey(b), NameKey(b));
    KeyCompare(x, y, typeOrder, locationOrder)
  }


  lemma KeyCompareAntisymmetric(x: SortKey, y: SortKey, to: seq<string>, lo: seq<string>)
    ensures KeyCompare(x, y, to, lo) < 0 <==> KeyCompare(y, x, to, lo) > 0
  {
    ByOrderAntisymmetric(x.kind, y.kind, to);
    ByOrderAntisymmetric(x.place, y.place, lo);
    LocaleCompareAntisymmetric(x.name, y.name);
  }

  lemma KeyCompareTransitive(x: SortKey, y: SortKey, z: SortKey, to: seq<string>, lo: seq<string>)
    requires KeyCompare(x, y, to, lo) <= 0 && KeyCompare(y, z, to, lo) <= 0
    ensures KeyCompare(x, z, to, lo) <= 0
  {
    ByOrderAntisymmetric(x.kind, z.kind, to);
    ByOrderAntisymmetric(x.place, z.place, lo);
    ByOrderAntisymmetric(x.kind, y.kind, to);
    ByOrderAntisymmetric(x.place, y.place, lo);
    if x.kind != y.kind && y.kind != z.kind {
      ByOrderTransitive(x.kind, y.kind, z.kind, to);
    } else if x.kind == y.kind && y.kind == z.kind {
      if x.place != y.place && y.place != z.place {
        ByOrderTransitive(x.place, y.place, z.place, lo);
      } else if x.place == y.place && y.place == z.place {
        LocaleCompareTransitive(x.name, y.name, z.name);
      }
    }
  }

  /** Swapping two devices flips the comparator's sign. */
  lemma ComparatorAntisymmetric(to: seq<string>, lo: seq<string>)
    ensures forall a, b :: DeviceCompare(a, b, to, lo) < 0 <==> DeviceCompare(b, a, to, lo) > 0
  {
    forall a, b
      ensures DeviceCompare(a, b, to, lo) < 0 <==> DeviceCompare(b, a, to, lo) > 0
    {
      var x := SortKey(TypeKey(a), LocationKey(a), NameKey(a));
      var y := SortKey(TypeKey(b), LocationKey(b), NameKey(b));
      KeyCompareAntisymmetric(x, y, to, lo);
    }
  }

  /** The comparator is transitive over any three devices. */
  lemma ComparatorTransitive(to: seq<string>, lo: seq<string>)
    ensures forall a, b, c :: DeviceCompare(a, b, to, lo) <= 0 && DeviceCompare(b, c, to, lo) <= 0 ==> DeviceCompare(a, c, to, lo) <= 0
  {
    forall a, b, c | DeviceCompare(a, b, to, lo) <= 0 && DeviceCompare(b, c, to, lo) <= 0
      ensures DeviceCompare(a, c, to, lo) <= 0
    {
      var x := SortKey(TypeKey(a), LocationKey(a), NameKey(a));
      var y := SortKey(TypeKey(b), LocationKey(b), NameKey(b));
      var z := SortKey(TypeKey(c), LocationKey(c), NameKey(c));
      KeyCompareTransitive(x, y, z, to, lo);
    }
  }

  /** `(a, b) => …` as handed to `sort`. It is a total preorder, so the sort is well defined. */
  function Comparator(typeOrder: seq<string>, locationOrder: seq<string>): (r: (Json, Json) -> int)
    ensures TotalPreorder(r)
  {
    ComparatorAntisymmetric(typeOrder, locationOrder);
    ComparatorTransitive(typeOrder, locationOrder);
    (a: Json, b: Json) => DeviceCompare(a, b, typeOrder, locationOrder)
  }

  /**
   * `sortDevices(devices, TYPE_ORDER, LOCATION_ORDER)`: a sorted copy. The
   * input is a value and stays as it was; the result is a permutation of it.
   * The comparator reads `a.type` and `b.type`, so with two or more devices,
   * each of which the sort compares, a `null` or `undefined` one throws
   * (`None`); a lone device is returned without a comparison.
   */
  function SortDevices(devices: seq<Json>, typeOrder: seq<string>, locationOrder: seq<string>): (r: Option<seq<Json>>)
    ensures r.None? <==> |devices| >= 2 && SomeNullish(devices)
    ensures r.Some? ==> multiset(r.value) == multiset(devices)
    ensures r.Some? ==> Sorted(r.value, Comparator(typeOrder, locationOrder))
  {
    if |devices| >= 2 && SomeNullish(devices) then None
    else
      SortSorted(devices, Comparator(typeOrder, locationOrder));
      Some(Sort(devices, Comparator(typeOrder, locationOrder)))
  }

  /**
   * The key cascade in the result: types in rank order; among equal types,
   * locations in rank order; among equal types and locations, names in order.
   */
  lemma SortedByKeyCascade(devices: seq<Json>, to: seq<string>, lo: seq<string>, r: seq<Json>, i: int, j: int)
    requires SortDevices(devices, to, lo) == Some(r)
    requires 0 <= i < j < |r|
    ensures TypeKey(r[i]) == TypeKey(r[j]) || ByOrder(TypeKey(r[i]), TypeKey(r[j]), to) < 0
    ensures TypeKey(r[i]) == TypeKey(r[j]) ==>
      LocationKey(r[i]) == LocationKey(r[j]) || ByOrder(LocationKey(r[i]), LocationKey(r[j]), lo) < 0
    ensures TypeKey(r[i]) == TypeKey(r[j]) && LocationKey(r[i]) == LocationKey(r[j]) ==>
      LocaleCompare(NameKey(r[i]), NameKey(r[j])) <= 0
  {
    assert Comparator(to, lo)(r[i], r[j]) <= 0;
    var x := SortKey(TypeKey(r[i]), LocationKey(r[i]), NameKey(r[i]));
    var y := SortKey(TypeKey(r[j]), LocationKey(r[j]), NameKey(r[j]));
    assert KeyCompare(x, y, to, lo) <= 0;
  }

  /** With a single priority type, every device of that type is listed before every other device. */
  lemma PriorityTypeFirst(devices: seq<Json>, top: string, lo: seq<string>, r: seq<Json>, i: int, j: int)
    requires SortDevices(devices, [top], lo) == Some(r)
    requires 0 <= i < j < |r| && TypeKey(r[j]) == top
    ensures TypeKey(r[i]) == top
  {
    SortedByKeyCascade(devices, [top], lo, r, i, j);
  }

  /** With a single priority location, within one type its devices come before the rest of that type. */
  lemma PriorityLocationFirst(devices: seq<Json>, to: seq<string>, top: string, r: seq<Json>, i: int, j: int)
    requires SortDevices(devices, to, [top]) == Some(r)
    requires 0 <= i < j < |r| && TypeKey(r[i]) == TypeKey(r[j]) && LocationKey(r[j]) == top
    ensures LocationKey(r[i]) == top
  {
    SortedByKeyCascade(devices, to, [top], r, i, j);
  }

  /** A lone device is kept as it is, even one the comparator could not read. */
  lemma SingleDeviceKept(d: Json, to: seq<string>, lo: seq<string>)
    ensures SortDevices([d], to, lo) == Some([d])
  {
    assert Sort([d], Comparator(to, lo)) == [d];
  }
}
