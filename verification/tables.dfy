/**
 * The reference-data resolvers. The newer client files every fetched item
 * in a dictionary under each of its keys, later items overwriting earlier
 * ones; the older client keeps the list and returns the first item that
 * matches. Both are defined here once, generically, and specialised to
 * locations and labels.
 */
module Tables {
  import opened Wrappers
  import opened Text
  import opened Models

  /** `for key in keys: m[key] = value` */
  function Register<T>(m: map<string, T>, keys: seq<string>, value: T): (r: map<string, T>)
    ensures forall k :: k in r <==> k in m || k in keys
    ensures forall k :: k in keys ==> r[k] == value
    ensures forall k :: k in m && k !in keys ==> r[k] == m[k]
    decreases |keys|
  {
    if |keys| == 0 then m
    else Register(m[keys[0] := value], keys[1..], value)
  }

  /**
   * `t` files the items by their keys, later items winning: a key is
   * present iff some item has it, and it maps to the last such item.
   */
  ghost predicate Files<T>(t: map<string, T>, items: seq<T>, keysOf: T -> seq<string>) {
    && (forall k :: k in t <==> exists i :: 0 <= i < |items| && k in keysOf(items[i]))
    && (forall k :: k in t ==> exists i :: 0 <= i < |items| && k in keysOf(items[i]) && t[k] == items[i] &&
                                         forall j :: i < j < |items| ==> k !in keysOf(items[j]))
  }

  /** The dictionary built by registering every item under its keys, in list order. */
  function BuildTable<T>(items: seq<T>, keysOf: T -> seq<string>): (t: map<string, T>)
    ensures Files(t, items, keysOf)
    decreases |items|
  {
    if |items| == 0 then map[]
    else
      var n := |items| - 1;
      var t := BuildTable(items[..n], keysOf);
      RegisterLast(items, keysOf, t);
      Register(t, keysOf(items[n]), items[n])
  }

  /** Registering the last item extends a filing of the others to a filing of all. */
  lemma RegisterLast<T>(items: seq<T>, keysOf: T -> seq<string>, t: map<string, T>)
    requires |items| > 0 && Files(t, items[..|items| - 1], keysOf)
    ensures Files(Register(t, keysOf(items[|items| - 1]), items[|items| - 1]), items, keysOf)
  {
    var n := |items| - 1;
    var r := Register(t, keysOf(items[n]), items[n]);
    forall k | k in r
      ensures exists i :: 0 <= i < |items| && k in keysOf(items[i]) && r[k] == items[i] &&
                          forall j :: i < j < |items| ==> k !in keysOf(items[j])
    {
      if k !in keysOf(items[n]) {
        var i :| 0 <= i < n && k in keysOf(items[..n][i]) && t[k] == items[..n][i] &&
                 forall j :: i < j < n ==> k !in keysOf(items[..n][j]);
        assert items[..n][i] == items[i];
        assert forall j :: i < j < n ==> items[..n][j] == items[j];
      }
    }
    forall k | k !in r
      ensures forall i :: 0 <= i < |items| ==> k !in keysOf(items[i])
    {
      assert forall i :: 0 <= i < n ==> items[..n][i] == items[i];
    }
  }

  /** An item whose key no other item has is what the table holds under that key. */
  lemma {:induction false} UniqueKeyLookup<T>(items: seq<T>, keysOf: T -> seq<string>, i: nat, k: string)
    requires i < |items| && k in keysOf(items[i])
    requires forall j :: 0 <= j < |items| && j != i ==> k !in keysOf(items[j])
    ensures k in BuildTable(items, keysOf) && BuildTable(items, keysOf)[k] == items[i]
  {
    var t := BuildTable(items, keysOf);
    var j :| 0 <= j < |items| && k in keysOf(items[j]) && t[k] == items[j] &&
             forall l :: j < l < |items| ==> k !in keysOf(items[l]);
    assert j == i;
  }

  /** The position of the item a key of the table is filed from: the last item with that key. */
  lemma LastFiler<T>(items: seq<T>, keysOf: T -> seq<string>, k: string) returns (i: nat)
    requires k in BuildTable(items, keysOf)
    ensures i < |items| && k in keysOf(items[i]) && BuildTable(items, keysOf)[k] == items[i]
    ensures forall j :: i < j < |items| ==> k !in keysOf(items[j])
  {
    var t := BuildTable(items, keysOf);
    i :| 0 <= i < |items| && k in keysOf(items[i]) && t[k] == items[i] &&
         forall j :: i < j < |items| ==> k !in keysOf(items[j]);
  }

  /** The position of the first item satisfying `p`. */
  function FirstWhere<T>(items: seq<T>, p: T -> bool): (r: Option<nat>)
    ensures r.None? <==> forall i :: 0 <= i < |items| ==> !p(items[i])
    ensures r.Some? ==> r.value < |items| && p(items[r.value]) &&
                        forall j :: 0 <= j < r.value ==> !p(items[j])
    decreases |items|
  {
    if |items| == 0 then None
    else if p(items[0]) then Some(0)
    else
      match FirstWhere(items[1..], p)
      case None => None
      case Some(i) => Some(i + 1)
  }

  /** A location is filed under its name and under its country code, each only when non-empty. */
  function LocationKeys(l: Location): (keys: seq<string>)
    ensures forall k :: k in keys <==> |k| > 0 && (k == l.name || l.countryCode == Some(k))
  {
    (if |l.name| > 0 then [l.name] else [])
    + (if l.countryCode.Some? && |l.countryCode.value| > 0 then [l.countryCode.value] else [])
  }

  /** A label or league is filed under its name. */
  function LabelKeys(l: Label): (keys: seq<string>)
    ensures forall k :: k in keys <==> k == l.name
  {
    [l.name]
  }

  function LeagueKeys(l: League): (keys: seq<string>)
    ensures forall k :: k in keys <==> k == l.name
  {
    [l.name]
  }

  /** `mapping.get(name.lower())` */
  function Lookup<T>(table: map<string, T>, input: string): (r: Option<T>)
    ensures r.Some? <==> Lower(input) in table
    ensures r.Some? ==> r.value == table[Lower(input)]
  {
    if Lower(input) in table then Some(table[Lower(input)]) else None
  }

  /** Lookup does not depend on the letter case of its input. */
  lemma LookupIgnoresCase<T>(table: map<string, T>, a: string, b: string)
    requires Lower(a) == Lower(b)
    ensures Lookup(table, a) == Lookup(table, b)
  {
  }

  /** The older location test: the (already lower-cased) input equals the code or the name as stored. */
  predicate LocationMatches(key: string, l: Location) {
    l.countryCode == Some(key) || l.name == key
  }

  /** The older label test. */
  predicate LabelMatches(key: string, l: Label) {
    l.name == key
  }

  /** The first location whose code or name is the key. */
  function FirstLocation(locations: seq<Location>, key: string): (r: Option<Location>)
    ensures r.Some? <==> exists i :: 0 <= i < |locations| && LocationMatches(key, locations[i])
    ensures r.Some? ==> exists i :: 0 <= i < |locations| && locations[i] == r.value && LocationMatches(key, r.value) &&
                                   forall j :: 0 <= j < i ==> !LocationMatches(key, locations[j])
  {
    match FirstWhere(locations, (l: Location) => LocationMatches(key, l))
    case None => None
    case Some(i) => Some(locations[i])
  }

  /** The first label with that name. */
  function FirstLabel(labels: seq<Label>, key: string): (r: Option<Label>)
    ensures r.Some? <==> exists i :: 0 <= i < |labels| && labels[i].name == key
    ensures r.Some? ==> exists i :: 0 <= i < |labels| && labels[i] == r.value && r.value.name == key &&
                                   forall j :: 0 <= j < i ==> labels[j].name != key
  {
    match FirstWhere(labels, (l: Label) => LabelMatches(key, l))
    case None => None
    case Some(i) => Some(labels[i])
  }

  /** No key is shared by two different positions of the list. */
  predicate KeysUnique<T>(items: seq<T>, keysOf: T -> seq<string>) {
    forall i, j, k :: 0 <= i < |items| && 0 <= j < |items| && i != j && k in keysOf(items[i]) ==> k !in keysOf(items[j])
  }

  /**
   * The two resolvers agree: with no key shared between locations, the
   * first match of a non-empty key is exactly what the dictionary holds
   * under it.
   */
  lemma FirstMatchAgreesWithTable(locations: seq<Location>, key: string)
    requires KeysUnique(locations, LocationKeys)
    requires |key| > 0
    ensures var t := BuildTable(locations, LocationKeys);
      FirstLocation(locations, key) == (if key in t then Some(t[key]) else None)
  {
    var t := BuildTable(locations, LocationKeys);
    var r := FirstLocation(locations, key);
    if r.Some? {
      var i :| 0 <= i < |locations| && locations[i] == r.value && LocationMatches(key, r.value) &&
               forall j :: 0 <= j < i ==> !LocationMatches(key, locations[j]);
      assert key in LocationKeys(locations[i]);
      UniqueKeyLookup(locations, LocationKeys, i, key);
    }
  }

  /**
   * A location whose name and code belong to no other location is found
   * the same way under either key.
   */
  lemma NameAndCodeAgree(locations: seq<Location>, i: nat)
    requires i < |locations|
    requires var l := locations[i]; |l.name| > 0 && l.countryCode.Some? && |l.countryCode.value| > 0
    requires forall j :: 0 <= j < |locations| && j != i ==>
      locations[i].name !in LocationKeys(locations[j]) && locations[i].countryCode.value !in LocationKeys(locations[j])
    ensures var t := BuildTable(locations, LocationKeys);
      var l := locations[i];
      l.name in t && l.countryCode.value in t && t[l.name] == t[l.countryCode.value] == l
  {
    var l := locations[i];
    UniqueKeyLookup(locations, LocationKeys, i, l.name);
    UniqueKeyLookup(locations, LocationKeys, i, l.countryCode.value);
  }
}
