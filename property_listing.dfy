/** The property search page's list logic (client/src/pages/PropertyListing.tsx):
    a filter by city text, price range and minimum room count, followed by a
    sort on price or creation time. */
module PropertyListing {
  import opened Common

  /** The fields of a listed property that the page filters and sorts on;
      `price` is the decimal column read as a number, `createdAt` the
      creation time in milliseconds. */
  datatype Property = Property(city: string, price: real, roomCount: Option<int>, createdAt: int)

  datatype Filters = Filters(searchCity: string, priceLow: real, priceHigh: real, minRooms: string)

  datatype SortBy = PriceAsc | PriceDesc | Newest

  const DefaultFilters := Filters("", 0.0, 5000.0, "")
  const DefaultSort := Newest

  predicate IsDigit(c: char) { '0' <= c <= '9' }

  /** The longest prefix of `s` made of decimal digits. */
  function LeadingDigits(s: string): (r: string)
    ensures |r| <= |s| && r == s[..|r|]
    ensures forall i :: 0 <= i < |r| ==> IsDigit(r[i])
    ensures |r| < |s| ==> !IsDigit(s[|r|])
  {
    if s == [] || !IsDigit(s[0]) then "" else [s[0]] + LeadingDigits(s[1..])
  }

  function DecimalValue(digits: string): nat
    requires forall i :: 0 <= i < |digits| ==> IsDigit(digits[i])
  {
    if digits == [] then 0
    else
      assert IsDigit(digits[|digits| - 1]);
      DecimalValue(digits[..|digits| - 1]) * 10 + (digits[|digits| - 1] as int - '0' as int)
  }

  /** `parseInt(s)` on unsigned decimal text: the value of the leading
      digits, or `None` (NaN) when there are none. */
  function ParseInt(s: string): (r: Option<nat>)
    ensures r.None? <==> s == [] || !IsDigit(s[0])
  {
    var digits := LeadingDigits(s);
    if digits == [] then None else Some(DecimalValue(digits))
  }

  /** A string of digits is its own leading-digit prefix. */
  lemma {:induction false} AllDigitsLead(s: string)
    requires forall i :: 0 <= i < |s| ==> IsDigit(s[i])
    ensures LeadingDigits(s) == s
  {
    if s != [] {
      AllDigitsLead(s[1..]);
    }
  }

  /** Reading back a rendered number gives the number. */
  lemma {:induction false} DecimalValueOfNatToString(n: nat)
    ensures DecimalValue(NatToString(n)) == n
  {
    var s := NatToString(n);
    if n >= 10 {
      DecimalValueOfNatToString(n / 10);
      assert s[..|s| - 1] == NatToString(n / 10);
    }
  }

  /** `parseInt` inverts decimal rendering: every natural number printed
      in decimal parses back to itself. */
  lemma ParseIntRoundTrip(n: nat)
    ensures ParseInt(NatToString(n)) == Some(n)
  {
    AllDigitsLead(NatToString(n));
    DecimalValueOfNatToString(n);
  }

  /** The select's options "1" to "4" parse to their own value. */
  lemma SelectValuesParse()
    ensures ParseInt("1") == Some(1) && ParseInt("2") == Some(2)
    ensures ParseInt("3") == Some(3) && ParseInt("4") == Some(4)
  {
    assert LeadingDigits("1") == "1";
    assert LeadingDigits("2") == "2";
    assert LeadingDigits("3") == "3";
    assert LeadingDigits("4") == "4";
  }

  /** `roomCount` is truthy: present and non-zero. */
  predicate RoomCountSet(p: Property) {
    p.roomCount.Some? && p.roomCount.value != 0
  }

  predicate CityMatches(p: Property, search: string) {
    search == "" || Contains(ToLower(p.city), ToLower(search))
  }

  predicate PriceInRange(p: Property, f: Filters) {
    f.priceLow <= p.price <= f.priceHigh
  }

  /** The room clause rejects only when it is enabled, the property has a
      room count, and that count is below the parsed minimum (a comparison
      with NaN is false). */
  predicate RoomsRejected(p: Property, minRooms: string) {
    minRooms != "" && minRooms != "0" && RoomCountSet(p)
    && ParseInt(minRooms).Some? && p.roomCount.value < ParseInt(minRooms).value
  }

  predicate Keep(p: Property, f: Filters) {
    CityMatches(p, f.searchCity) && PriceInRange(p, f) && !RoomsRejected(p, f.minRooms)
  }

  /** `properties.filter(...)`. */
  function Filter(ps: seq<Property>, f: Filters): (r: seq<Property>)
    ensures forall p :: multiset(r)[p] == if Keep(p, f) then multiset(ps)[p] else 0
    ensures forall p :: p in r <==> p in ps && Keep(p, f)
    ensures IsSubsequence(r, ps)
    ensures |r| <= |ps|
  {
    FilterBy(ps, p => Keep(p, f))
  }

  /** The comparator `cmp(a, b)` of each order is `SortKey(a) - SortKey(b)`:
      ascending price, descending price, or newest first. */
  function SortKey(p: Property, order: SortBy): real {
    match order
    case PriceAsc => p.price
    case PriceDesc => -p.price
    case Newest => -(p.createdAt as real)
  }

  predicate SortedBy(ps: seq<Property>, order: SortBy) {
    forall i, j :: 0 <= i < j < |ps| ==> SortKey(ps[i], order) <= SortKey(ps[j], order)
  }

  /** Inserts `x` after every element whose key is not greater, which keeps
      the sort stable. */
  function Insert(x: Property, ps: seq<Property>, order: SortBy): (r: seq<Property>)
    requires SortedBy(ps, order)
    ensures SortedBy(r, order)
    ensures multiset(r) == multiset(ps) + multiset{x}
    ensures |r| == |ps| + 1
  {
    if ps == [] then [x]
    else if SortKey(x, order) < SortKey(ps[0], order) then [x] + ps
    else
      var rest := Insert(x, ps[1..], order);
      assert ps == [ps[0]] + ps[1..];
      LowerBoundCarries(ps[0], x, ps[1..], rest, order);
      [ps[0]] + rest
  }

  /** When `h` is a lower bound of `x` and of the sorted `tail`, it is one of
      every permutation of `tail + [x]`. */
  lemma LowerBoundCarries(h: Property, x: Property, tail: seq<Property>, rest: seq<Property>, order: SortBy)
    requires SortedBy([h] + tail, order)
    requires SortKey(h, order) <= SortKey(x, order)
    requires multiset(rest) == multiset(tail) + multiset{x}
    ensures forall k :: 0 <= k < |rest| ==> SortKey(h, order) <= SortKey(rest[k], order)
  {
    forall k | 0 <= k < |rest|
      ensures SortKey(h, order) <= SortKey(rest[k], order)
    {
      assert rest[k] in multiset(rest);
      if rest[k] != x {
        assert rest[k] in multiset(tail);
        var m :| 0 <= m < |tail| && tail[m] == rest[k];
        var all := [h] + tail;
        assert all[0] == h && all[m + 1] == tail[m];
        assert SortKey(all[0], order) <= SortKey(all[m + 1], order);
      }
    }
  }

  /** `Array.prototype.sort` with the comparator for `order`, as a stable
      insertion sort. */
  function Sort(ps: seq<Property>, order: SortBy): (r: seq<Property>)
    ensures SortedBy(r, order)
    ensures multiset(r) == multiset(ps)
    ensures |r| == |ps|
    decreases |ps|
  {
    if ps == [] then []
    else
      var init := ps[..|ps| - 1];
      assert ps == init + [ps[|ps| - 1]];
      Insert(ps[|ps| - 1], Sort(init, order), order)
  }

  /** `filteredProperties`: no data gives an empty list. */
  function FilteredProperties(data: Option<seq<Property>>, f: Filters, order: SortBy): seq<Property> {
    match data
    case None => []
    case Some(ps) => Sort(Filter(ps, f), order)
  }

  /** The result is a permutation of exactly the properties that pass the
      filter, in the requested order. */
  lemma FilteredIsSortedPermutation(ps: seq<Property>, f: Filters, order: SortBy)
    ensures var r := FilteredProperties(Some(ps), f, order);
      multiset(r) == multiset(Filter(ps, f))
      && (forall p :: p in r <==> p in ps && Keep(p, f))
      && SortedBy(r, order)
  {
    var r := FilteredProperties(Some(ps), f, order);
    forall p
      ensures p in r <==> p in Filter(ps, f)
    {
      assert p in r <==> p in multiset(r);
      assert p in Filter(ps, f) <==> p in multiset(Filter(ps, f));
    }
  }

  /** The orders state what the page promises: prices non-decreasing,
      non-increasing, or creation times non-increasing. */
  lemma SortOrders(ps: seq<Property>, i: int, j: int)
    requires 0 <= i < j < |ps|
    ensures Sort(ps, PriceAsc)[i].price <= Sort(ps, PriceAsc)[j].price
    ensures Sort(ps, PriceDesc)[i].price >= Sort(ps, PriceDesc)[j].price
    ensures Sort(ps, Newest)[i].createdAt >= Sort(ps, Newest)[j].createdAt
  {
  }

  lemma NoDataNoResults(f: Filters, order: SortBy)
    ensures FilteredProperties(None, f, order) == []
  {
  }

  /** The room filter is off for "" and "0"; a property without a room
      count always passes it; otherwise it needs at least the minimum. */
  lemma RoomFilterRules(p: Property, minRooms: string)
    ensures minRooms == "" || minRooms == "0" ==> !RoomsRejected(p, minRooms)
    ensures !RoomCountSet(p) ==> !RoomsRejected(p, minRooms)
    ensures minRooms != "0" && ParseInt(minRooms).Some? && RoomCountSet(p) ==>
      (RoomsRejected(p, minRooms) <==> p.roomCount.value < ParseInt(minRooms).value)
  {
  }

  /** The price bounds are inclusive, and the default filters keep exactly
      the properties priced from 0 to 5000. */
  lemma DefaultFiltersKeepPriceRange(p: Property)
    ensures Keep(p, DefaultFilters) <==> 0.0 <= p.price <= 5000.0
  {
  }

  /** Lower-casing twice is lower-casing once. */
  lemma ToLowerIdempotent(s: string)
    ensures ToLower(ToLower(s)) == ToLower(s)
  {
  }

  /** The city search ignores ASCII case on both sides: lower-casing the
      search text or the property's city never changes whether it matches. */
  lemma CitySearchIgnoresCase(p: Property, search: string)
    ensures CityMatches(p, search) <==> CityMatches(p, ToLower(search))
    ensures CityMatches(p, search) <==> CityMatches(p.(city := ToLower(p.city)), search)
  {
    ToLowerIdempotent(search);
    ToLowerIdempotent(p.city);
  }

  /** "Roma" matches a search for "ROM". */
  lemma CitySearchExample()
    ensures CityMatches(Property("Roma", 800.0, None, 0), "ROM")
  {
    var city := ToLower("Roma");
    assert city == "roma";
    assert ToLower("ROM") == "rom";
    assert StartsWith(city[0..], "rom");
  }
}
