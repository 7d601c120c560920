/** The property table's queries: the search filter, the agent's listings and
    the unfiltered listing. The table is a map from property id to property. */
module PropertyRepository {
  import opened Base
  import opened Strings
  import opened Model

  /** The optional search parameters; an absent one imposes nothing. */
  datatype SearchFilter = SearchFilter(
    city: Option<string>,
    propertyType: Option<string>,
    minPrice: Option<real>,
    maxPrice: Option<real>,
    minBedrooms: Option<int>)

  const NoFilter := SearchFilter(None, None, None, None, None)

  /** `LOWER(city) LIKE LOWER('%' + c + '%')`: a case-insensitive substring test. */
  predicate CityMatches(city: string, c: Option<string>) {
    c.None? || Contains(ToLower(city), ToLower(c.value))
  }

  /** The WHERE clause of `findByFilters` for one property. A null `bedrooms`
      column fails a bedroom bound, as a comparison with NULL does in SQL. */
  predicate MatchesFilter(p: Property, f: SearchFilter)
    ensures MatchesFilter(p, f) ==> p.available
    ensures f == NoFilter ==> (MatchesFilter(p, f) <==> p.available)
    ensures MatchesFilter(p, f) && f.city.Some? ==> Contains(ToLower(p.city), ToLower(f.city.value))
    ensures MatchesFilter(p, f) && f.propertyType.Some? ==> p.propertyType == f.propertyType.value
    ensures MatchesFilter(p, f) && f.minPrice.Some? ==> p.pricePerNight >= f.minPrice.value
    ensures MatchesFilter(p, f) && f.maxPrice.Some? ==> p.pricePerNight <= f.maxPrice.value
    ensures MatchesFilter(p, f) && f.minBedrooms.Some? ==> p.bedrooms.Some? && p.bedrooms.value >= f.minBedrooms.value
  {
    && CityMatches(p.city, f.city)
    && (f.propertyType.None? || p.propertyType == f.propertyType.value)
    && (f.minPrice.None? || p.pricePerNight >= f.minPrice.value)
    && (f.maxPrice.None? || p.pricePerNight <= f.maxPrice.value)
    && (f.minBedrooms.None? || (p.bedrooms.Some? && p.bedrooms.value >= f.minBedrooms.value))
    && p.available
  }

  /** `findByFilters`: the available properties matching every given parameter. */
  function FindByFilters(properties: map<int, Property>, f: SearchFilter): (r: map<int, Property>)
    ensures forall id :: id in r ==> id in properties && r[id] == properties[id] && r[id].available
    ensures forall id :: id in properties ==> (id in r <==> MatchesFilter(properties[id], f))
  {
    map id | id in properties && MatchesFilter(properties[id], f) :: properties[id]
  }

  /** `findByAgent`: exactly the agent's properties, available or not. */
  function FindByAgent(properties: map<int, Property>, agentId: int): (r: map<int, Property>)
    ensures forall id :: id in r <==> id in properties && properties[id].agentId == agentId
    ensures forall id :: id in r ==> r[id] == properties[id]
  {
    map id | id in properties && properties[id].agentId == agentId :: properties[id]
  }

  /** `findAllProperties`: every property, whatever its availability. */
  function FindAllProperties(properties: map<int, Property>): (r: map<int, Property>)
    ensures r == properties
  {
    properties
  }

  /** Without parameters the search returns exactly the available properties. */
  lemma NoFilterIsAvailability(properties: map<int, Property>)
    ensures FindByFilters(properties, NoFilter) ==
      map id | id in properties && properties[id].available :: properties[id]
  {
  }

  /** The city parameter is matched whatever its letter case. */
  lemma CityFilterIgnoresCase(properties: map<int, Property>, f: SearchFilter, c: string)
    ensures FindByFilters(properties, f.(city := Some(c)))
         == FindByFilters(properties, f.(city := Some(ToUpper(c))))
  {
    LowerOfUpper(c);
    forall p: Property
      ensures MatchesFilter(p, f.(city := Some(c))) == MatchesFilter(p, f.(city := Some(ToUpper(c))))
    {
      assert CityMatches(p.city, Some(c)) == CityMatches(p.city, Some(ToUpper(c)));
    }
  }

  /** Any part of the city name, in any case, finds the property. */
  lemma CitySubstringMatches(p: Property, i: int, j: int)
    requires 0 <= i <= j <= |p.city|
    ensures CityMatches(p.city, Some(ToUpper(p.city[i..j])))
  {
    var lc, needle := ToLower(p.city), ToLower(ToUpper(p.city[i..j]));
    LowerOfUpper(p.city[i..j]);
    assert lc[i..j] == needle;
    assert OccursAt(lc, needle, i);
  }

  /** The price bounds are inclusive. */
  lemma PriceBoundsInclusive(p: Property)
    requires p.available
    ensures MatchesFilter(p, NoFilter.(minPrice := Some(p.pricePerNight), maxPrice := Some(p.pricePerNight)))
  {
  }

  /** A further parameter only narrows the result. */
  lemma FilterNarrows(properties: map<int, Property>, f: SearchFilter, g: SearchFilter)
    requires f.city.None? || g.city == f.city
    requires f.propertyType.None? || g.propertyType == f.propertyType
    requires f.minPrice.None? || (g.minPrice.Some? && g.minPrice.value >= f.minPrice.value)
    requires f.maxPrice.None? || (g.maxPrice.Some? && g.maxPrice.value <= f.maxPrice.value)
    requires f.minBedrooms.None? || (g.minBedrooms.Some? && g.minBedrooms.value >= f.minBedrooms.value)
    ensures FindByFilters(properties, g).Keys <= FindByFilters(properties, f).Keys
  {
  }
}
