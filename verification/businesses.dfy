/** The business table of src/businesses/businesses.service.ts: creation with
    every locker free, the bounds-checked locker counter, soft deletion, the
    reads that hide removed businesses, and the query rules of `search`. */
module Businesses {
  import opened Outcomes
  import opened BookingSchema

  datatype BusinessType = Restaurant | Grocery | Cafe | Other

  datatype Business = Business(
    name: string,
    description: string,
    businessType: BusinessType,
    zipCode: string,
    phoneNumber: string,
    totalLockers: int,
    availableLockers: int,
    ownerId: ObjectId,
    isActive: bool,
    isVerified: bool)

  datatype CreateBusinessDto = CreateBusinessDto(
    name: string,
    description: string,
    businessType: BusinessType,
    zipCode: string,
    phoneNumber: string,
    totalLockers: int)

  /** The store's validator on save: at least one locker. */
  const MinTotalLockers: int := 1

  /** The locker counter lies between zero and the locker count. */
  predicate LockerCountInRange(b: Business)
  {
    0 <= b.availableLockers <= b.totalLockers
  }

  /** The document `create` builds: the request's fields, the caller as
      owner, every locker available, active and not verified by default. */
  function NewBusiness(dto: CreateBusinessDto, ownerId: ObjectId): (b: Business)
    ensures b.availableLockers == b.totalLockers == dto.totalLockers
    ensures b.ownerId == ownerId && b.isActive && !b.isVerified
    ensures b.name == dto.name && b.businessType == dto.businessType && b.zipCode == dto.zipCode
    ensures dto.totalLockers >= 0 ==> LockerCountInRange(b)
  {
    Business(dto.name, dto.description, dto.businessType, dto.zipCode, dto.phoneNumber,
             dto.totalLockers, dto.totalLockers, ownerId, true, false)
  }

  /** `findById` (and `findOne`, which delegates to it). */
  function FindById(businesses: map<ObjectId, Business>, id: ObjectId): (r: Result<Business>)
    ensures r.Ok? <==> id in businesses
    ensures r.Ok? ==> r.value == businesses[id]
    ensures r.Err? ==> r.error == NotFound
  {
    if id in businesses then Ok(businesses[id]) else Err(NotFound)
  }

  /** `findAll` with its default query: the active businesses. */
  function FindAll(businesses: map<ObjectId, Business>): (r: map<ObjectId, Business>)
    ensures forall k :: k in r <==> k in businesses && businesses[k].isActive
    ensures forall k :: k in r ==> r[k] == businesses[k]
  {
    map k | k in businesses && businesses[k].isActive :: businesses[k]
  }

  /** `findByOwner`: the owner's active businesses. */
  function FindByOwner(businesses: map<ObjectId, Business>, ownerId: ObjectId): (r: map<ObjectId, Business>)
    ensures forall k :: k in r <==> k in businesses && businesses[k].ownerId == ownerId && businesses[k].isActive
    ensures forall k :: k in r ==> r[k] == businesses[k]
  {
    map k | k in businesses && businesses[k].ownerId == ownerId && businesses[k].isActive :: businesses[k]
  }

  // ---------------------------------------------------------------------
  // The query rules of search

  /** The search request, without the name text search and the coordinates. */
  datatype SearchBusinessDto = SearchBusinessDto(
    zipCode: Option<string>,
    businessType: Option<BusinessType>,
    page: Option<int>,
    limit: Option<int>)

  const DefaultLimit: int := 20
  const DefaultPage: int := 1

  /** `limit || 20`: an absent or zero limit falls back to 20. */
  function EffectiveLimit(limit: Option<int>): (l: int)
    ensures limit.None? || limit.value == 0 ==> l == DefaultLimit
    ensures limit.Some? && limit.value != 0 ==> l == limit.value
  {
    if limit.Some? && limit.value != 0 then limit.value else DefaultLimit
  }

  /** `page || 1`: an absent or zero page falls back to 1. */
  function EffectivePage(page: Option<int>): (p: int)
    ensures page.None? || page.value == 0 ==> p == DefaultPage
    ensures page.Some? && page.value != 0 ==> p == page.value
  {
    if page.Some? && page.value != 0 then page.value else DefaultPage
  }

  /** The number of results skipped: `(page - 1) * limit`. It is never
      negative once page and limit are at least 1. */
  function Skip(page: Option<int>, limit: Option<int>): (s: int)
    ensures EffectivePage(page) >= 1 && EffectiveLimit(limit) >= 1 ==> s >= 0
  {
    var k, l := EffectivePage(page) - 1, EffectiveLimit(limit);
    if k >= 0 && l >= 1 then (MultipleBounds(k, l); k * l) else k * l
  }

  lemma MultipleBounds(k: int, l: int)
    requires l >= 1
    ensures k >= 1 ==> k * l >= l
    ensures k <= -1 ==> k * l <= -l
  {
    if k >= 1 {
      assert k * l == (k - 1) * l + l;
      assert (k - 1) * l >= 0;
    } else if k <= -1 {
      assert k * l == (k + 1) * l - l;
      assert (k + 1) * l <= 0;
    }
  }

  lemma MultipleModIsZero(k: int, l: int)
    requires l >= 1
    ensures (k * l) % l == 0
  {
    var a := k * l;
    var d, r := a / l, a % l;
    assert a == d * l + r;
    assert r == (k - d) * l;
    MultipleBounds(k - d, l);
  }

  /** With a page of at least 1 and a positive limit, the skip is a
      non-negative multiple of the limit, and the next page starts exactly
      one limit further on. */
  lemma SkipIsWholePages(page: int, limit: Option<int>)
    requires page >= 1
    requires limit.None? || limit.value >= 1
    ensures Skip(Some(page), limit) >= 0
    ensures Skip(Some(page), limit) % EffectiveLimit(limit) == 0
    ensures Skip(Some(page + 1), limit) == Skip(Some(page), limit) + EffectiveLimit(limit)
  {
    var l := EffectiveLimit(limit);
    assert Skip(Some(page), limit) == (page - 1) * l;
    assert Skip(Some(page + 1), limit) == page * l;
    MultipleModIsZero(page - 1, l);
    assert page * l == (page - 1) * l + l;
  }

  lemma DefaultPagingStartsAtZero()
    ensures Skip(None, None) == 0 && EffectiveLimit(None) == 20
  {
  }

  /** The business types a requested type matches: cafe and restaurant
      each match both, any other type only itself, and no type means no
      type filter. */
  function TypeFilter(t: Option<BusinessType>): (r: Option<set<BusinessType>>)
    ensures t.None? <==> r.None?
    ensures t.Some? ==> t.value in r.value
    ensures t.Some? && t.value in {Cafe, Restaurant} ==> r.value == {Cafe, Restaurant}
    ensures t.Some? && t.value !in {Cafe, Restaurant} ==> r.value == {t.value}
  {
    match t
    case None => None
    case Some(Cafe) => Some({Cafe, Restaurant})
    case Some(Restaurant) => Some({Restaurant, Cafe})
    case Some(other) => Some({other})
  }

  /** Whether two types match each other through the filter is symmetric. */
  lemma TypeFilterIsSymmetric(a: BusinessType, b: BusinessType)
    ensures b in TypeFilter(Some(a)).value <==> a in TypeFilter(Some(b)).value
  {
  }

  /** The query `search` builds. */
  datatype SearchQuery = SearchQuery(
    zipCode: Option<string>,
    types: Option<set<BusinessType>>,
    skip: int,
    limit: int)

  function BuildQuery(dto: SearchBusinessDto): (q: SearchQuery)
    ensures q.zipCode == dto.zipCode && q.types == TypeFilter(dto.businessType)
    ensures q.limit == EffectiveLimit(dto.limit) && q.skip == Skip(dto.page, dto.limit)
  {
    SearchQuery(dto.zipCode, TypeFilter(dto.businessType), Skip(dto.page, dto.limit), EffectiveLimit(dto.limit))
  }

  /** The filter part of a search query: active, and matching zip code and type when given. */
  predicate MatchesQuery(q: SearchQuery, b: Business)
  {
    && b.isActive
    && (q.zipCode.Some? ==> b.zipCode == q.zipCode.value)
    && (q.types.Some? ==> b.businessType in q.types.value)
  }

  /** The matching businesses of `listing`, in listing order. */
  function Filter(q: SearchQuery, listing: seq<Business>): (r: seq<Business>)
    ensures forall b :: b in r <==> b in listing && MatchesQuery(q, b)
    ensures |r| <= |listing|
  {
    if listing == [] then []
    else
      var rest := Filter(q, listing[1..]);
      if MatchesQuery(q, listing[0]) then [listing[0]] + rest else rest
  }

  /** Filtering keeps listing order: the matches of a concatenation are the
      matches of the first part followed by those of the second. */
  lemma {:induction false} FilterKeepsOrder(q: SearchQuery, a: seq<Business>, b: seq<Business>)
    ensures Filter(q, a + b) == Filter(q, a) + Filter(q, b)
    decreases |a|
  {
    if a == [] {
      assert a + b == b;
    } else {
      assert (a + b)[1..] == a[1..] + b;
      FilterKeepsOrder(q, a[1..], b);
    }
  }

  /** Only the zip code and the type set select businesses; paging does not. */
  lemma {:induction false} FilterIgnoresPaging(q: SearchQuery, p: SearchQuery, listing: seq<Business>)
    requires q.zipCode == p.zipCode && q.types == p.types
    ensures Filter(q, listing) == Filter(p, listing)
    decreases |listing|
  {
    if listing != [] {
      FilterIgnoresPaging(q, p, listing[1..]);
    }
  }

  /** The number of results of a page starting at `skip` of `limit` among `total` matches. */
  function PageLength(total: int, skip: int, limit: int): int
  {
    if skip >= total then 0 else if skip + limit >= total then total - skip else limit
  }

  /** `search` over the businesses in store order: the matches, from
      `skip` on, at most `limit` of them. The request validator bounds
      page to at least 1 and limit to 1..100. */
  function Search(listing: seq<Business>, dto: SearchBusinessDto): (r: seq<Business>)
    requires dto.page.None? || dto.page.value >= 1
    requires dto.limit.None? || 1 <= dto.limit.value <= 100
    ensures var m := Filter(BuildQuery(dto), listing);
            var s := Skip(dto.page, dto.limit);
            && |r| == PageLength(|m|, s, EffectiveLimit(dto.limit))
            && forall i :: 0 <= i < |r| ==> r[i] == m[s + i]
    ensures |r| <= EffectiveLimit(dto.limit)
    ensures forall b :: b in r ==> b in listing && MatchesQuery(BuildQuery(dto), b)
    ensures forall b :: b in r ==> b.isActive
  {
    var q := BuildQuery(dto);
    var matches := Filter(q, listing);
    SkipIsWholePages(EffectivePage(dto.page), dto.limit);
    if q.skip >= |matches| then []
    else if q.skip + q.limit >= |matches| then matches[q.skip..]
    else matches[q.skip..q.skip + q.limit]
  }

  /** A page after `skip` can only be non-empty when the page before it is full. */
  lemma PageLengthContinues(total: int, skip: int, limit: int)
    requires skip >= 0 && limit >= 1
    ensures PageLength(total, skip + limit, limit) > 0 ==> PageLength(total, skip, limit) == limit
  {
  }

  /** Page p + 1 is non-empty only after a full page p. */
  lemma NextPageNeedsFullPage(listing: seq<Business>, dto: SearchBusinessDto, p: int)
    requires p >= 1
    requires dto.limit.None? || 1 <= dto.limit.value <= 100
    ensures |Search(listing, dto.(page := Some(p + 1)))| > 0
            ==> |Search(listing, dto.(page := Some(p)))| == EffectiveLimit(dto.limit)
  {
    var d1, d2 := dto.(page := Some(p)), dto.(page := Some(p + 1));
    var m := Filter(BuildQuery(d1), listing);
    FilterIgnoresPaging(BuildQuery(d1), BuildQuery(d2), listing);
    SkipIsWholePages(p, dto.limit);
    var l, s := EffectiveLimit(dto.limit), Skip(Some(p), dto.limit);
    assert |Search(listing, d1)| == PageLength(|m|, s, l);
    assert |Search(listing, d2)| == PageLength(|m|, s + l, l);
    PageLengthContinues(|m|, s, l);
  }

  /** Page p + 1 continues exactly where a full page p stops: both pages see
      the same matches, and page p + 1 holds the ones one limit further on. */
  lemma NextPageContinues(listing: seq<Business>, dto: SearchBusinessDto, p: int)
    requires p >= 1
    requires dto.limit.None? || 1 <= dto.limit.value <= 100
    ensures var next := Search(listing, dto.(page := Some(p + 1)));
            var m := Filter(BuildQuery(dto.(page := Some(p))), listing);
            && Filter(BuildQuery(dto.(page := Some(p + 1))), listing) == m
            && Skip(Some(p + 1), dto.limit) == Skip(Some(p), dto.limit) + EffectiveLimit(dto.limit)
            && forall i :: 0 <= i < |next| ==> next[i] == m[Skip(Some(p), dto.limit) + EffectiveLimit(dto.limit) + i]
  {
    FilterIgnoresPaging(BuildQuery(dto.(page := Some(p))), BuildQuery(dto.(page := Some(p + 1))), listing);
    SkipIsWholePages(p, dto.limit);
  }

  // ---------------------------------------------------------------------
  // The service

  class BusinessesService {
    var businesses: map<ObjectId, Business>
    var nextId: ObjectId

    ghost predicate Valid()
      reads this
    {
      forall k :: k in businesses ==> k < nextId
    }

    constructor ()
      ensures Valid() && businesses == map[] && nextId == 0
    {
      businesses := map[];
      nextId := 0;
    }

    /** `create`: saved with every locker available, unless the store's
        validator refuses a locker count below 1. */
    method Create(dto: CreateBusinessDto, ownerId: ObjectId) returns (r: Result<Business>)
      requires Valid()
      modifies this
      ensures Valid()
      ensures r == (if dto.totalLockers >= MinTotalLockers then Ok(NewBusiness(dto, ownerId)) else Err(ValidationFailed))
      ensures r.Ok? ==> LockerCountInRange(r.value)
      ensures r.Err? ==> businesses == old(businesses) && nextId == old(nextId)
      ensures r.Ok? ==> old(nextId) !in old(businesses)
                        && businesses == old(businesses)[old(nextId) := r.value] && nextId == old(nextId) + 1
    {
      if dto.totalLockers < MinTotalLockers {
        return Err(ValidationFailed);
      }
      var business := NewBusiness(dto, ownerId);
      businesses := businesses[nextId := business];
      nextId := nextId + 1;
      r := Ok(business);
    }

    /** `updateLockerAvailability`: add `increment` to the available count
        when the sum stays within 0..totalLockers. */
    method UpdateLockerAvailability(id: ObjectId, increment: int) returns (r: Result<Business>)
      requires Valid()
      modifies this`businesses
      ensures Valid()
      ensures id !in old(businesses) ==> r == Err(NotFound)
      ensures id in old(businesses) ==>
        var b := old(businesses)[id];
        var n := b.availableLockers + increment;
        r == (if 0 <= n <= b.totalLockers then Ok(b.(availableLockers := n)) else Err(InvalidLockerUpdate))
      ensures r.Err? ==> businesses == old(businesses)
      ensures r.Ok? ==> businesses == old(businesses)[id := r.value]
      ensures id in old(businesses) && LockerCountInRange(old(businesses)[id]) ==> LockerCountInRange(businesses[id])
    {
      if id !in businesses {
        return Err(NotFound);
      }
      var business := businesses[id];
      var newAvailable := business.availableLockers + increment;
      if newAvailable < 0 || newAvailable > business.totalLockers {
        return Err(InvalidLockerUpdate);
      }
      business := business.(availableLockers := newAvailable);
      businesses := businesses[id := business];
      r := Ok(business);
    }

    /** `remove`: a soft delete. The record stays, inactive, and the
        active-only reads no longer return it. */
    method Remove(id: ObjectId) returns (r: Result<()>)
      requires Valid()
      modifies this`businesses
      ensures Valid()
      ensures r.Err? <==> id !in old(businesses)
      ensures r.Err? ==> r.error == NotFound && businesses == old(businesses)
      ensures r.Ok? ==> businesses == old(businesses)[id := old(businesses)[id].(isActive := false)]
      ensures r.Ok? ==> id in businesses && id !in FindAll(businesses)
                        && forall owner :: id !in FindByOwner(businesses, owner)
    {
      if id !in businesses {
        return Err(NotFound);
      }
      businesses := businesses[id := businesses[id].(isActive := false)];
      r := Ok(());
    }
  }
}
