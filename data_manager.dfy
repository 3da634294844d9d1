// The iOS app's property store (DataManager.swift): the `properties` list
// published to the views, saved whole to UserDefaults after every change.
// UserDefaults is the `saved` field holding the decoded list (None when the
// key is missing or its data does not decode); the clock is `now`, and whether
// JSONEncoder succeeds on a save is `encodeOk`.

module DataManager {
  import opened Wrappers
  import opened Text
  import opened Sorting
  import opened PropertyModel

  /** The order-preserving subsequence of the elements satisfying p (Swift's filter). */
  function Filter<T>(s: seq<T>, p: T -> bool): (r: seq<T>)
    ensures |r| <= |s|
    ensures forall x :: x in r ==> x in s && p(x)
  {
    if |s| == 0 then [] else (if p(s[0]) then [s[0]] else []) + Filter(s[1..], p)
  }

  /** Nothing satisfying p is dropped. */
  lemma {:induction false} FilterComplete<T>(s: seq<T>, p: T -> bool, x: T)
    requires x in s && p(x)
    ensures x in Filter(s, p)
  {
    if s[0] != x {
      FilterComplete(s[1..], p, x);
    }
  }

  /** Filtering by p and then by q keeps exactly the elements satisfying both, in order. */
  lemma {:induction false} FilterTwice<T>(s: seq<T>, p: T -> bool, q: T -> bool, both: T -> bool)
    requires forall x :: both(x) == (p(x) && q(x))
    ensures Filter(Filter(s, p), q) == Filter(s, both)
  {
    if |s| > 0 {
      FilterTwice(s[1..], p, q, both);
      var head := if p(s[0]) then [s[0]] else [];
      var rest := Filter(s[1..], p);
      assert Filter(s, p) == head + rest;
      FilterAppend(head, rest, q);
    }
  }

  lemma {:induction false} FilterAppend<T>(a: seq<T>, b: seq<T>, p: T -> bool)
    ensures Filter(a + b, p) == Filter(a, p) + Filter(b, p)
  {
    if |a| == 0 {
      assert a + b == b;
    } else {
      assert (a + b)[1..] == a[1..] + b;
      FilterAppend(a[1..], b, p);
    }
  }

  /** A predicate every element satisfies keeps the whole list. */
  lemma {:induction false} FilterAll<T>(s: seq<T>, p: T -> bool)
    requires forall i :: 0 <= i < |s| ==> p(s[i])
    ensures Filter(s, p) == s
  {
    if |s| > 0 {
      FilterAll(s[1..], p);
    }
  }

  /** Filters that agree on the elements give the same result. */
  lemma {:induction false} FilterSame<T>(s: seq<T>, p: T -> bool, q: T -> bool)
    requires forall i :: 0 <= i < |s| ==> p(s[i]) == q(s[i])
    ensures Filter(s, p) == Filter(s, q)
  {
    if |s| > 0 {
      FilterSame(s[1..], p, q);
    }
  }

  /** The filtered list holds exactly the elements satisfying p. */
  lemma FilterMembers<T>(s: seq<T>, p: T -> bool)
    ensures forall x :: x in Filter(s, p) <==> x in s && p(x)
  {
    forall x | x in s && p(x)
      ensures x in Filter(s, p)
    {
      FilterComplete(s, p, x);
    }
  }

  /** The position of the first entry with the given id. */
  function FirstIndexOf(ps: seq<AuctionProperty>, id: nat): (r: Option<nat>)
    ensures r.None? <==> forall i :: 0 <= i < |ps| ==> ps[i].id != id
    ensures r.Some? ==> r.value < |ps| && ps[r.value].id == id
    ensures r.Some? ==> forall j :: 0 <= j < r.value ==> ps[j].id != id
  {
    if |ps| == 0 then None
    else if ps[0].id == id then Some(0)
    else match FirstIndexOf(ps[1..], id)
         case None => None
         case Some(i) => Some(i + 1)
  }

  /** The sort key: newest modification first. */
  function ModifiedKey(p: AuctionProperty): real
  {
    p.lastModifiedDate as real
  }

  /** `localizedCaseInsensitiveContains`, with ASCII case folding. Foundation finds no range
      for an empty needle, so the empty query is contained in nothing. */
  predicate ContainsIgnoringCase(s: string, query: string)
  {
    |query| > 0 && Contains(Lower(s), Lower(query))
  }

  /** The search rule: the case number, the location or the court contains the query. */
  predicate MatchesQuery(p: AuctionProperty, query: string)
  {
    ContainsIgnoringCase(p.caseNumber, query) || ContainsIgnoringCase(p.propertyLocation, query)
    || ContainsIgnoringCase(p.court, query)
  }

  /** Filtering by the empty query keeps nothing: the empty-query guard of searchProperties is
      what makes the empty search return every entry. */
  lemma EmptyQueryMatchesNone(ps: seq<AuctionProperty>)
    ensures Filter(ps, (p: AuctionProperty) => MatchesQuery(p, "")) == []
  {
    var r := Filter(ps, (p: AuctionProperty) => MatchesQuery(p, ""));
    FilterMembers(ps, (p: AuctionProperty) => MatchesQuery(p, ""));
    if |r| > 0 {
      assert r[0] in r;
    }
  }

  /** An entry meets the optional constraints of filterProperties; a missing one always holds. */
  predicate Meets(p: AuctionProperty, status: Option<AuctionStatus>, propertyType: Option<PropertyType>)
  {
    (status.Some? ==> p.auctionStatus == status.value)
    && (propertyType.Some? ==> p.propertyType == propertyType.value)
  }

  /** filterProperties filters by status and then by type: the same as one pass keeping the
      entries that meet both constraints. */
  lemma FilterStages(ps: seq<AuctionProperty>, status: Option<AuctionStatus>, propertyType: Option<PropertyType>)
    ensures (var byStatus := if status.Some? then Filter(ps, (p: AuctionProperty) => p.auctionStatus == status.value) else ps;
             if propertyType.Some? then Filter(byStatus, (p: AuctionProperty) => p.propertyType == propertyType.value) else byStatus)
            == Filter(ps, (p: AuctionProperty) => Meets(p, status, propertyType))
  {
    var meets := (p: AuctionProperty) => Meets(p, status, propertyType);
    if status.Some? && propertyType.Some? {
      FilterTwice(ps, (p: AuctionProperty) => p.auctionStatus == status.value,
                  (p: AuctionProperty) => p.propertyType == propertyType.value, meets);
    } else if status.Some? {
      FilterSame(ps, (p: AuctionProperty) => p.auctionStatus == status.value, meets);
    } else if propertyType.Some? {
      FilterSame(ps, (p: AuctionProperty) => p.propertyType == propertyType.value, meets);
    } else {
      FilterAll(ps, meets);
    }
  }

  class DataManager {
    var properties: seq<AuctionProperty>
    var saved: Option<seq<AuctionProperty>>

    /** The shared instance loads on creation. */
    constructor (stored: Option<seq<AuctionProperty>>)
      ensures saved == stored
      ensures stored.None? ==> properties == []
      ensures stored.Some? ==> properties == SortDesc(stored.value, ModifiedKey)
    {
      saved := stored;
      properties := [];
      new;
      LoadProperties();
    }

    /** loadProperties: the saved list newest first, or nothing when it cannot be decoded. */
    method LoadProperties()
      modifies this
      ensures saved == old(saved)
      ensures saved.None? ==> properties == []
      ensures saved.Some? ==> properties == SortDesc(saved.value, ModifiedKey)
      ensures saved.Some? ==> NonIncreasing(properties, ModifiedKey)
      ensures saved.Some? ==> multiset(properties) == multiset(saved.value)
    {
      match saved
      case None =>
        properties := [];
      case Some(decoded) =>
        properties := SortDesc(decoded, ModifiedKey);
        SortDescSorted(decoded, ModifiedKey);
        SortDescPerm(decoded, ModifiedKey);
    }

    /** saveProperties: the list is written whole when JSONEncoder succeeds; when it throws
        (`encodeOk` false, e.g. a NaN price) the method returns and the store is untouched. */
    method SaveProperties(encodeOk: bool)
      modifies this
      ensures properties == old(properties)
      ensures encodeOk ==> saved == Some(properties)
      ensures !encodeOk ==> saved == old(saved)
    {
      if !encodeOk {
        return;
      }
      saved := Some(properties);
    }

    /** addProperty: stamps both dates and inserts at the front; the old entries follow in
        order. */
    method AddProperty(property: AuctionProperty, now: int, encodeOk: bool)
      modifies this
      ensures properties == [property.(createdDate := now, lastModifiedDate := now)] + old(properties)
      ensures |properties| == |old(properties)| + 1 && properties[1..] == old(properties)
      ensures saved == if encodeOk then Some(properties) else old(saved)
    {
      var newProperty := property.(createdDate := now, lastModifiedDate := now);
      properties := [newProperty] + properties;
      SaveProperties(encodeOk);
    }

    /** updateProperty: replaces the first entry with the same id, stamping its modification
        date; without one nothing changes and nothing is written. */
    method UpdateProperty(property: AuctionProperty, now: int, encodeOk: bool)
      modifies this
      ensures FirstIndexOf(old(properties), property.id).None? ==>
        properties == old(properties) && saved == old(saved)
      ensures FirstIndexOf(old(properties), property.id).Some? ==>
        properties == old(properties)[FirstIndexOf(old(properties), property.id).value := property.(lastModifiedDate := now)]
      ensures FirstIndexOf(old(properties), property.id).Some? ==>
        saved == if encodeOk then Some(properties) else old(saved)
    {
      var index := FirstIndexOf(properties, property.id);
      if index.None? {
        return;
      }
      properties := properties[index.value := property.(lastModifiedDate := now)];
      SaveProperties(encodeOk);
    }

    /** deleteProperty: every entry with that id goes, the rest keep their order. */
    method DeleteProperty(property: AuctionProperty, encodeOk: bool)
      modifies this
      ensures properties == Filter(old(properties), (p: AuctionProperty) => p.id != property.id)
      ensures forall i :: 0 <= i < |properties| ==> properties[i].id != property.id
      ensures forall p :: p in old(properties) && p.id != property.id ==> p in properties
      ensures saved == if encodeOk then Some(properties) else old(saved)
    {
      var before := properties;
      properties := Filter(properties, (p: AuctionProperty) => p.id != property.id);
      forall p | p in before && p.id != property.id
        ensures p in properties
      {
        FilterComplete(before, (p: AuctionProperty) => p.id != property.id, p);
      }
      SaveProperties(encodeOk);
      assert forall i :: 0 <= i < |properties| ==> properties[i] in properties;
    }

    /** getProperty(by:): the first entry with the id, or nil. */
    function GetProperty(id: nat): (r: Option<AuctionProperty>)
      reads this
      ensures r.None? <==> forall i :: 0 <= i < |properties| ==> properties[i].id != id
      ensures r.Some? ==> r.value.id == id && r.value in properties
      ensures r.Some? ==> exists i :: 0 <= i < |properties| && properties[i] == r.value
                                      && forall j :: 0 <= j < i ==> properties[j].id != id
    {
      match FirstIndexOf(properties, id)
      case None => None
      case Some(i) => Some(properties[i])
    }

    /** filterProperties: the entries meeting every constraint given, in list order; nil means
        no constraint. */
    function FilterProperties(status: Option<AuctionStatus>, propertyType: Option<PropertyType>)
      : (r: seq<AuctionProperty>)
      reads this
      ensures r == Filter(properties, (p: AuctionProperty) => Meets(p, status, propertyType))
      ensures forall p :: p in r <==> p in properties && Meets(p, status, propertyType)
    {
      var byStatus := if status.Some? then Filter(properties, (p: AuctionProperty) => p.auctionStatus == status.value) else properties;
      var byType := if propertyType.Some? then Filter(byStatus, (p: AuctionProperty) => p.propertyType == propertyType.value) else byStatus;
      FilterStages(properties, status, propertyType);
      FilterMembers(properties, (p: AuctionProperty) => Meets(p, status, propertyType));
      byType
    }

    /** searchProperties: everything for the empty query, otherwise the entries whose case
        number, location or court contains it, ignoring case, in list order. */
    function SearchProperties(query: string): (r: seq<AuctionProperty>)
      reads this
      ensures query == "" ==> r == properties
      ensures query != "" ==> r == Filter(properties, (p: AuctionProperty) => MatchesQuery(p, query))
      ensures forall p :: p in r <==> p in properties && (query == "" || MatchesQuery(p, query))
    {
      FilterMembers(properties, (p: AuctionProperty) => MatchesQuery(p, query));
      if query == "" then
        properties
      else
        Filter(properties, (p: AuctionProperty) => MatchesQuery(p, query))
    }
  }
}
