// The property records the two browser stores (storage-manager.js and
// simple-storage.js) keep: a flat object of fields, optionally carrying the
// four saved form sections. Also what a localStorage slot can hold, and the
// list operations both stores apply (append, merge at an index, splice).

module PropertyRecord {
  import opened Wrappers

  /** A flat JavaScript object of text values: a property's own fields or one form section. */
  type Fields = map<string, string>

  /** The four saved form sections and the time they were saved. */
  datatype Details = Details(
    auctionInfo: Fields,
    inspectionData: Fields,
    simulationResult: Fields,
    saleRateInfo: Fields,
    savedAt: string)

  /** The sections as handed in; a section that is missing or null is None. */
  datatype DetailsInput = DetailsInput(
    auctionInfo: Option<Fields>,
    inspectionData: Option<Fields>,
    simulationResult: Option<Fields>,
    saleRateInfo: Option<Fields>)

  /** A stored property: its fields and, once saved, its form sections. */
  datatype Entry = Entry(fields: Fields, details: Option<Details>)

  /** What reading a localStorage key gives: nothing (or the empty text), text that does not
      parse to an object, or a parsed object. */
  datatype Slot<T> = Absent | Unreadable | Holds(value: T)

  /** The sections as stored: each one given, or `{}` when it was missing. */
  function DetailsOf(input: DetailsInput, now: string): (d: Details)
    ensures d.auctionInfo == input.auctionInfo.GetOr(map[])
    ensures d.inspectionData == input.inspectionData.GetOr(map[])
    ensures d.simulationResult == input.simulationResult.GetOr(map[])
    ensures d.saleRateInfo == input.saleRateInfo.GetOr(map[])
    ensures d.savedAt == now
  {
    Details(input.auctionInfo.GetOr(map[]), input.inspectionData.GetOr(map[]),
            input.simulationResult.GetOr(map[]), input.saleRateInfo.GetOr(map[]), now)
  }

  /** `{id: generated, ...property, createdAt: now, updatedAt: now}`: a supplied id wins over
      the generated one, the two time stamps always win over supplied ones. */
  function NewEntry(property: Fields, generatedId: string, now: string): (e: Entry)
    ensures e.details.None?
    ensures e.fields.Keys == property.Keys + {"id", "createdAt", "updatedAt"}
    ensures e.fields["createdAt"] == now && e.fields["updatedAt"] == now
    ensures e.fields["id"] == (if "id" in property then property["id"] else generatedId)
    ensures forall k :: k in property && k != "createdAt" && k != "updatedAt" ==> e.fields[k] == property[k]
  {
    Entry(map["id" := generatedId] + property + map["createdAt" := now, "updatedAt" := now], None)
  }

  /** `{...entry, ...update, updatedAt: now}`: the update's fields win, the others stay. */
  function Merge(e: Entry, update: Fields, now: string): (r: Entry)
    ensures r.details == e.details
    ensures r.fields.Keys == e.fields.Keys + update.Keys + {"updatedAt"}
    ensures r.fields["updatedAt"] == now
    ensures forall k :: k in update && k != "updatedAt" ==> r.fields[k] == update[k]
    ensures forall k :: k in e.fields && k !in update && k != "updatedAt" ==> r.fields[k] == e.fields[k]
  {
    Entry(e.fields + update + map["updatedAt" := now], e.details)
  }

  /** Merging the same update twice is merging it once. */
  lemma MergeIdempotent(e: Entry, update: Fields, now: string)
    ensures Merge(Merge(e, update, now), update, now) == Merge(e, update, now)
  {
    var once := Merge(e, update, now);
    var twice := Merge(once, update, now);
    assert twice.fields.Keys == once.fields.Keys;
    forall k | k in once.fields
      ensures twice.fields[k] == once.fields[k]
    {
    }
    assert twice.fields == once.fields;
  }

  /** An entry answers the truthiness test `list[index]`: the index names an element. */
  predicate Present<T>(s: seq<T>, index: int)
  {
    0 <= index < |s|
  }

  /** `list.splice(index, 1)`: the element at index goes, later ones move down by one. */
  function Remove<T>(s: seq<T>, index: int): (r: seq<T>)
    requires Present(s, index)
    ensures |r| == |s| - 1
    ensures forall k :: 0 <= k < index ==> r[k] == s[k]
    ensures forall k :: index <= k < |r| ==> r[k] == s[k + 1]
  {
    s[..index] + s[index + 1..]
  }

  /** Removing an element and putting it back is the identity. */
  lemma RemoveInsert<T>(s: seq<T>, index: int)
    requires Present(s, index)
    ensures Remove(s, index)[..index] + [s[index]] + Remove(s, index)[index..] == s
  {
    var r := Remove(s, index);
    assert r[..index] == s[..index];
    assert r[index..] == s[index + 1..];
    assert s == s[..index] + [s[index]] + s[index + 1..];
  }

  /** Removing takes exactly the one element out of the multiset. */
  lemma RemoveMultiset<T>(s: seq<T>, index: int)
    requires Present(s, index)
    ensures multiset(Remove(s, index)) + multiset{s[index]} == multiset(s)
  {
    assert s == s[..index] + [s[index]] + s[index + 1..];
  }

  /** Deleting the element just appended gives the list back. */
  lemma RemoveAppended<T>(s: seq<T>, x: T)
    ensures Present(s + [x], |s|)
    ensures Remove(s + [x], |s|) == s
  {
    assert (s + [x])[..|s|] == s;
  }
}
