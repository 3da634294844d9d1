// The function-based browser store (simple-storage.js): every operation reads
// the whole stored object from localStorage, changes its property list and
// writes the object back. localStorage is the `storage` field holding the
// parsed object; whether a write succeeds is `writeOk`, the clock is `now`,
// and `Date.now()` ids are `generatedId`.

module SimpleStorage {
  import opened Wrappers
  import opened PropertyRecord

  /** The stored object: the property list and the last save time. */
  datatype SimpleData = SimpleData(properties: seq<Entry>, lastSaved: Option<string>)

  /** What getAllData falls back to. */
  const Fallback: SimpleData := SimpleData([], None)

  class SimpleStore {
    var storage: Slot<SimpleData>

    constructor (stored: Slot<SimpleData>)
      ensures storage == stored
    {
      storage := stored;
    }

    /** ensureStorageExists: only an absent key is initialised; unreadable text is left alone. */
    method EnsureStorageExists(now: string)
      modifies this
      ensures old(storage).Absent? ==> storage == Holds(SimpleData([], Some(now)))
      ensures !old(storage).Absent? ==> storage == old(storage)
    {
      if storage.Absent? {
        storage := Holds(SimpleData([], Some(now)));
      }
    }

    /** getAllData: the stored object, or the empty fallback when the key is absent or its text
        does not parse. */
    function GetAllData(): (d: SimpleData)
      reads this
      ensures storage.Holds? ==> d == storage.value
      ensures !storage.Holds? ==> d == Fallback
    {
      match storage
      case Holds(data) => data
      case _ => Fallback
    }

    /** saveAllData: stamps the object and writes it when the write succeeds. */
    method SaveAllData(data: SimpleData, now: string, writeOk: bool) returns (ok: bool)
      modifies this
      ensures ok == writeOk
      ensures storage == if writeOk then Holds(data.(lastSaved := Some(now))) else old(storage)
      ensures ok ==> GetAllData() == data.(lastSaved := Some(now))
    {
      var stamped := data.(lastSaved := Some(now));
      if writeOk {
        storage := Holds(stamped);
      }
      ok := writeOk;
    }

    /** addProperty: one new entry at the end of the stored list; null when the write fails. */
    method AddProperty(property: Fields, generatedId: string, now: string, writeOk: bool)
      returns (added: Option<Entry>)
      modifies this
      ensures !writeOk ==> added.None? && storage == old(storage)
      ensures writeOk ==> added == Some(NewEntry(property, generatedId, now))
      ensures writeOk ==> GetAllData() == SimpleData(old(GetAllData()).properties + [NewEntry(property, generatedId, now)], Some(now))
    {
      var data := GetAllData();
      var entry := NewEntry(property, generatedId, now);
      data := data.(properties := data.properties + [entry]);
      var saved := SaveAllData(data, now, writeOk);
      added := if saved then Some(entry) else None;
    }

    /** updateProperty: null and no write for a missing index; otherwise the merged entry, the
        other entries untouched. */
    method UpdateProperty(index: int, update: Fields, now: string, writeOk: bool)
      returns (updated: Option<Entry>)
      modifies this
      ensures updated.Some? <==> Present(old(GetAllData()).properties, index) && writeOk
      ensures updated.None? ==> storage == old(storage)
      ensures updated.Some? ==> updated.value == Merge(old(GetAllData()).properties[index], update, now)
      ensures updated.Some? ==> GetAllData() == SimpleData(old(GetAllData()).properties[index := updated.value], Some(now))
    {
      var data := GetAllData();
      updated := None;
      if Present(data.properties, index) {
        var merged := Merge(data.properties[index], update, now);
        data := data.(properties := data.properties[index := merged]);
        var saved := SaveAllData(data, now, writeOk);
        if saved {
          updated := Some(merged);
        }
      }
    }

    /** deleteProperty: true once exactly the indexed entry is gone; false for a missing index
        or a failed write, with nothing written. */
    method DeleteProperty(index: int, now: string, writeOk: bool) returns (ok: bool)
      modifies this
      ensures ok <==> Present(old(GetAllData()).properties, index) && writeOk
      ensures !ok ==> storage == old(storage)
      ensures ok ==> GetAllData() == SimpleData(Remove(old(GetAllData()).properties, index), Some(now))
    {
      var data := GetAllData();
      ok := false;
      if Present(data.properties, index) {
        data := data.(properties := Remove(data.properties, index));
        ok := SaveAllData(data, now, writeOk);
      }
    }

    /** savePropertyData: false for a missing index; otherwise the four sections, each `{}` when
        missing, become the entry's form data. */
    method SavePropertyData(index: int, formData: DetailsInput, now: string, writeOk: bool) returns (ok: bool)
      modifies this
      ensures ok <==> Present(old(GetAllData()).properties, index) && writeOk
      ensures !ok ==> storage == old(storage)
      ensures ok ==> GetAllData().properties
                     == old(GetAllData()).properties[index := old(GetAllData()).properties[index].(details := Some(DetailsOf(formData, now)))]
      ensures ok ==> LoadPropertyData(index) == Some(DetailsOf(formData, now))
    {
      var data := GetAllData();
      ok := false;
      if Present(data.properties, index) {
        var entry := data.properties[index].(details := Some(DetailsOf(formData, now)));
        data := data.(properties := data.properties[index := entry]);
        ok := SaveAllData(data, now, writeOk);
      }
    }

    /** loadPropertyData: the entry's form data, or null when the entry or its form data is
        missing. */
    function LoadPropertyData(index: int): (r: Option<Details>)
      reads this
      ensures r.Some? <==> Present(GetAllData().properties, index) && GetAllData().properties[index].details.Some?
      ensures r.Some? ==> r == GetAllData().properties[index].details
    {
      var data := GetAllData();
      if Present(data.properties, index) then data.properties[index].details else None
    }
  }
}
