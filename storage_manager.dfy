// The browser's main property store (storage-manager.js): one object holding
// the property list, the selected index and the last save time, written whole
// to localStorage after every change. localStorage is the `storage` field;
// JSON text is left out, so the field holds the object a later read would
// parse. Whether a write succeeds (the storage quota) is the `writeOk`
// parameter, the clock is `now`, and `Date.now()` ids are `generatedId`.

module StorageManager {
  import opened Wrappers
  import opened Text
  import opened PropertyRecord

  /** The in-memory state `currentData`. */
  datatype AppData = AppData(properties: seq<Entry>, currentPropertyIndex: int, lastSaved: Option<string>)

  /** A parsed object as read back; a key that is missing or null is None. */
  datatype SavedObject = SavedObject(
    properties: Option<seq<Entry>>,
    currentPropertyIndex: Option<int>,
    lastSaved: Option<string>)

  /** What JSON.parse can hand importData: an object (an array counts, with none of the keys),
      null, or a number, string or boolean. */
  datatype Json = JObject(obj: SavedObject) | JNull | JScalar

  const Empty: AppData := AppData([], -1, None)

  /** What saving writes: every key present, a null lastSaved read back as missing. */
  function Snapshot(d: AppData): (o: SavedObject)
    ensures o.properties == Some(d.properties) && o.currentPropertyIndex == Some(d.currentPropertyIndex)
    ensures o.lastSaved == d.lastSaved
  {
    SavedObject(Some(d.properties), Some(d.currentPropertyIndex), d.lastSaved)
  }

  /** `x || null` on a text: the empty text is falsy. */
  function NonEmpty(s: Option<string>): (r: Option<string>)
    ensures r.Some? <==> s.Some? && s.value != ""
    ensures r.Some? ==> r == s
  {
    if s == Some("") then None else s
  }

  /** loadData as written: `parsed.currentPropertyIndex || -1` also turns a stored 0 into -1. */
  function LoadDataAsWritten(slot: Slot<SavedObject>): (d: AppData)
    ensures !slot.Holds? ==> d == Empty
    ensures slot.Holds? ==> d.properties == slot.value.properties.GetOr([])
    ensures slot.Holds? ==> d.lastSaved == NonEmpty(slot.value.lastSaved)
    ensures slot.Holds? && slot.value.currentPropertyIndex == Some(0) ==> d.currentPropertyIndex == -1
    ensures slot.Holds? && slot.value.currentPropertyIndex != Some(0) ==>
      d.currentPropertyIndex == slot.value.currentPropertyIndex.GetOr(-1)
  {
    match slot
    case Holds(o) =>
      AppData(o.properties.GetOr([]),
              if o.currentPropertyIndex.None? || o.currentPropertyIndex == Some(0) then -1
              else o.currentPropertyIndex.value,
              NonEmpty(o.lastSaved))
    case _ => Empty
  }

  /** loadData as intended: a missing index defaults to -1, a stored one is kept (the rule
      importData uses). */
  function LoadData(slot: Slot<SavedObject>): (d: AppData)
    ensures !slot.Holds? ==> d == Empty
    ensures slot.Holds? ==> d.properties == slot.value.properties.GetOr([])
    ensures slot.Holds? ==> d.currentPropertyIndex == slot.value.currentPropertyIndex.GetOr(-1)
    ensures slot.Holds? ==> d.lastSaved == NonEmpty(slot.value.lastSaved)
  {
    match slot
    case Holds(o) => AppData(o.properties.GetOr([]), o.currentPropertyIndex.GetOr(-1), NonEmpty(o.lastSaved))
    case _ => Empty
  }

  /** Reading back what was saved gives the saved state (the time stamp of a save is never
      the empty text). */
  lemma SaveLoadRoundTrip(d: AppData)
    requires d.lastSaved != Some("")
    ensures LoadData(Holds(Snapshot(d))) == d
  {
  }

  /** As written, a saved selection of the first property does not survive a reload. */
  lemma FirstSelectionLostAsWritten(d: AppData)
    requires d.currentPropertyIndex == 0 && |d.properties| > 0
    ensures LoadData(Holds(Snapshot(d))).currentPropertyIndex == 0
    ensures LoadDataAsWritten(Holds(Snapshot(d))).currentPropertyIndex == -1
  {
  }

  /** Away from index 0 the written and the intended load agree. */
  lemma LoadAgreesAwayFromZero(slot: Slot<SavedObject>)
    requires slot.Holds? ==> slot.value.currentPropertyIndex != Some(0)
    ensures LoadDataAsWritten(slot) == LoadData(slot)
  {
  }

  /** The selected index after deleting the entry at `index`. */
  function IndexAfterDelete(current: int, index: int): (c: int)
    ensures current == index ==> c == -1
    ensures current > index ==> c == current - 1
    ensures current < index ==> c == current
  {
    if current == index then -1 else if current > index then current - 1 else current
  }

  /** A selection other than the deleted entry still selects the same property afterwards; the
      deleted one leaves nothing selected. */
  lemma DeleteKeepsSelection(s: seq<Entry>, current: int, index: int)
    requires Present(s, index)
    ensures Present(s, current) && current != index ==>
              Present(Remove(s, index), IndexAfterDelete(current, index))
              && Remove(s, index)[IndexAfterDelete(current, index)] == s[current]
    ensures current == index ==> !Present(Remove(s, index), IndexAfterDelete(current, index))
  {
  }

  /** The state importData installs from a parsed object. */
  function Restored(o: SavedObject, now: string): (d: AppData)
    ensures d.properties == o.properties.GetOr([])
    ensures d.currentPropertyIndex == o.currentPropertyIndex.GetOr(-1)
    ensures d.lastSaved == Some(now)
  {
    AppData(o.properties.GetOr([]), o.currentPropertyIndex.GetOr(-1), Some(now))
  }

  /** Importing an exported state gives it back, with the import's time stamp. */
  lemma ExportImportRoundTrip(d: AppData, now: string)
    ensures Restored(Snapshot(d), now) == d.(lastSaved := Some(now))
  {
  }

  /** importData gets past its checks: the text is not blank and parses to an object. */
  predicate Accepts(text: string, parse: string -> Option<Json>)
  {
    JsTrim(text) != "" && parse(text).Some? && parse(text).value.JObject?
  }

  class StorageManager {
    var currentData: AppData
    var storage: Slot<SavedObject>

    /** The constructor loads whatever the key holds, with loadData as written. */
    constructor (stored: Slot<SavedObject>)
      ensures storage == stored && currentData == LoadDataAsWritten(stored)
    {
      storage := stored;
      currentData := LoadDataAsWritten(stored);
    }

    /** saveData: stamps lastSaved (even when the write then fails) and writes the state. */
    method SaveData(now: string, writeOk: bool) returns (ok: bool)
      modifies this
      ensures currentData == old(currentData).(lastSaved := Some(now))
      ensures ok == writeOk
      ensures storage == if writeOk then Holds(Snapshot(currentData)) else old(storage)
    {
      currentData := currentData.(lastSaved := Some(now));
      if writeOk {
        storage := Holds(Snapshot(currentData));
      }
      ok := writeOk;
    }

    /** addProperty: appends exactly one new entry and keeps the earlier ones. */
    method AddProperty(property: Fields, generatedId: string, now: string, writeOk: bool)
      returns (added: Option<Entry>)
      modifies this
      ensures currentData.properties == old(currentData.properties) + [NewEntry(property, generatedId, now)]
      ensures currentData.currentPropertyIndex == old(currentData.currentPropertyIndex)
      ensures currentData.lastSaved == Some(now)
      ensures added == if writeOk then Some(NewEntry(property, generatedId, now)) else None
      ensures storage == if writeOk then Holds(Snapshot(currentData)) else old(storage)
    {
      var entry := NewEntry(property, generatedId, now);
      currentData := currentData.(properties := currentData.properties + [entry]);
      var saved := SaveData(now, writeOk);
      added := if saved then Some(entry) else None;
    }

    /** updateProperty: false and no change for a missing index; otherwise merges into that
        entry only. */
    method UpdateProperty(index: int, update: Fields, now: string, writeOk: bool) returns (ok: bool)
      modifies this
      ensures !Present(old(currentData.properties), index) ==> !ok && unchanged(this)
      ensures Present(old(currentData.properties), index) ==>
                currentData == old(currentData).(properties := old(currentData.properties)[index := Merge(old(currentData.properties)[index], update, now)],
                                                 lastSaved := Some(now))
                && ok == writeOk
                && storage == (if writeOk then Holds(Snapshot(currentData)) else old(storage))
    {
      if !Present(currentData.properties, index) {
        return false;
      }
      var merged := Merge(currentData.properties[index], update, now);
      currentData := currentData.(properties := currentData.properties[index := merged]);
      ok := SaveData(now, writeOk);
    }

    /** deleteProperty: false and no change for a missing index; otherwise splices the entry
        out and moves the selection with it. */
    method DeleteProperty(index: int, now: string, writeOk: bool) returns (ok: bool)
      modifies this
      ensures !Present(old(currentData.properties), index) ==> !ok && unchanged(this)
      ensures Present(old(currentData.properties), index) ==>
                currentData == AppData(Remove(old(currentData.properties), index),
                                       IndexAfterDelete(old(currentData.currentPropertyIndex), index),
                                       Some(now))
                && ok == writeOk
                && storage == (if writeOk then Holds(Snapshot(currentData)) else old(storage))
      ensures Present(old(currentData.properties), index) && old(GetCurrentProperty()).Some?
              && old(currentData.currentPropertyIndex) != index
              ==> GetCurrentProperty() == old(GetCurrentProperty())
      ensures old(currentData.currentPropertyIndex) == index ==> GetCurrentProperty().None?
    {
      if !Present(currentData.properties, index) {
        return false;
      }
      DeleteKeepsSelection(currentData.properties, currentData.currentPropertyIndex, index);
      var current := currentData.currentPropertyIndex;
      currentData := currentData.(properties := Remove(currentData.properties, index));
      if current == index {
        currentData := currentData.(currentPropertyIndex := -1);
      } else if current > index {
        currentData := currentData.(currentPropertyIndex := current - 1);
      }
      ok := SaveData(now, writeOk);
    }

    /** setCurrentPropertyIndex: any index is taken; the save result is dropped. */
    method SetCurrentPropertyIndex(index: int, now: string, writeOk: bool)
      modifies this
      ensures currentData == old(currentData).(currentPropertyIndex := index, lastSaved := Some(now))
      ensures storage == if writeOk then Holds(Snapshot(currentData)) else old(storage)
    {
      currentData := currentData.(currentPropertyIndex := index);
      var _ := SaveData(now, writeOk);
    }

    /** getCurrentProperty: the selected entry, or null when the index is negative or names no
        entry. */
    function GetCurrentProperty(): (r: Option<Entry>)
      reads this
      ensures r.Some? <==> Present(currentData.properties, currentData.currentPropertyIndex)
      ensures r.Some? ==> r.value == currentData.properties[currentData.currentPropertyIndex]
    {
      var index := currentData.currentPropertyIndex;
      if index >= 0 && index < |currentData.properties| then Some(currentData.properties[index]) else None
    }

    /** savePropertyData: false and no change for a missing index; otherwise stores the four
        sections, each `{}` when missing, on that entry. */
    method SavePropertyData(index: int, data: DetailsInput, now: string, writeOk: bool) returns (ok: bool)
      modifies this
      ensures !Present(old(currentData.properties), index) ==> !ok && unchanged(this)
      ensures Present(old(currentData.properties), index) ==>
                currentData.properties == old(currentData.properties)[index := old(currentData.properties)[index].(details := Some(DetailsOf(data, now)))]
                && currentData.currentPropertyIndex == old(currentData.currentPropertyIndex)
                && currentData.lastSaved == Some(now)
                && ok == writeOk
                && storage == (if writeOk then Holds(Snapshot(currentData)) else old(storage))
      ensures ok ==> LoadPropertyData(index) == Some(DetailsOf(data, now))
    {
      if !Present(currentData.properties, index) {
        return false;
      }
      var entry := currentData.properties[index];
      currentData := currentData.(properties := currentData.properties[index := entry.(details := Some(DetailsOf(data, now)))]);
      ok := SaveData(now, writeOk);
    }

    /** loadPropertyData: the entry's sections, or null when the entry or its sections are
        missing. */
    function LoadPropertyData(index: int): (r: Option<Details>)
      reads this
      ensures r.Some? <==> Present(currentData.properties, index) && currentData.properties[index].details.Some?
      ensures r.Some? ==> r == currentData.properties[index].details
    {
      if Present(currentData.properties, index) then currentData.properties[index].details else None
    }

    /** clearAllData: no properties, nothing selected, then saved. */
    method ClearAllData(now: string, writeOk: bool) returns (ok: bool)
      modifies this
      ensures currentData == AppData([], -1, Some(now))
      ensures ok == writeOk
      ensures storage == if writeOk then Holds(Snapshot(currentData)) else old(storage)
    {
      currentData := Empty;
      ok := SaveData(now, writeOk);
    }

    /** exportData: the state JSON.stringify encodes. */
    function ExportData(): (o: SavedObject)
      reads this
      ensures Restored(o, "") == currentData.(lastSaved := Some(""))
    {
      Snapshot(currentData)
    }

    /** importData: refuses blank, unparseable and non-object input without any change;
        otherwise installs the imported state, and puts the old state back when the write
        fails. */
    method ImportData(text: string, parse: string -> Option<Json>, now: string, writeOk: bool)
      returns (ok: bool)
      modifies this
      ensures ok <==> Accepts(text, parse) && writeOk
      ensures !ok ==> currentData == old(currentData) && storage == old(storage)
      ensures ok ==> currentData == Restored(parse(text).value.obj, now)
      ensures ok ==> storage == Holds(Snapshot(currentData))
    {
      if JsTrim(text) == "" {
        return false;
      }
      var data := parse(text);
      if data.None? || !data.value.JObject? {
        return false;
      }
      var oldData := currentData;
      currentData := Restored(data.value.obj, now);
      var saveResult := SaveData(now, writeOk);
      if saveResult {
        ok := true;
      } else {
        currentData := oldData;
        ok := false;
      }
    }
  }

  /** A state saved by the manager and read back by a new one: the properties and the save
      time always survive; the selection survives unless it is the first property, which the
      written loadData turns into no selection. The intended load keeps everything. */
  lemma ReloadKeepsState(m: StorageManager)
    requires m.storage.Holds? && m.storage.value == Snapshot(m.currentData)
    requires m.currentData.lastSaved != Some("")
    ensures LoadDataAsWritten(m.storage).properties == m.currentData.properties
    ensures LoadDataAsWritten(m.storage).lastSaved == m.currentData.lastSaved
    ensures m.currentData.currentPropertyIndex != 0 ==> LoadDataAsWritten(m.storage) == m.currentData
    ensures m.currentData.currentPropertyIndex == 0 ==> LoadDataAsWritten(m.storage).currentPropertyIndex == -1
    ensures LoadData(m.storage) == m.currentData
  {
    SaveLoadRoundTrip(m.currentData);
    if m.currentData.currentPropertyIndex != 0 {
      LoadAgreesAwayFromZero(m.storage);
    }
  }
}
