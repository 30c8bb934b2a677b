/** The browser settings store: `localStorage` seen as a map from keys to
    strings, the typed getters over it, the per-serial-number keys, the
    per-controller deadzone table, and the import of a settings bundle. */
module Storage {
  import opened JsText
  import opened Optional
  import opened Json

  const LastConnectedControllerKey := "lastConnectedController"
  const EdgeModalDontShowAgainKey := "edgeModalDontShowAgain"
  const FailedCalibrationCountKey := "failedCalibrationCount"
  const CenterCalibrationMethodKey := "centerCalibrationMethod"
  const RangeCalibrationMethodKey := "rangeCalibrationMethod"
  const QuickTestSkippedTestsKey := "quickTestSkippedTests"
  const ShowRawNumbersCheckboxKey := "showRawNumbersCheckbox"
  const FinetuneCenterStepSizeKey := "finetuneCenterStepSize"
  const FinetuneCircularityStepSizeKey := "finetuneCircularityStepSize"
  const FinetuneHistoryKey := "finetuneHistory"
  const DeadzoneSettingsKey := "deadzoneSettings"

  /** The fixed keys of the store. */
  const StorageKeys: set<string> := {
    LastConnectedControllerKey, EdgeModalDontShowAgainKey, FailedCalibrationCountKey,
    CenterCalibrationMethodKey, RangeCalibrationMethodKey, QuickTestSkippedTestsKey,
    ShowRawNumbersCheckboxKey, FinetuneCenterStepSizeKey, FinetuneCircularityStepSizeKey,
    FinetuneHistoryKey, DeadzoneSettingsKey
  }

  const ChangesPrefix := "changes_"

  /** `getChangesStorageKey`: no key for a missing or empty serial number,
      otherwise `changes_` followed by the serial number. */
  function ChangesStorageKey(serial: Option<string>): (r: Option<string>)
    ensures r.Some? <==> serial.Some? && serial.value != ""
    ensures r.Some? ==> |r.value| > |ChangesPrefix| && r.value[..|ChangesPrefix|] == ChangesPrefix
    ensures r.Some? ==> r.value[|ChangesPrefix|..] == serial.value
  {
    if serial.None? || serial.value == "" then None else Some(ChangesPrefix + serial.value)
  }

  /** Distinct serial numbers get distinct keys, and no serial number's key
      is one of the fixed keys. */
  lemma ChangesKeysAreDistinct(a: Option<string>, b: Option<string>)
    requires ChangesStorageKey(a).Some? && ChangesStorageKey(b).Some?
    ensures ChangesStorageKey(a) == ChangesStorageKey(b) ==> a == b
    ensures ChangesStorageKey(a).value !in StorageKeys
  {
    var ka := ChangesStorageKey(a).value;
    assert ka[..|ChangesPrefix|] == ChangesPrefix;
    assert ka[|ChangesPrefix|..] == a.value;
    if ChangesStorageKey(a) == ChangesStorageKey(b) {
      assert ChangesStorageKey(b).value[|ChangesPrefix|..] == b.value;
    }
    assert ka[0] == 'c' && ka[1] == 'h';
  }

  /** `getString`: `null` for an absent key. */
  function GetString(items: map<string, string>, key: string): Option<string> {
    if key in items then Some(items[key]) else None
  }

  /** `getObject`: an absent or empty value, and text that does not parse,
      read as `null`. */
  function GetObject(items: map<string, string>, c: JsonCodec, key: string): (r: Json)
    ensures key !in items ==> r == JNull
    ensures r != JNull ==> key in items && items[key] != "" && c.parse(items[key]) == Some(r)
  {
    if key !in items || items[key] == "" then JNull
    else match c.parse(items[key])
      case Some(j) => j
      case None => JNull
  }

  /** `getBoolean`: the default for an absent key, otherwise whether the
      stored text is exactly `true`. */
  function GetBoolean(items: map<string, string>, key: string, default: bool): bool {
    match GetString(items, key)
    case None => default
    case Some(v) => v == "true"
  }

  /** `getNumber`: the default for an absent key, otherwise `parseInt` of
      the stored text in base 10. */
  function GetNumber(items: map<string, string>, key: string, default: int): (r: JsNumber)
    ensures key !in items ==> r == Num(default as real)
    ensures r.Num? ==> r.value == r.value.Floor as real
  {
    match GetString(items, key)
    case None => Num(default as real)
    case Some(v) => ParseInt(v, Decimal)
  }

  /** The string getters with a default (`getString(key) || defaultValue`):
      the stored text, or the default when it is absent or empty. */
  function GetStringOr(items: map<string, string>, key: string, default: string): string {
    match GetString(items, key)
    case Some(v) => if v != "" then v else default
    case None => default
  }

  /** The defaults of `centerCalibrationMethod.get` and `rangeCalibrationMethod.get`. */
  const DefaultCenterCalibrationMethod := "four-step"
  const DefaultRangeCalibrationMethod := "normal"

  /** `centerCalibrationMethod.get`. */
  function CenterCalibrationMethod(items: map<string, string>, default: string): string {
    GetStringOr(items, CenterCalibrationMethodKey, default)
  }

  /** `rangeCalibrationMethod.get`. */
  function RangeCalibrationMethod(items: map<string, string>, default: string): string {
    GetStringOr(items, RangeCalibrationMethodKey, default)
  }

  /** `setString(key, v)` then a defaulted get of `key` gives `v` back, or the
      default when `v` is empty; after `removeItem(key)` it gives the default;
      a defaulted get of any other key is unchanged by either. */
  lemma StringOrRoundTrip(items: map<string, string>, key: string, v: string, other: string, default: string)
    requires other != key
    ensures GetStringOr(items[key := v], key, default) == if v != "" then v else default
    ensures GetStringOr(items - {key}, key, default) == default
    ensures GetStringOr(items[key := v], other, default) == GetStringOr(items, other, default)
    ensures GetStringOr(items - {key}, other, default) == GetStringOr(items, other, default)
  {
  }

  /** The two calibration-method settings are independent: setting the
      centre method changes what `centerCalibrationMethod.get` returns and
      not what `rangeCalibrationMethod.get` returns. Once cleared, both read
      as their default arguments, `four-step` and `normal`. */
  lemma CalibrationMethodsIndependent(items: map<string, string>, choice: string, centerDefault: string, rangeDefault: string)
    ensures CenterCalibrationMethod(items[CenterCalibrationMethodKey := choice], centerDefault)
      == if choice != "" then choice else centerDefault
    ensures RangeCalibrationMethod(items[CenterCalibrationMethodKey := choice], rangeDefault)
      == RangeCalibrationMethod(items, rangeDefault)
    ensures CenterCalibrationMethod(items - {CenterCalibrationMethodKey}, DefaultCenterCalibrationMethod) == "four-step"
    ensures RangeCalibrationMethod(items - {RangeCalibrationMethodKey}, DefaultRangeCalibrationMethod) == "normal"
  {
    StringOrRoundTrip(items, CenterCalibrationMethodKey, choice, RangeCalibrationMethodKey, rangeDefault);
    StringOrRoundTrip(items, CenterCalibrationMethodKey, choice, RangeCalibrationMethodKey, centerDefault);
  }

  /** `hasChangesState.get`: false without a key, otherwise the stored value
      when it is truthy and false when it is not. */
  function HasChanges(items: map<string, string>, c: JsonCodec, serial: Option<string>): (r: Json)
    ensures ChangesStorageKey(serial).None? ==> r == JBool(false)
    ensures r == JBool(false) || Truthy(r)
  {
    match ChangesStorageKey(serial)
    case None => JBool(false)
    case Some(key) =>
      var v := GetObject(items, c, key);
      if Truthy(v) then v else JBool(false)
  }

  /** `setBoolean` then `getBoolean` gives back the boolean, whatever the default. */
  lemma BooleanRoundTrip(items: map<string, string>, key: string, b: bool, default: bool)
    ensures GetBoolean(items[key := BoolToString(b)], key, default) == b
  {
  }

  /** `getBoolean` and `getNumber` on an absent key give their defaults. */
  lemma AbsentKeyGivesDefault(items: map<string, string>, key: string, b: bool, n: int)
    requires key !in items
    ensures GetBoolean(items, key, b) == b
    ensures GetNumber(items, key, n) == Num(n as real)
  {
  }

  /** `setNumber` then `getNumber` gives back the integer, whatever the default. */
  lemma NumberRoundTrip(items: map<string, string>, key: string, n: int, default: int)
    ensures GetNumber(items[key := IntToString(n)], key, default) == Num(n as real)
  {
    ParseIntRoundTrip(n, Decimal);
  }

  /** `setObject(key, v)` then `getObject(key)` gives `v` back, for a value
      the codec round-trips. */
  lemma ObjectRoundTrip(items: map<string, string>, c: JsonCodec, key: string, v: Json)
    requires RoundTrips(c, v)
    ensures GetObject(items[key := c.stringify(v)], c, key) == v
  {
  }

  /** `hasChangesState.set` then `get` gives back the flag for a real serial
      number; for a missing or empty one `get` is false. */
  lemma HasChangesRoundTrip(items: map<string, string>, c: JsonCodec, serial: Option<string>, flag: bool)
    requires RoundTrips(c, JBool(flag))
    ensures ChangesStorageKey(serial).Some? ==>
      HasChanges(items[ChangesStorageKey(serial).value := c.stringify(JBool(flag))], c, serial) == JBool(flag)
    ensures ChangesStorageKey(serial).None? ==> HasChanges(items, c, serial) == JBool(false)
  {
    if ChangesStorageKey(serial).Some? {
      ObjectRoundTrip(items, c, ChangesStorageKey(serial).value, JBool(flag));
    }
  }

  /** The deadzone settings `deadzoneSettings.get` returns for an unknown
      controller when asked for a default. */
  const StoredDefaultStick: Json := JObj(map["inner" := JNum(0.05), "outer" := JNum(0.95)])
  const StoredDefaultDeadzone: Json := JObj(map["left" := StoredDefaultStick, "right" := StoredDefaultStick])

  /** The decoded table of deadzone settings, `{}` when nothing usable is stored. */
  function DeadzoneTable(items: map<string, string>, c: JsonCodec): Json {
    var stored := GetObject(items, c, DeadzoneSettingsKey);
    if Truthy(stored) then stored else JObj(map[])
  }

  /** `deadzoneSettings.get`: the stored entry when it is truthy, otherwise
      the default or `null`. */
  function DeadzoneGet(items: map<string, string>, c: JsonCodec, serial: string, useDefault: bool): (r: Option<Json>)
    ensures r.Some? ==> Truthy(r.value)
    ensures useDefault ==> r.Some?
  {
    var stored := Property(DeadzoneTable(items, c), serial);
    if stored.Some? && Truthy(stored.value) then stored
    else if !useDefault then None
    else Some(StoredDefaultDeadzone)
  }

  /** The store after `deadzoneSettings.set`: the entry for `serial` replaced
      in the table and the table written back. A table that decodes to
      something other than an object is left as it is. */
  function DeadzoneSetItems(items: map<string, string>, c: JsonCodec, serial: string, settings: Json): (r: map<string, string>)
    ensures r - {DeadzoneSettingsKey} == items - {DeadzoneSettingsKey}
    ensures DeadzoneTable(items, c).JObj? ==> DeadzoneSettingsKey in r
  {
    var table := DeadzoneTable(items, c);
    if table.JObj? then items[DeadzoneSettingsKey := c.stringify(JObj(table.fields[serial := settings]))]
    else items
  }

  /** The store after `deadzoneSettings.clear`: the entry for `serial`
      deleted from the table and the table written back. */
  function DeadzoneClearItems(items: map<string, string>, c: JsonCodec, serial: string): (r: map<string, string>)
    ensures r - {DeadzoneSettingsKey} == items - {DeadzoneSettingsKey}
    ensures DeadzoneTable(items, c).JObj? ==> DeadzoneSettingsKey in r
  {
    var table := DeadzoneTable(items, c);
    if table.JObj? then items[DeadzoneSettingsKey := c.stringify(JObj(table.fields - {serial}))]
    else items
  }

  /** An unknown controller gets the default settings (inner 0.05, outer 0.95
      on both sticks) when `useDefault` is set, and `null` otherwise. */
  lemma DeadzoneGetUnknown(items: map<string, string>, c: JsonCodec, serial: string, useDefault: bool)
    requires Property(DeadzoneTable(items, c), serial).None?
    ensures DeadzoneGet(items, c, serial, useDefault) == if useDefault then Some(StoredDefaultDeadzone) else None
  {
  }

  /** `deadzoneSettings.set(serial, v)` then `get(serial)` gives back `v`
      (for a truthy `v`), leaves every other controller's entry as it was,
      and touches no key of the store but the deadzone table. */
  lemma DeadzoneSetThenGet(items: map<string, string>, c: JsonCodec, serial: string, settings: Json, other: string, useDefault: bool)
    requires DeadzoneTable(items, c).JObj?
    requires RoundTrips(c, JObj(DeadzoneTable(items, c).fields[serial := settings]))
    requires Truthy(settings) && other != serial
    ensures var after := DeadzoneSetItems(items, c, serial, settings);
      && DeadzoneGet(after, c, serial, useDefault) == Some(settings)
      && DeadzoneGet(after, c, other, useDefault) == DeadzoneGet(items, c, other, useDefault)
      && after - {DeadzoneSettingsKey} == items - {DeadzoneSettingsKey}
      && DeadzoneTable(after, c).JObj?
  {
    var table := DeadzoneTable(items, c);
    var written := JObj(table.fields[serial := settings]);
    ObjectRoundTrip(items, c, DeadzoneSettingsKey, written);
    assert DeadzoneTable(DeadzoneSetItems(items, c, serial, settings), c) == written;
  }

  /** `deadzoneSettings.clear(serial)` forgets only that controller: its
      `get` falls back to the default, every other controller's entry stays,
      and no other key of the store changes. */
  lemma DeadzoneClearForgetsOnlyOne(items: map<string, string>, c: JsonCodec, serial: string, other: string, useDefault: bool)
    requires DeadzoneTable(items, c).JObj?
    requires RoundTrips(c, JObj(DeadzoneTable(items, c).fields - {serial}))
    requires other != serial
    ensures var after := DeadzoneClearItems(items, c, serial);
      && DeadzoneGet(after, c, serial, useDefault) == (if useDefault then Some(StoredDefaultDeadzone) else None)
      && DeadzoneGet(after, c, other, useDefault) == DeadzoneGet(items, c, other, useDefault)
      && after - {DeadzoneSettingsKey} == items - {DeadzoneSettingsKey}
      && DeadzoneTable(after, c).JObj?
  {
    var table := DeadzoneTable(items, c);
    var written := JObj(table.fields - {serial});
    ObjectRoundTrip(items, c, DeadzoneSettingsKey, written);
    assert DeadzoneTable(DeadzoneClearItems(items, c, serial), c) == written;
  }

  /** What `importSettings` reports. */
  datatype ImportResult = ImportResult(success: bool, imported: nat, errors: seq<string>)

  /** The validation at the head of `importSettings`. */
  datatype ImportCheck = Accepted(entries: map<string, Json>) | Refused(reason: string)

  /** The entries `Object.entries` yields for an object or an array (whose
      keys are its indices written in decimal). */
  function Entries(j: Json): map<string, Json>
    requires j.JObj? || j.JArr?
  {
    if j.JObj? then j.fields
    else
      assert forall a, b :: IntToString(a) == IntToString(b) ==> a == b by {
        forall a, b | IntToString(a) == IntToString(b) ensures a == b {
          IntToStringInjective(a, b);
        }
      }
      map i | 0 <= i < |j.elems| :: IntToString(i) := j.elems[i]
  }

  /** `importSettings` accepts only a truthy object whose `settings` property
      is a truthy object (or array). */
  function CheckImport(data: Json): (r: ImportCheck)
    ensures r.Accepted? <==>
      data.JObj? && "settings" in data.fields && (data.fields["settings"].JObj? || data.fields["settings"].JArr?)
    ensures r.Accepted? && data.fields["settings"].JObj? ==> r.entries == data.fields["settings"].fields
  {
    if !Truthy(data) || !IsObjectType(data) then Refused("Invalid settings format")
    else
      var settings := Property(data, "settings");
      if settings.None? || !Truthy(settings.value) || !IsObjectType(settings.value) then
        Refused("Settings object not found in import data")
      else
        Accepted(Entries(settings.value))
  }

  /** The text `importSettings` stores for one entry: a string as it is,
      anything else stringified. */
  function StoredForm(c: JsonCodec, v: Json): string {
    if v.JStr? then v.s else c.stringify(v)
  }

  /** The store after importing `entries` on top of `base`. */
  function ImportedItems(base: map<string, string>, c: JsonCodec, entries: map<string, Json>): map<string, string> {
    base + map k | k in entries :: StoredForm(c, entries[k])
  }

  /** The store after importing the entries whose keys are in `done`. */
  function PartlyImported(base: map<string, string>, c: JsonCodec, entries: map<string, Json>, done: set<string>): map<string, string> {
    base + map k | k in entries && k in done :: StoredForm(c, entries[k])
  }

  /** Importing one more entry extends the partial import by that entry. */
  lemma PartlyImportedStep(base: map<string, string>, c: JsonCodec, entries: map<string, Json>, done: set<string>, key: string)
    requires key in entries
    ensures PartlyImported(base, c, entries, done + {key})
      == PartlyImported(base, c, entries, done)[key := StoredForm(c, entries[key])]
  {
  }

  /** Once every entry is imported the partial import is the whole import. */
  lemma PartlyImportedAll(base: map<string, string>, c: JsonCodec, entries: map<string, Json>)
    ensures PartlyImported(base, c, entries, entries.Keys) == ImportedItems(base, c, entries)
  {
  }

  /** After an import every imported key is present and reads back as the
      imported value (a string as text, anything else through `getObject`);
      a key not in the bundle keeps its old value when merging and is gone
      when replacing. */
  lemma ImportedItemsReadBack(base: map<string, string>, c: JsonCodec, entries: map<string, Json>, k: string, merge: bool)
    requires k in entries && !entries[k].JStr? ==> RoundTrips(c, entries[k])
    ensures var after := ImportedItems(if merge then base else map[], c, entries);
      && (k in entries && entries[k].JStr? ==> GetString(after, k) == Some(entries[k].s))
      && (k in entries && !entries[k].JStr? ==> GetObject(after, c, k) == entries[k])
      && (k !in entries ==> GetString(after, k) == if merge then GetString(base, k) else None)
  {
    if k in entries && !entries[k].JStr? {
      assert ImportedItems(if merge then base else map[], c, entries)[k] == c.stringify(entries[k]);
    }
  }

  /** The browser store and the operations that write to it. */
  class SettingsStore {
    /** The contents of `localStorage`. */
    var items: map<string, string>
    /** `JSON.stringify` and `JSON.parse`. */
    const codec: JsonCodec

    constructor (codec: JsonCodec)
      ensures items == map[] && this.codec == codec
    {
      items := map[];
      this.codec := codec;
    }

    /** `setString`. */
    method SetString(key: string, value: string)
      modifies this
      ensures items == old(items)[key := value]
      ensures GetString(items, key) == Some(value)
    {
      items := items[key := value];
    }

    /** `removeItem`. */
    method RemoveItem(key: string)
      modifies this
      ensures items == old(items) - {key}
      ensures GetString(items, key) == None
    {
      items := items - {key};
    }

    /** `setObject`. */
    method SetObject(key: string, value: Json)
      modifies this
      ensures items == old(items)[key := codec.stringify(value)]
      ensures RoundTrips(codec, value) ==> GetObject(items, codec, key) == value
    {
      SetString(key, codec.stringify(value));
    }

    /** `setBoolean`: stores `true` or `false`, read back by `getBoolean`. */
    method SetBoolean(key: string, value: bool)
      modifies this
      ensures items == old(items)[key := BoolToString(value)]
      ensures forall d :: GetBoolean(items, key, d) == value
    {
      SetString(key, BoolToString(value));
    }

    /** `setNumber` on an integer: stores its decimal text, read back by `getNumber`. */
    method SetNumber(key: string, value: int)
      modifies this
      ensures items == old(items)[key := IntToString(value)]
      ensures GetNumber(items, key, 0) == Num(value as real)
    {
      SetString(key, IntToString(value));
      NumberRoundTrip(old(items), key, value, 0);
    }

    /** `hasChangesState.set`: writes nothing for a missing or empty serial number. */
    method SetHasChanges(serial: Option<string>, hasChanges: bool)
      modifies this
      ensures ChangesStorageKey(serial).None? ==> items == old(items)
      ensures ChangesStorageKey(serial).Some? ==>
        items == old(items)[ChangesStorageKey(serial).value := codec.stringify(JBool(hasChanges))]
    {
      var key := ChangesStorageKey(serial);
      if key.Some? {
        SetObject(key.value, JBool(hasChanges));
      }
    }

    /** `hasChangesState.clear`. */
    method ClearHasChanges(serial: Option<string>)
      modifies this
      ensures ChangesStorageKey(serial).None? ==> items == old(items)
      ensures ChangesStorageKey(serial).Some? ==> items == old(items) - {ChangesStorageKey(serial).value}
    {
      var key := ChangesStorageKey(serial);
      if key.Some? {
        RemoveItem(key.value);
      }
    }

    /** `deadzoneSettings.set`: read the table, replace one entry, write it back. */
    method SetDeadzone(serial: string, settings: Json)
      modifies this
      ensures items == DeadzoneSetItems(old(items), codec, serial, settings)
    {
      var table := DeadzoneTable(items, codec);
      if table.JObj? {
        SetObject(DeadzoneSettingsKey, JObj(table.fields[serial := settings]));
      }
    }

    /** `deadzoneSettings.clear`: read the table, delete one entry, write it back. */
    method ClearDeadzone(serial: string)
      modifies this
      ensures items == DeadzoneClearItems(old(items), codec, serial)
    {
      var table := DeadzoneTable(items, codec);
      if table.JObj? {
        SetObject(DeadzoneSettingsKey, JObj(table.fields - {serial}));
      }
    }

    /** The loop of `importSettings`: store every entry, one `setItem` each,
        and count them. */
    method StoreEntries(entries: map<string, Json>) returns (imported: nat)
      modifies this
      ensures items == ImportedItems(old(items), codec, entries)
      ensures imported == |entries|
    {
      ghost var base := items;
      imported := 0;
      var remaining := entries.Keys;
      ghost var done: set<string> := {};
      while remaining != {}
        invariant done <= entries.Keys && remaining == entries.Keys - done
        invariant items == PartlyImported(base, codec, entries, done)
        invariant imported == |done|
        decreases remaining
      {
        var key :| key in remaining;
        SetString(key, StoredForm(codec, entries[key]));
        PartlyImportedStep(base, codec, entries, done, key);
        assert key !in done;
        assert |done + {key}| == |done| + 1;
        imported := imported + 1;
        done := done + {key};
        remaining := remaining - {key};
      }
      assert done == entries.Keys;
      assert |entries.Keys| == |entries|;
      PartlyImportedAll(base, codec, entries);
    }

    /** `importSettings`: validate the bundle, clear the store unless merging,
        then store every entry; success means at least one was stored. A
        refused bundle leaves the store untouched. */
    method ImportSettings(data: Json, merge: bool) returns (result: ImportResult)
      modifies this
      ensures CheckImport(data).Refused? ==>
        && items == old(items)
        && result == ImportResult(false, 0, ["Import failed: " + CheckImport(data).reason])
      ensures CheckImport(data).Accepted? ==>
        var entries := CheckImport(data).entries;
        && items == ImportedItems(if merge then old(items) else map[], codec, entries)
        && result == ImportResult(|entries| > 0, |entries|, [])
      ensures result.success <==> result.imported > 0
    {
      var check := CheckImport(data);
      if check.Refused? {
        return ImportResult(false, 0, ["Import failed: " + check.reason]);
      }
      if !merge {
        items := map[];
      }
      var imported := StoreEntries(check.entries);
      result := ImportResult(imported > 0, imported, []);
    }
  }
}
