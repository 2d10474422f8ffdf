/** The settings and history persistence hook: a mirror of the settings kept in a store, and the
    read-modify-write operations on the stored history list. */
module Storage {
  import opened Wrappers
  import opened Records
  import Sequences

  // ----- store keys and messages -----

  const ApiKeyKey: string := "apiKey"
  const ThemeKey: string := "theme"
  const FontSizeKey: string := "fontSize"
  const LanguageModeKey: string := "languageMode"
  const MaxHistoryItemsKey: string := "maxHistoryItems"
  const HistoryKey: string := "history"

  const SettingsKeys: set<string> := {ApiKeyKey, ThemeKey, FontSizeKey, LanguageModeKey, MaxHistoryItemsKey}

  const LoadSettingsError: string := "設定の読み込み中にエラーが発生しました"
  const ApiKeySaveError: string := "APIキーの保存中にエラーが発生しました"
  const ThemeSaveError: string := "テーマの保存中にエラーが発生しました"
  const FontSizeSaveError: string := "フォントサイズの保存中にエラーが発生しました"
  const LanguageModeSaveError: string := "言語モードの保存中にエラーが発生しました"
  const MaxHistoryItemsSaveError: string := "最大履歴数の保存中にエラーが発生しました"
  const AllSettingsSaveError: string := "設定の更新中にエラーが発生しました"
  const HistorySaveError: string := "履歴の保存中にエラーが発生しました"
  const HistoryReadError: string := "履歴の取得中にエラーが発生しました"
  const HistoryRemoveError: string := "履歴の削除中にエラーが発生しました"
  const HistoryClearError: string := "履歴のクリア中にエラーが発生しました"

  // ----- settings -----

  /** The settings mirror. */
  datatype Settings = Settings(apiKey: string, theme: string, fontSize: int, languageMode: string, maxHistoryItems: int)

  const DefaultSettings: Settings := Settings("", "dark", 14, "simple", 50)

  /** `await getData(key) || fallback` for a text setting: a stored non-empty text, else the fallback. */
  function TextOr(v: Option<Value>, fallback: string): string {
    match v
    case Some(Text(s)) => if s != "" then s else fallback
    case _ => fallback
  }

  /** `await getData(key) || fallback` for a numeric setting: a stored non-zero number, else the fallback. */
  function NumberOr(v: Option<Value>, fallback: int): int {
    match v
    case Some(Number(n)) => if n != 0 then n else fallback
    case _ => fallback
  }

  /** `value` is what `(await getData(key)) || fallback` gives for a text setting. */
  predicate LoadedText(data: map<string, Value>, key: string, fallback: string, value: string) {
    var v := Lookup(data, key);
    if v.Some? && v.value.Text? && v.value.text != "" then value == v.value.text else value == fallback
  }

  /** `value` is what `(await getData(key)) || fallback` gives for a numeric setting. */
  predicate LoadedNumber(data: map<string, Value>, key: string, fallback: int, value: int) {
    var v := Lookup(data, key);
    if v.Some? && v.value.Number? && v.value.number != 0 then value == v.value.number else value == fallback
  }

  /** The settings `loadSettings` reads from a store: each key's value, or its default when the key
      is missing or its value falsy. Since every default but the key's is truthy, a loaded theme,
      font size, language mode and history limit are never falsy. */
  function SettingsFrom(data: map<string, Value>): (r: Settings)
    ensures LoadedText(data, ApiKeyKey, DefaultSettings.apiKey, r.apiKey)
    ensures LoadedText(data, ThemeKey, DefaultSettings.theme, r.theme)
    ensures LoadedNumber(data, FontSizeKey, DefaultSettings.fontSize, r.fontSize)
    ensures LoadedText(data, LanguageModeKey, DefaultSettings.languageMode, r.languageMode)
    ensures LoadedNumber(data, MaxHistoryItemsKey, DefaultSettings.maxHistoryItems, r.maxHistoryItems)
    ensures r.theme != "" && r.fontSize != 0 && r.languageMode != "" && r.maxHistoryItems != 0
  {
    Settings(
      TextOr(Lookup(data, ApiKeyKey), DefaultSettings.apiKey),
      TextOr(Lookup(data, ThemeKey), DefaultSettings.theme),
      NumberOr(Lookup(data, FontSizeKey), DefaultSettings.fontSize),
      TextOr(Lookup(data, LanguageModeKey), DefaultSettings.languageMode),
      NumberOr(Lookup(data, MaxHistoryItemsKey), DefaultSettings.maxHistoryItems))
  }

  /** The store as the five single-field updates leave it after writing all of `s`. */
  function SettingsData(s: Settings): map<string, Value> {
    map[ApiKeyKey := Text(s.apiKey), ThemeKey := Text(s.theme), FontSizeKey := Number(s.fontSize),
        LanguageModeKey := Text(s.languageMode), MaxHistoryItemsKey := Number(s.maxHistoryItems)]
  }

  /** A store in which no settings key holds a truthy value loads as the defaults. */
  lemma LoadWithoutSettingsGivesDefaults(data: map<string, Value>)
    requires forall k | k in SettingsKeys && k in data :: !IsTruthy(data[k])
    ensures SettingsFrom(data) == DefaultSettings
  {
    assert ApiKeyKey in SettingsKeys && ThemeKey in SettingsKeys && FontSizeKey in SettingsKeys;
    assert LanguageModeKey in SettingsKeys && MaxHistoryItemsKey in SettingsKeys;
  }

  /** Saved settings load back as they were exactly when no field other than the key is falsy:
      an empty theme or language mode, or a zero font size or history limit, reloads as the default. */
  lemma SettingsRoundTrip(s: Settings)
    ensures SettingsFrom(SettingsData(s)) == s <==>
      s.theme != "" && s.fontSize != 0 && s.languageMode != "" && s.maxHistoryItems != 0
  {
    var d := SettingsData(s);
    assert Lookup(d, ApiKeyKey) == Some(Text(s.apiKey));
    assert Lookup(d, ThemeKey) == Some(Text(s.theme));
    assert Lookup(d, FontSizeKey) == Some(Number(s.fontSize));
    assert Lookup(d, LanguageModeKey) == Some(Text(s.languageMode));
    assert Lookup(d, MaxHistoryItemsKey) == Some(Number(s.maxHistoryItems));
  }

  // ----- updateAllSettings -----

  /** The argument of `updateAllSettings`; `None` is a field left `undefined`. */
  datatype SettingsPatch = SettingsPatch(
    apiKey: Option<string>, theme: Option<string>, fontSize: Option<int>,
    languageMode: Option<string>, maxHistoryItems: Option<int>)

  function TextValue(o: Option<string>): Option<Value> {
    match o
    case Some(s) => Some(Text(s))
    case None => None
  }

  function NumberValue(o: Option<int>): Option<Value> {
    match o
    case Some(n) => Some(Number(n))
    case None => None
  }

  /** The write one field contributes: none when it is `undefined`. */
  function WriteOf(key: string, value: Option<Value>): (r: seq<(string, Value)>)
    ensures |r| <= 1
  {
    match value
    case Some(v) => [(key, v)]
    case None => []
  }

  /** `filteredSettings`: the entries of `settingsToUpdate` whose value is not `undefined`, in order. */
  function FilteredSettings(p: SettingsPatch): seq<(string, Value)> {
    WriteOf(ThemeKey, TextValue(p.theme)) + WriteOf(FontSizeKey, NumberValue(p.fontSize))
    + WriteOf(LanguageModeKey, TextValue(p.languageMode)) + WriteOf(MaxHistoryItemsKey, NumberValue(p.maxHistoryItems))
  }

  /** Every write `updateAllSettings` makes, in order: the API key when defined, then `filteredSettings`. */
  function PatchEntries(p: SettingsPatch): seq<(string, Value)> {
    WriteOf(ApiKeyKey, TextValue(p.apiKey)) + FilteredSettings(p)
  }

  /** The store after a sequence of writes. */
  function WriteEntries(data: map<string, Value>, es: seq<(string, Value)>): map<string, Value>
    decreases |es|
  {
    if es == [] then data
    else WriteEntries(data, es[..|es| - 1])[es[|es| - 1].0 := es[|es| - 1].1]
  }

  /** The value a sequence of writes leaves under `k`: the last one written there. */
  function LastWritten(es: seq<(string, Value)>, k: string): Option<Value>
    decreases |es|
  {
    if es == [] then None
    else if es[|es| - 1].0 == k then Some(es[|es| - 1].1)
    else LastWritten(es[..|es| - 1], k)
  }

  /** After the writes, a key holds the last value written to it, or what it held before. */
  lemma {:induction false} WriteEntriesLookup(data: map<string, Value>, es: seq<(string, Value)>, k: string)
    ensures Lookup(WriteEntries(data, es), k) == if LastWritten(es, k).Some? then LastWritten(es, k) else Lookup(data, k)
    decreases |es|
  {
    if es != [] {
      WriteEntriesLookup(data, es[..|es| - 1], k);
    }
  }

  /** The last value written by two lists: the second's, when it wrote the key. */
  lemma {:induction false} LastWrittenConcat(a: seq<(string, Value)>, b: seq<(string, Value)>, k: string)
    ensures LastWritten(a + b, k) == if LastWritten(b, k).Some? then LastWritten(b, k) else LastWritten(a, k)
    decreases |b|
  {
    if b == [] {
      assert a + b == a;
    } else {
      assert (a + b)[..|a + b| - 1] == a + b[..|b| - 1];
      LastWrittenConcat(a, b[..|b| - 1], k);
    }
  }

  /** The keys `updateAllSettings` writes: exactly those of its defined fields. */
  function DefinedKeys(p: SettingsPatch): set<string> {
    (if p.apiKey.Some? then {ApiKeyKey} else {}) + (if p.theme.Some? then {ThemeKey} else {})
    + (if p.fontSize.Some? then {FontSizeKey} else {}) + (if p.languageMode.Some? then {LanguageModeKey} else {})
    + (if p.maxHistoryItems.Some? then {MaxHistoryItemsKey} else {})
  }

  /** One field's write leaves a value under its own key only. */
  lemma LastWrittenOfWriteOf(key: string, value: Option<Value>, k: string)
    ensures LastWritten(WriteOf(key, value), k) == if key == k then value else None
  {
  }

  /** The value `updateAllSettings` gives key `k`: the matching field's, `None` for a field left
      `undefined` and for every other key. */
  function PatchValue(p: SettingsPatch, k: string): Option<Value> {
    if k == ApiKeyKey then TextValue(p.apiKey)
    else if k == ThemeKey then TextValue(p.theme)
    else if k == FontSizeKey then NumberValue(p.fontSize)
    else if k == LanguageModeKey then TextValue(p.languageMode)
    else if k == MaxHistoryItemsKey then NumberValue(p.maxHistoryItems)
    else None
  }

  /** A key gets a value exactly when it is the key of a defined field. */
  lemma PatchValueDefined(p: SettingsPatch, k: string)
    ensures PatchValue(p, k).Some? <==> k in DefinedKeys(p)
  {
  }

  /** `filteredSettings` holds one entry per defined field other than the key, with that field's
      value, and no key twice. */
  lemma FilteredSettingsShape(p: SettingsPatch)
    ensures var r := FilteredSettings(p);
      && |r| <= 4
      && (forall i | 0 <= i < |r| :: r[i].0 != ApiKeyKey && r[i].0 in DefinedKeys(p) && PatchValue(p, r[i].0) == Some(r[i].1))
      && (forall i, j | 0 <= i < j < |r| :: r[i].0 != r[j].0)
  {
  }

  /** The writes of `updateAllSettings`: the API key first when it is defined, then one write per
      other defined field, each with that field's value, and no key written twice. */
  lemma PatchEntriesShape(p: SettingsPatch)
    ensures var r := PatchEntries(p);
      && |r| <= 5
      && (p.apiKey.Some? ==> |r| >= 1 && r[0] == (ApiKeyKey, Text(p.apiKey.value)))
      && (forall i | 0 <= i < |r| :: r[i].0 in DefinedKeys(p) && PatchValue(p, r[i].0) == Some(r[i].1))
      && (forall i, j | 0 <= i < j < |r| :: r[i].0 != r[j].0)
  {
    FilteredSettingsShape(p);
  }

  /** The value written under each key: the field's new value when it is defined, nothing otherwise. */
  lemma PatchEntriesLastWritten(p: SettingsPatch, k: string)
    ensures LastWritten(PatchEntries(p), k) == PatchValue(p, k)
    ensures LastWritten(PatchEntries(p), k).Some? <==> k in DefinedKeys(p)
  {
    var a := WriteOf(ApiKeyKey, TextValue(p.apiKey));
    var t := WriteOf(ThemeKey, TextValue(p.theme));
    var f := WriteOf(FontSizeKey, NumberValue(p.fontSize));
    var l := WriteOf(LanguageModeKey, TextValue(p.languageMode));
    var m := WriteOf(MaxHistoryItemsKey, NumberValue(p.maxHistoryItems));
    LastWrittenOfWriteOf(ApiKeyKey, TextValue(p.apiKey), k);
    LastWrittenOfWriteOf(ThemeKey, TextValue(p.theme), k);
    LastWrittenOfWriteOf(FontSizeKey, NumberValue(p.fontSize), k);
    LastWrittenOfWriteOf(LanguageModeKey, TextValue(p.languageMode), k);
    LastWrittenOfWriteOf(MaxHistoryItemsKey, NumberValue(p.maxHistoryItems), k);
    LastWrittenConcat(a, t + f + l + m, k);
    LastWrittenConcat(t + f + l, m, k);
    LastWrittenConcat(t + f, l, k);
    LastWrittenConcat(t, f, k);
    PatchValueDefined(p, k);
  }

  /** `updateAllSettings` writes only the defined fields: every other key keeps its value, and each
      defined field's key holds the new value. */
  lemma PatchWritesOnlyDefinedFields(data: map<string, Value>, p: SettingsPatch, k: string)
    ensures k !in DefinedKeys(p) ==> Lookup(WriteEntries(data, PatchEntries(p)), k) == Lookup(data, k)
    ensures k in DefinedKeys(p) ==> Lookup(WriteEntries(data, PatchEntries(p)), k) == LastWritten(PatchEntries(p), k)
  {
    WriteEntriesLookup(data, PatchEntries(p), k);
    PatchEntriesLastWritten(p, k);
  }

  /** The mirror after `updateAllSettings`: each defined field replaced, every other one kept. Seen
      as stored values, every settings key takes the patch's value when it has one, and keeps its own otherwise. */
  function Merge(s: Settings, p: SettingsPatch): (r: Settings)
    ensures forall k | k in SettingsKeys ::
      Lookup(SettingsData(r), k) == if PatchValue(p, k).Some? then PatchValue(p, k) else Lookup(SettingsData(s), k)
  {
    Settings(p.apiKey.GetOr(s.apiKey), p.theme.GetOr(s.theme), p.fontSize.GetOr(s.fontSize),
             p.languageMode.GetOr(s.languageMode), p.maxHistoryItems.GetOr(s.maxHistoryItems))
  }

  const EmptyPatch: SettingsPatch := SettingsPatch(None, None, None, None, None)

  /** A patch with every field undefined writes nothing and changes nothing. */
  lemma EmptyPatchChangesNothing(data: map<string, Value>, s: Settings)
    ensures PatchEntries(EmptyPatch) == [] && WriteEntries(data, PatchEntries(EmptyPatch)) == data
    ensures Merge(s, EmptyPatch) == s
  {
  }

  /** Applying the same patch twice is applying it once. */
  lemma MergeIdempotent(s: Settings, p: SettingsPatch)
    ensures Merge(Merge(s, p), p) == Merge(s, p)
  {
  }

  /** A patch's values are all truthy, so that they survive a reload. */
  predicate TruthyPatch(p: SettingsPatch) {
    && (p.theme.Some? ==> p.theme.value != "") && (p.fontSize.Some? ==> p.fontSize.value != 0)
    && (p.languageMode.Some? ==> p.languageMode.value != "") && (p.maxHistoryItems.Some? ==> p.maxHistoryItems.value != 0)
  }

  /** The store and the mirror move together: reloading after `updateAllSettings` gives the merged
      mirror, provided the store matched the mirror before and no written value is falsy. */
  lemma StoreAndMirrorAgree(data: map<string, Value>, p: SettingsPatch)
    requires TruthyPatch(p)
    ensures SettingsFrom(WriteEntries(data, PatchEntries(p))) == Merge(SettingsFrom(data), p)
  {
    PatchWritesOnlyDefinedFields(data, p, ApiKeyKey);
    PatchEntriesLastWritten(p, ApiKeyKey);
    PatchWritesOnlyDefinedFields(data, p, ThemeKey);
    PatchEntriesLastWritten(p, ThemeKey);
    PatchWritesOnlyDefinedFields(data, p, FontSizeKey);
    PatchEntriesLastWritten(p, FontSizeKey);
    PatchWritesOnlyDefinedFields(data, p, LanguageModeKey);
    PatchEntriesLastWritten(p, LanguageModeKey);
    PatchWritesOnlyDefinedFields(data, p, MaxHistoryItemsKey);
    PatchEntriesLastWritten(p, MaxHistoryItemsKey);
    var loaded, merged := SettingsFrom(WriteEntries(data, PatchEntries(p))), Merge(SettingsFrom(data), p);
    assert loaded.apiKey == merged.apiKey && loaded.theme == merged.theme && loaded.fontSize == merged.fontSize;
    assert loaded.languageMode == merged.languageMode && loaded.maxHistoryItems == merged.maxHistoryItems;
  }

  /** Each single-field update is `updateAllSettings` with only that field defined. */
  lemma SingleUpdatesArePatches(data: map<string, Value>, s: Settings, text: string, n: int)
    ensures var p := EmptyPatch.(apiKey := Some(text));
      WriteEntries(data, PatchEntries(p)) == data[ApiKeyKey := Text(text)] && Merge(s, p) == s.(apiKey := text)
    ensures var p := EmptyPatch.(theme := Some(text));
      WriteEntries(data, PatchEntries(p)) == data[ThemeKey := Text(text)] && Merge(s, p) == s.(theme := text)
    ensures var p := EmptyPatch.(fontSize := Some(n));
      WriteEntries(data, PatchEntries(p)) == data[FontSizeKey := Number(n)] && Merge(s, p) == s.(fontSize := n)
    ensures var p := EmptyPatch.(languageMode := Some(text));
      WriteEntries(data, PatchEntries(p)) == data[LanguageModeKey := Text(text)] && Merge(s, p) == s.(languageMode := text)
    ensures var p := EmptyPatch.(maxHistoryItems := Some(n));
      WriteEntries(data, PatchEntries(p)) == data[MaxHistoryItemsKey := Number(n)] && Merge(s, p) == s.(maxHistoryItems := n)
  {
    OneWrite(data, ApiKeyKey, Text(text));
    assert PatchEntries(EmptyPatch.(apiKey := Some(text))) == [(ApiKeyKey, Text(text))];
    OneWrite(data, ThemeKey, Text(text));
    assert PatchEntries(EmptyPatch.(theme := Some(text))) == [(ThemeKey, Text(text))];
    OneWrite(data, FontSizeKey, Number(n));
    assert PatchEntries(EmptyPatch.(fontSize := Some(n))) == [(FontSizeKey, Number(n))];
    OneWrite(data, LanguageModeKey, Text(text));
    assert PatchEntries(EmptyPatch.(languageMode := Some(text))) == [(LanguageModeKey, Text(text))];
    OneWrite(data, MaxHistoryItemsKey, Number(n));
    assert PatchEntries(EmptyPatch.(maxHistoryItems := Some(n))) == [(MaxHistoryItemsKey, Number(n))];
  }

  lemma OneWrite(data: map<string, Value>, key: string, value: Value)
    ensures WriteEntries(data, [(key, value)]) == data[key := value]
  {
    assert [(key, value)][..0] == [];
  }

  // ----- history list -----

  /** `await getData('history') || []`. */
  function StoredHistory(data: map<string, Value>): seq<HistoryEntry> {
    match Lookup(data, HistoryKey)
    case Some(Entries(es)) => es
    case _ => []
  }

  /** Where `splice(start)` cuts a list of length `len`: a negative start counts from the end. */
  function SpliceStart(len: nat, start: int): (k: nat)
    ensures k <= len
  {
    if start < 0 then (if len + start > 0 then len + start else 0)
    else if start < len then start else len
  }

  /** The list `saveHistoryItem` stores: the new entry in front, cut after `maxItems` entries. It is
      always a prefix of the new entry followed by the old list, it is that whole list below the
      limit, and never longer than a non-negative limit. */
  function PrependBounded(history: seq<HistoryEntry>, entry: HistoryEntry, maxItems: int): (r: seq<HistoryEntry>)
    ensures |r| <= |history| + 1 && r == ([entry] + history)[..|r|]
    ensures |history| < maxItems ==> r == [entry] + history
    ensures maxItems >= 0 ==> |r| <= maxItems
  {
    var extended := [entry] + history;
    if |extended| > maxItems then extended[..SpliceStart(|extended|, maxItems)] else extended
  }

  /** The stored list is a prefix of the new entry followed by the old list: nothing is reordered,
      old entries are only dropped from the end. With a non-negative limit it holds at most `maxItems`
      entries, exactly `min(|history| + 1, maxItems)`, and the new entry comes first unless the limit is 0. */
  lemma PrependBoundedShape(history: seq<HistoryEntry>, entry: HistoryEntry, maxItems: int)
    ensures var r := PrependBounded(history, entry, maxItems);
      && |r| <= |history| + 1
      && r == ([entry] + history)[..|r|]
      && (maxItems >= 0 ==> |r| == if |history| + 1 < maxItems then |history| + 1 else maxItems)
      && (maxItems >= 1 ==> r[0] == entry && r[1..] == history[..|r| - 1])
      && (maxItems == 0 ==> r == [])
  {
    var r := PrependBounded(history, entry, maxItems);
    if maxItems >= 1 {
      assert r[1..] == ([entry] + history)[1..|r|];
    }
  }

  /** A negative limit counts from the end, as `splice` does: `-k` drops the last `k` entries. */
  lemma PrependBoundedNegative(history: seq<HistoryEntry>, entry: HistoryEntry, maxItems: int)
    requires maxItems < 0
    ensures |PrependBounded(history, entry, maxItems)| == if |history| + 1 + maxItems > 0 then |history| + 1 + maxItems else 0
  {
  }

  /** At the limit, saving evicts the oldest entry and keeps the others in order. */
  lemma SaveAtLimitEvictsOldest(history: seq<HistoryEntry>, entry: HistoryEntry)
    requires |history| >= 1
    ensures PrependBounded(history, entry, |history|) == [entry] + history[..|history| - 1]
  {
    var r := PrependBounded(history, entry, |history|);
    PrependBoundedShape(history, entry, |history|);
    assert r == [entry] + r[1..];
  }

  /** The test of `history.filter(item => item.id !== historyId)`. */
  function IdIsNot(id: string): HistoryEntry -> bool {
    (e: HistoryEntry) => e.id != id
  }

  /** The list `removeHistoryItem(id)` stores: no entry with that id is left. */
  function RemoveId(history: seq<HistoryEntry>, id: string): (r: seq<HistoryEntry>)
    ensures |r| <= |history|
    ensures forall e | e in r :: e.id != id
  {
    Sequences.Filter(history, IdIsNot(id))
  }

  /** Removal drops exactly the entries with that id and keeps every other entry, as often as the
      list holds it and in its order. */
  lemma RemoveIdSpec(history: seq<HistoryEntry>, id: string)
    ensures forall e :: e in RemoveId(history, id) <==> e in history && e.id != id
    ensures forall e :: multiset(RemoveId(history, id))[e] == if e.id != id then multiset(history)[e] else 0
    ensures Sequences.IsSubsequence(RemoveId(history, id), history)
  {
    Sequences.FilterIsSubsequence(history, IdIsNot(id));
    Sequences.FilterCount(history, IdIsNot(id));
  }

  /** Removing an id that is not in the list changes nothing, so removing twice is removing once. */
  lemma RemoveIdIdempotent(history: seq<HistoryEntry>, id: string)
    ensures (forall i | 0 <= i < |history| :: history[i].id != id) ==> RemoveId(history, id) == history
    ensures RemoveId(RemoveId(history, id), id) == RemoveId(history, id)
  {
    if forall i | 0 <= i < |history| :: history[i].id != id {
      Sequences.FilterKeepsAll(history, IdIsNot(id));
    }
    Sequences.FilterIdempotent(history, IdIsNot(id));
  }

  /** After `clearHistory`, reading the history gives the empty list. */
  lemma ClearedHistoryReadsEmpty(data: map<string, Value>)
    ensures StoredHistory(data - {HistoryKey}) == []
  {
  }

  /** The state of one `useStorage` hook over a store. */
  class StorageHook {
    const store: PlatformStore
    var settings: Settings
    var loading: bool
    var error: Option<string>

    constructor(store: PlatformStore)
      ensures this.store == store && settings == DefaultSettings && loading && error == None
    {
      this.store := store;
      settings := DefaultSettings;
      loading := true;
      error := None;
    }

    /** `loadSettings`, run when the hook mounts. */
    method LoadSettings()
      modifies this
      ensures store.readError.None? ==> settings == SettingsFrom(store.data) && error == None
      ensures store.readError.Some? ==> settings == old(settings) && error == Some(LoadSettingsError)
      ensures !loading
    {
      loading := true;
      error := None;
      var apiKey := store.Get(ApiKeyKey);
      var theme := store.Get(ThemeKey);
      var fontSize := store.Get(FontSizeKey);
      var languageMode := store.Get(LanguageModeKey);
      var maxHistoryItems := store.Get(MaxHistoryItemsKey);
      if apiKey.Err? || theme.Err? || fontSize.Err? || languageMode.Err? || maxHistoryItems.Err? {
        error := Some(LoadSettingsError);
      } else {
        settings := Settings(
          TextOr(apiKey.value, DefaultSettings.apiKey),
          TextOr(theme.value, DefaultSettings.theme),
          NumberOr(fontSize.value, DefaultSettings.fontSize),
          TextOr(languageMode.value, DefaultSettings.languageMode),
          NumberOr(maxHistoryItems.value, DefaultSettings.maxHistoryItems));
      }
      loading := false;
    }

    /** The shared body of the single-field updates: write one key, report the error on failure. */
    method WriteSetting(key: string, value: Value, failureMessage: string) returns (thrown: Option<string>)
      modifies this, store
      ensures thrown == store.writeError
      ensures store.data == if thrown.None? then old(store.data)[key := value] else old(store.data)
      ensures settings == old(settings) && !loading
      ensures error == if thrown.None? then old(error) else Some(failureMessage)
    {
      loading := true;
      thrown := store.Save(key, value);
      if thrown.Some? {
        error := Some(failureMessage);
      }
      loading := false;
    }

    /** `updateApiKey(newApiKey)`: on success only the `apiKey` key and field change; on failure
        nothing changes but the error, and the store's error is re-raised. */
    method UpdateApiKey(newApiKey: string) returns (thrown: Option<string>)
      modifies this, store
      ensures thrown == store.writeError
      ensures store.data == if thrown.None? then old(store.data)[ApiKeyKey := Text(newApiKey)] else old(store.data)
      ensures settings == if thrown.None? then old(settings).(apiKey := newApiKey) else old(settings)
      ensures error == (if thrown.None? then old(error) else Some(ApiKeySaveError)) && !loading
    {
      thrown := WriteSetting(ApiKeyKey, Text(newApiKey), ApiKeySaveError);
      if thrown.None? {
        settings := settings.(apiKey := newApiKey);
      }
    }

    /** `updateTheme(newTheme)`. */
    method UpdateTheme(newTheme: string) returns (thrown: Option<string>)
      modifies this, store
      ensures thrown == store.writeError
      ensures store.data == if thrown.None? then old(store.data)[ThemeKey := Text(newTheme)] else old(store.data)
      ensures settings == if thrown.None? then old(settings).(theme := newTheme) else old(settings)
      ensures error == (if thrown.None? then old(error) else Some(ThemeSaveError)) && !loading
    {
      thrown := WriteSetting(ThemeKey, Text(newTheme), ThemeSaveError);
      if thrown.None? {
        settings := settings.(theme := newTheme);
      }
    }

    /** `updateFontSize(newFontSize)`. */
    method UpdateFontSize(newFontSize: int) returns (thrown: Option<string>)
      modifies this, store
      ensures thrown == store.writeError
      ensures store.data == if thrown.None? then old(store.data)[FontSizeKey := Number(newFontSize)] else old(store.data)
      ensures settings == if thrown.None? then old(settings).(fontSize := newFontSize) else old(settings)
      ensures error == (if thrown.None? then old(error) else Some(FontSizeSaveError)) && !loading
    {
      thrown := WriteSetting(FontSizeKey, Number(newFontSize), FontSizeSaveError);
      if thrown.None? {
        settings := settings.(fontSize := newFontSize);
      }
    }

    /** `updateLanguageMode(newLanguageMode)`. */
    method UpdateLanguageMode(newLanguageMode: string) returns (thrown: Option<string>)
      modifies this, store
      ensures thrown == store.writeError
      ensures store.data == if thrown.None? then old(store.data)[LanguageModeKey := Text(newLanguageMode)] else old(store.data)
      ensures settings == if thrown.None? then old(settings).(languageMode := newLanguageMode) else old(settings)
      ensures error == (if thrown.None? then old(error) else Some(LanguageModeSaveError)) && !loading
    {
      thrown := WriteSetting(LanguageModeKey, Text(newLanguageMode), LanguageModeSaveError);
      if thrown.None? {
        settings := settings.(languageMode := newLanguageMode);
      }
    }

    /** `updateMaxHistoryItems(newMaxHistoryItems)`. */
    method UpdateMaxHistoryItems(newMaxHistoryItems: int) returns (thrown: Option<string>)
      modifies this, store
      ensures thrown == store.writeError
      ensures store.data == if thrown.None? then old(store.data)[MaxHistoryItemsKey := Number(newMaxHistoryItems)] else old(store.data)
      ensures settings == if thrown.None? then old(settings).(maxHistoryItems := newMaxHistoryItems) else old(settings)
      ensures error == (if thrown.None? then old(error) else Some(MaxHistoryItemsSaveError)) && !loading
    {
      thrown := WriteSetting(MaxHistoryItemsKey, Number(newMaxHistoryItems), MaxHistoryItemsSaveError);
      if thrown.None? {
        settings := settings.(maxHistoryItems := newMaxHistoryItems);
      }
    }

    /** The writes of `updateAllSettings`, one after another; the first failing write throws, and
        a failing store fails on every write, so it then keeps its contents. */
    method WriteAll(writes: seq<(string, Value)>) returns (thrown: Option<string>)
      modifies store
      ensures thrown == if writes == [] then None else store.writeError
      ensures store.data == if thrown.None? then WriteEntries(old(store.data), writes) else old(store.data)
    {
      thrown := None;
      var i := 0;
      while i < |writes| && thrown.None?
        invariant 0 <= i <= |writes|
        invariant store.writeError.None? ==> thrown.None? && store.data == WriteEntries(old(store.data), writes[..i])
        invariant store.writeError.Some? ==> store.data == old(store.data) && thrown == (if i == 0 then None else store.writeError)
        decreases |writes| - i
      {
        assert writes[..i + 1][..i] == writes[..i];
        thrown := store.Save(writes[i].0, writes[i].1);
        i := i + 1;
      }
      assert writes[..|writes|] == writes;
    }

    /** `updateAllSettings(newSettings)`: writes the defined fields one after another and merges them
        into the mirror. A failing store throws on the first write, so nothing is written; a patch
        with nothing defined makes no write and cannot fail. */
    method UpdateAllSettings(p: SettingsPatch) returns (thrown: Option<string>)
      modifies this, store
      ensures thrown == if PatchEntries(p) == [] then None else store.writeError
      ensures store.data == if thrown.None? then WriteEntries(old(store.data), PatchEntries(p)) else old(store.data)
      ensures settings == if thrown.None? then Merge(old(settings), p) else old(settings)
      ensures error == (if thrown.None? then old(error) else Some(AllSettingsSaveError)) && !loading
    {
      loading := true;
      thrown := WriteAll(PatchEntries(p));
      if thrown.None? {
        settings := Merge(settings, p);
      } else {
        error := Some(AllSettingsSaveError);
      }
      loading := false;
    }

    /** `saveHistoryItem(item)` with the id and timestamp it stamps passed in: prepends the entry to
        the stored list, cut to the mirror's history limit. A failing read or write stores nothing. */
    method SaveHistoryItem(item: HistoryFields, id: string, timestamp: string) returns (thrown: Option<string>)
      modifies this, store
      ensures thrown == if store.readError.Some? then store.readError else store.writeError
      ensures store.data == if thrown.None?
        then old(store.data)[HistoryKey := Entries(PrependBounded(StoredHistory(old(store.data)), HistoryEntry(id, timestamp, item), settings.maxHistoryItems))]
        else old(store.data)
      ensures settings == old(settings) && loading == old(loading)
      ensures error == if thrown.None? then old(error) else Some(HistorySaveError)
    {
      var read := store.Get(HistoryKey);
      if read.Err? {
        thrown := Some(read.message);
        error := Some(HistorySaveError);
        return;
      }
      var history := match read.value case Some(Entries(es)) => es case _ => [];
      var newHistory := [HistoryEntry(id, timestamp, item)] + history;
      if |newHistory| > settings.maxHistoryItems {
        newHistory := newHistory[..SpliceStart(|newHistory|, settings.maxHistoryItems)];
      }
      thrown := store.Save(HistoryKey, Entries(newHistory));
      if thrown.Some? {
        error := Some(HistorySaveError);
      }
    }

    /** `getHistory()`: the stored list, `[]` when there is none. */
    method GetHistory() returns (r: Result<seq<HistoryEntry>>)
      modifies this
      ensures store.readError.None? ==> r == Ok(StoredHistory(store.data)) && error == old(error)
      ensures store.readError.Some? ==> r == Err(store.readError.value) && error == Some(HistoryReadError)
      ensures settings == old(settings) && loading == old(loading)
    {
      var read := store.Get(HistoryKey);
      match read
      case Err(m) =>
        error := Some(HistoryReadError);
        r := Err(m);
      case Ok(v) =>
        r := Ok(match v case Some(Entries(es)) => es case _ => []);
    }

    /** `removeHistoryItem(historyId)`: stores the list without the entries of that id. */
    method RemoveHistoryItem(historyId: string) returns (thrown: Option<string>)
      modifies this, store
      ensures thrown == if store.readError.Some? then store.readError else store.writeError
      ensures store.data == if thrown.None?
        then old(store.data)[HistoryKey := Entries(RemoveId(StoredHistory(old(store.data)), historyId))]
        else old(store.data)
      ensures settings == old(settings) && loading == old(loading)
      ensures error == if thrown.None? then old(error) else Some(HistoryRemoveError)
    {
      var read := store.Get(HistoryKey);
      if read.Err? {
        thrown := Some(read.message);
        error := Some(HistoryRemoveError);
        return;
      }
      var history := match read.value case Some(Entries(es)) => es case _ => [];
      thrown := store.Save(HistoryKey, Entries(RemoveId(history, historyId)));
      if thrown.Some? {
        error := Some(HistoryRemoveError);
      }
    }

    /** `clearHistory()`: removes the `history` key. */
    method ClearHistory() returns (thrown: Option<string>)
      modifies this, store
      ensures thrown == store.writeError
      ensures store.data == if thrown.None? then old(store.data) - {HistoryKey} else old(store.data)
      ensures settings == old(settings) && loading == old(loading)
      ensures error == if thrown.None? then old(error) else Some(HistoryClearError)
    {
      thrown := store.Remove(HistoryKey);
      if thrown.Some? {
        error := Some(HistoryClearError);
      }
    }

    /** `clearError()`. */
    method ClearError()
      modifies this
      ensures error == None && settings == old(settings) && loading == old(loading)
    {
      error := None;
    }
  }
}
