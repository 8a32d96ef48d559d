/**
 * `ConfigManager`: a small key-value table of settings kept over one browser
 * storage slot, and the checks the settings dialog applies before saving.
 * The storage slot is a field; what a JSON write and read does to the values
 * is `Values.RereadTable`.
 */
module Config {
  import opened Wrappers
  import opened Values
  import opened Text

  /** The built-in settings. */
  const Defaults: map<string, Value> := map[
    "serverUrl" := Str("http://localhost:11434"),
    "temperature" := Number(0.7),
    "maxTokens" := Number(32768.0),
    "autoSave" := Bool(true)]

  /** The storage slot `llm-prompt-tester-config`: absent, a saved table, or text
      that does not parse (or cannot be read). */
  datatype Slot = Empty | Stored(saved: map<string, Value>) | Unreadable

  /** `loadConfig`: the defaults overridden key by key by the saved table; exactly the
      defaults when nothing is saved or the slot does not parse. */
  function LoadConfig(slot: Slot): (c: map<string, Value>)
    ensures Defaults.Keys <= c.Keys
    ensures slot.Stored? ==> c.Keys == Defaults.Keys + slot.saved.Keys
    ensures slot.Stored? ==> forall k :: k in slot.saved ==> c[k] == slot.saved[k]
    ensures forall k :: k in Defaults && (slot.Stored? ==> k !in slot.saved) ==> c[k] == Defaults[k]
    ensures !slot.Stored? ==> c == Defaults
  {
    if slot.Stored? then Defaults + slot.saved else Defaults
  }

  /** `this.config.autoSave` is truthy. */
  predicate AutoSaveOn(config: map<string, Value>) {
    "autoSave" in config && Truthy(config["autoSave"])
  }

  /** Reading back a saved table that covers every default key and holds no NaN
      gives exactly that table: saving the whole configuration loses nothing. */
  lemma ReloadRestoresConfig(c: map<string, Value>)
    requires Defaults.Keys <= c.Keys && NoNaN(c)
    ensures LoadConfig(Stored(RereadTable(c))) == c
  {
    RereadTableIdentity(c);
    assert (Defaults + c).Keys == c.Keys;
  }

  /** As written, `saveConfig(newConfig)` stores only `newConfig`: a setting that is in
      the live configuration but not in `newConfig` comes back from storage as its
      default, not as the value the user chose. */
  lemma PartialSaveForgetsKeys(config: map<string, Value>, newConfig: map<string, Value>, key: string)
    requires key in Defaults && key in config && key !in newConfig && config[key] != Defaults[key]
    ensures LoadConfig(Stored(RereadTable(newConfig)))[key] == Defaults[key]
    ensures (config + newConfig)[key] == config[key] != Defaults[key]
  {
  }

  class ConfigManager {
    var config: map<string, Value>
    var storage: Slot

    /** Every default key is present, so `get` of a built-in setting never yields undefined. */
    ghost predicate Valid()
      reads this
    {
      Defaults.Keys <= config.Keys
    }

    constructor (storage: Slot)
      ensures Valid()
      ensures this.storage == storage && config == LoadConfig(storage)
    {
      this.storage := storage;
      config := LoadConfig(storage);
    }

    /** `get(key)`: the value, or None for `undefined`. */
    function Get(key: string): (v: Option<Value>)
      reads this
      ensures v.Some? <==> key in config
      ensures v.Some? ==> v.value == config[key]
    {
      if key in config then Some(config[key]) else None
    }

    /** `set(key, value)`: updates that key only, then persists the whole table when
      `autoSave` (as it stands after the update) is truthy. A storage write that
      throws (`quotaExceeded`) is caught and leaves the slot as it was. */
    method Set(key: string, value: Value, quotaExceeded: bool)
      requires Valid()
      modifies this
      ensures Valid()
      ensures config == old(config)[key := value]
      ensures storage == if AutoSaveOn(config) && !quotaExceeded then Stored(RereadTable(config)) else old(storage)
    {
      config := config[key := value];
      if AutoSaveOn(config) {
        SaveConfig(None, quotaExceeded);
      }
    }

    /** `saveConfig(newConfig)` as written: stores `newConfig` (or the live table when
      there is none) and then merges `newConfig` into the live table. When the write
      throws, the error is caught before the merge, so nothing changes. */
    method SaveConfig(newConfig: Option<map<string, Value>>, quotaExceeded: bool)
      requires Valid()
      modifies this
      ensures Valid()
      ensures quotaExceeded ==> config == old(config) && storage == old(storage)
      ensures !quotaExceeded ==> storage == Stored(RereadTable(newConfig.GetOr(old(config))))
      ensures !quotaExceeded ==> config == old(config) + newConfig.GetOr(map[])
    {
      if !quotaExceeded {
        var toSave := newConfig.GetOr(config);
        storage := Stored(RereadTable(toSave));
        if newConfig.Some? {
          config := config + newConfig.value;
        }
      }
    }

    /** `saveConfig(newConfig)` corrected: merge first, then store the merged table,
      so that what is stored is what is live. */
    method SaveConfigMerged(newConfig: Option<map<string, Value>>, quotaExceeded: bool)
      requires Valid()
      modifies this
      ensures Valid()
      ensures quotaExceeded ==> config == old(config) && storage == old(storage)
      ensures !quotaExceeded ==> config == old(config) + newConfig.GetOr(map[])
      ensures !quotaExceeded ==> storage == Stored(RereadTable(config))
    {
      if !quotaExceeded {
        config := config + newConfig.GetOr(map[]);
        storage := Stored(RereadTable(config));
      }
    }

    /** `reset`: back to the defaults, and the storage slot is removed. */
    method Reset()
      modifies this
      ensures Valid()
      ensures config == Defaults && storage == Empty
    {
      config := Defaults;
      storage := Empty;
    }
  }

  // ----- The settings dialog -----

  /** What `parseInt` returns: an integer or NaN. */
  datatype ParsedInt = Int(n: int) | NotANumber

  function AsValue(p: ParsedInt): (v: Value)
    ensures p.Int? ==> v == Number(p.n as real)
    ensures p.NotANumber? ==> v == NaN
  {
    if p.Int? then Number(p.n as real) else NaN
  }

  /** JavaScript `p < bound` and `p > bound`: every comparison with NaN is false. */
  predicate LessThan(p: ParsedInt, bound: int) { p.Int? && p.n < bound }
  predicate GreaterThan(p: ParsedInt, bound: int) { p.Int? && p.n > bound }

  datatype SettingsError = InvalidUrl | MaxTokensOutOfRange

  /** The table `saveSettings` passes to `saveConfig`: the dialog's three settings, and
      no temperature. */
  function SettingsTable(serverUrl: string, maxTokens: ParsedInt, autoSave: bool): (t: map<string, Value>)
    ensures t.Keys == {"serverUrl", "maxTokens", "autoSave"} && "temperature" !in t
    ensures t["serverUrl"] == Str(serverUrl) && t["maxTokens"] == AsValue(maxTokens) && t["autoSave"] == Bool(autoSave)
  {
    map["serverUrl" := Str(serverUrl), "maxTokens" := AsValue(maxTokens), "autoSave" := Bool(autoSave)]
  }

  /** The checks of `saveSettings` as written: the trimmed URL must parse (`new URL`),
      then `maxTokens < 100 || maxTokens > 131072` refuses the value. */
  function ValidateSettings(rawUrl: string, urlParses: string -> bool, maxTokens: ParsedInt, autoSave: bool)
    : (r: Result<map<string, Value>, SettingsError>)
    ensures r == Err(InvalidUrl) <==> !urlParses(Trim(rawUrl))
    ensures r == Err(MaxTokensOutOfRange)
            <==> urlParses(Trim(rawUrl)) && maxTokens.Int? && !(100 <= maxTokens.n <= 131072)
    ensures r.Ok? ==> r.value == SettingsTable(Trim(rawUrl), maxTokens, autoSave)
  {
    var url := Trim(rawUrl);
    if !urlParses(url) then Err(InvalidUrl)
    else if LessThan(maxTokens, 100) || GreaterThan(maxTokens, 131072) then Err(MaxTokensOutOfRange)
    else Ok(SettingsTable(url, maxTokens, autoSave))
  }

  /** As written, an unparsable token limit (an empty field gives NaN) passes the range
      check; it is stored as `null`, so the limit silently disappears. */
  lemma NaNPassesRangeCheck(rawUrl: string, urlParses: string -> bool, autoSave: bool)
    requires urlParses(Trim(rawUrl))
    ensures var r := ValidateSettings(rawUrl, urlParses, NotANumber, autoSave);
            r.Ok? && r.value["maxTokens"] == NaN && RereadTable(r.value)["maxTokens"] == Null
  {
  }

  /** The range check as intended: only an integer from 100 to 131072 is accepted. */
  function ValidateSettingsStrict(rawUrl: string, urlParses: string -> bool, maxTokens: ParsedInt, autoSave: bool)
    : (r: Result<map<string, Value>, SettingsError>)
    ensures r == Err(InvalidUrl) <==> !urlParses(Trim(rawUrl))
    ensures r == Err(MaxTokensOutOfRange)
            <==> urlParses(Trim(rawUrl)) && !(maxTokens.Int? && 100 <= maxTokens.n <= 131072)
    ensures r.Ok? ==> r.value == SettingsTable(Trim(rawUrl), maxTokens, autoSave)
    ensures r.Ok? ==> NoNaN(r.value) && r.value["maxTokens"] == Number(maxTokens.n as real)
  {
    var url := Trim(rawUrl);
    if !urlParses(url) then Err(InvalidUrl)
    else if !(maxTokens.Int? && 100 <= maxTokens.n <= 131072) then Err(MaxTokensOutOfRange)
    else
      SettingsTableHasNoNaN(url, maxTokens.n, autoSave);
      Ok(SettingsTable(url, maxTokens, autoSave))
  }

  lemma SettingsTableHasNoNaN(serverUrl: string, n: int, autoSave: bool)
    ensures NoNaN(SettingsTable(serverUrl, Int(n), autoSave))
  {
    var m := SettingsTable(serverUrl, Int(n), autoSave);
    forall k | k in m ensures m[k] != NaN {
      assert k == "serverUrl" || k == "maxTokens" || k == "autoSave";
    }
  }

  /** `saveSettings` as written: the range check that NaN passes, then `saveConfig` with
      the dialog's table, which is all that is stored. A refused dialog changes nothing.
      Whatever temperature was live, the stored table reloads with the default one. */
  method SaveSettings(cm: ConfigManager, rawUrl: string, urlParses: string -> bool, maxTokens: ParsedInt,
                      autoSave: bool, quotaExceeded: bool)
    returns (r: Result<map<string, Value>, SettingsError>)
    requires cm.Valid()
    modifies cm
    ensures cm.Valid()
    ensures r == ValidateSettings(rawUrl, urlParses, maxTokens, autoSave)
    ensures r.Err? || quotaExceeded ==> cm.config == old(cm.config) && cm.storage == old(cm.storage)
    ensures r.Ok? && !quotaExceeded ==> cm.config == old(cm.config) + r.value && cm.storage == Stored(RereadTable(r.value))
    ensures r.Ok? && !quotaExceeded ==> LoadConfig(cm.storage)["temperature"] == Defaults["temperature"]
  {
    r := ValidateSettings(rawUrl, urlParses, maxTokens, autoSave);
    if r.Ok? {
      cm.SaveConfig(Some(r.value), quotaExceeded);
    }
  }

  /** `saveSettings` with both corrections: the strict range check, and the merged
      table is what is stored. A refused dialog changes nothing. */
  method SaveSettingsCorrected(cm: ConfigManager, rawUrl: string, urlParses: string -> bool, maxTokens: ParsedInt,
                               autoSave: bool, quotaExceeded: bool)
    returns (r: Result<map<string, Value>, SettingsError>)
    requires cm.Valid()
    modifies cm
    ensures cm.Valid()
    ensures r == ValidateSettingsStrict(rawUrl, urlParses, maxTokens, autoSave)
    ensures r.Err? || quotaExceeded ==> cm.config == old(cm.config) && cm.storage == old(cm.storage)
    ensures r.Ok? && !quotaExceeded ==> cm.config == old(cm.config) + r.value && cm.storage == Stored(RereadTable(cm.config))
    ensures r.Ok? && !quotaExceeded && NoNaN(old(cm.config)) ==> LoadConfig(cm.storage) == cm.config
  {
    r := ValidateSettingsStrict(rawUrl, urlParses, maxTokens, autoSave);
    if r.Ok? {
      cm.SaveConfigMerged(Some(r.value), quotaExceeded);
      if !quotaExceeded && NoNaN(old(cm.config)) {
        ReloadRestoresConfig(cm.config);
      }
    }
  }
}
