/**
 * `SettingsManager`: resolves settings from the package configuration or
 * from the `atu_multicurrency_settings` table, depending on the
 * `settings_source` configuration value, read afresh on every call.
 */
module SettingsManager {
  import opened Wrappers
  import opened SettingModel

  /** The package configuration (`config('atu-multi-currency.*')`), by top-level key. */
  type Config = map<string, Value>

  /** `config("atu-multi-currency.$key", $default)`. */
  function ConfigGet(cfg: Config, key: string, default: Value): Value {
    if key in cfg then cfg[key] else default
  }

  /** The `conversion` block the file source falls back to. */
  const DefaultConversion: Value := Array([
    Entry("apply_fees", Bool(true)),
    Entry("log_conversions", Bool(true)),
    Entry("round_precision", Int(2))])

  /** `isDatabaseSource()`: the source is `'database'`; when unset it is `'file'`. */
  predicate IsDatabaseSource(cfg: Config)
    ensures IsDatabaseSource(cfg) ==> "settings_source" in cfg
  {
    ConfigGet(cfg, "settings_source", Str("file")) == Str("database")
  }

  /** Only the exact string 'database' selects the table; an unset source reads the file. */
  lemma DatabaseSourceExactly(cfg: Config)
    ensures IsDatabaseSource(cfg) <==> "settings_source" in cfg && cfg["settings_source"] == Str("database")
    ensures "settings_source" !in cfg ==> !IsDatabaseSource(cfg)
  {
  }

  /** The settings table: each key at most once (the column is unique), each value nullable text. */
  class SettingsTable {
    var rows: map<string, Option<string>>

    constructor (rows: map<string, Option<string>>)
      ensures this.rows == rows
    {
      this.rows := rows;
    }

    /** `updateOrInsert(['key' => key], ['value' => value])`. */
    method Upsert(key: string, value: Option<string>)
      modifies this
      ensures rows == old(rows)[key := value]
    {
      rows := rows[key := value];
    }
  }

  /**
   * `getSetting($key, $default)`: in database mode a row with a non-NULL
   * value gives its decoded value; otherwise the configuration value or the
   * default.
   */
  function GetSetting(cfg: Config, rows: map<string, Option<string>>, codec: JsonCodec, key: string, default: Value): (r: Value)
    ensures key !in rows ==> r == ConfigGet(cfg, key, default)
    ensures r == ConfigGet(cfg, key, default) || (IsDatabaseSource(cfg) && key in rows && r == Decoded(codec, rows[key]))
  {
    if IsDatabaseSource(cfg) && key in rows && rows[key].Some? then
      DecodeText(codec, rows[key].value)
    else
      ConfigGet(cfg, key, default)
  }

  /**
   * `setSetting($key, $value)`: refused outside database mode; otherwise the
   * value (JSON-encoded if it is an array) is upserted under `key`. A storage
   * exception on the upsert is reported as `false`.
   */
  method SetSetting(cfg: Config, table: SettingsTable, codec: JsonCodec, key: string, value: Value, fault: StorageFault)
    returns (ok: bool)
    modifies table
    ensures ok <==> IsDatabaseSource(cfg) && !Throws(fault, 0)
    ensures ok ==> table.rows == old(table.rows)[key := StoredForm(codec, value)]
    ensures !ok ==> table.rows == old(table.rows)
  {
    if !IsDatabaseSource(cfg) {
      return false;
    }
    var stored := StoredForm(codec, value);
    if Throws(fault, 0) {
      return false;
    }
    table.Upsert(key, stored);
    ok := true;
  }

  /** After a successful write of an array in database mode, reading the key gives the array back. */
  lemma SetThenGetArray(cfg: Config, rows: map<string, Option<string>>, codec: JsonCodec, key: string, v: Value, default: Value)
    requires IsDatabaseSource(cfg) && Lawful(codec) && v.Array?
    ensures GetSetting(cfg, rows[key := StoredForm(codec, v)], codec, key, default) == v
  {
    ArrayRoundTrip(codec, v);
  }

  /**
   * After a successful write of a string in database mode, reading the key
   * gives the string back unless the string is itself valid JSON, in which
   * case it comes back decoded.
   */
  lemma SetThenGetString(cfg: Config, rows: map<string, Option<string>>, codec: JsonCodec, key: string, s: string, default: Value)
    requires IsDatabaseSource(cfg)
    ensures codec.decode(s).None? ==> GetSetting(cfg, rows[key := StoredForm(codec, Str(s))], codec, key, default) == Str(s)
    ensures codec.decode(s).Some? ==> GetSetting(cfg, rows[key := StoredForm(codec, Str(s))], codec, key, default) == codec.decode(s).value
  {
  }

  /** Writing `null` stores NULL, so reading the key falls back to the configuration. */
  lemma SetNullThenGetFallsBack(cfg: Config, rows: map<string, Option<string>>, codec: JsonCodec, key: string, default: Value)
    ensures GetSetting(cfg, rows[key := StoredForm(codec, Null)], codec, key, default) == ConfigGet(cfg, key, default)
  {
  }

  /** A write to one key leaves every other key's reading as it was. */
  lemma SetLeavesOtherKeys(cfg: Config, rows: map<string, Option<string>>, codec: JsonCodec, key: string, v: Value, other: string, default: Value)
    requires other != key
    ensures GetSetting(cfg, rows[key := StoredForm(codec, v)], codec, other, default) == GetSetting(cfg, rows, codec, other, default)
  {
  }

  /** In file mode every reading comes from the configuration, whatever the table holds. */
  lemma FileModeReadsConfig(cfg: Config, rows: map<string, Option<string>>, codec: JsonCodec, key: string, default: Value)
    requires !IsDatabaseSource(cfg)
    ensures GetSetting(cfg, rows, codec, key, default) == ConfigGet(cfg, key, default)
  {
  }

  /** What `getAllSettings()` returns in file mode. */
  function FileSettings(cfg: Config): map<string, Value> {
    map["default_currency" := ConfigGet(cfg, "default_currency", Str("USD")),
        "conversion" := ConfigGet(cfg, "conversion", DefaultConversion)]
  }

  /**
   * `getAllSettings()`: in database mode every stored key mapped to its
   * decoded-or-raw value (a NULL value stays null: decoding it fails and the
   * raw NULL is kept); otherwise exactly `default_currency` and `conversion`
   * from the configuration.
   */
  method GetAllSettings(cfg: Config, table: SettingsTable, codec: JsonCodec) returns (result: map<string, Value>)
    ensures IsDatabaseSource(cfg) ==> result.Keys == table.rows.Keys
    ensures IsDatabaseSource(cfg) ==> forall k :: k in result ==> result[k] == Decoded(codec, table.rows[k])
    ensures !IsDatabaseSource(cfg) ==> result.Keys == {"default_currency", "conversion"}
    ensures !IsDatabaseSource(cfg) ==> result["default_currency"] == ConfigGet(cfg, "default_currency", Str("USD"))
    ensures !IsDatabaseSource(cfg) ==> result["conversion"] == ConfigGet(cfg, "conversion", DefaultConversion)
  {
    if IsDatabaseSource(cfg) {
      var rows := table.rows;
      var pending := rows.Keys;
      result := map[];
      while pending != {}
        invariant pending <= rows.Keys
        invariant result.Keys == rows.Keys - pending
        invariant forall k :: k in result ==> result[k] == Decoded(codec, rows[k])
        decreases pending
      {
        var k :| k in pending;
        result := result[k := Decoded(codec, rows[k])];
        pending := pending - {k};
      }
      return;
    }
    result := FileSettings(cfg);
  }

  /** In database mode, `getAllSettings()` agrees with `getSetting()` on every stored key whose value is not NULL. */
  lemma AllSettingsAgreeWithGet(cfg: Config, rows: map<string, Option<string>>, codec: JsonCodec, key: string, default: Value)
    requires IsDatabaseSource(cfg) && key in rows && rows[key].Some?
    ensures Decoded(codec, rows[key]) == GetSetting(cfg, rows, codec, key, default)
  {
  }
}
