# ATU Multi-Currency: a verified model of the store, settings and sync core

This Dafny project models the stateful core of the ATU Multi-Currency Laravel plugin. The plugin keeps a
table of currencies with one base ("default") currency. It keeps that default in step with an external
commerce settings table (`a2_ec_settings`), and it resolves its own settings from the package configuration
or from a settings table.

| file | module | models |
|---|---|---|
| `wrappers.dfy` | `Wrappers`, `Collections` | `Option` (PHP `null`), the storage-fault parameter, order-keeping `Filter` |
| `php_strings.dfy` | `PhpStrings` | PHP `trim`, `empty`, truthiness, ASCII `strtoupper`, `strlen` as UTF-8 byte length, substring search |
| `currency.dfy` | `CurrencyModel` | the `Currency` row, the query scopes, the two log relations, the currencies table class with insert, update and cascading delete |
| `setting.dfy` | `SettingModel` | the `Setting` model's value codec (arrays as JSON, scalars as given) |
| `settings_manager.dfy` | `SettingsManager` | `getSetting`, `setSetting`, `getAllSettings`, `isDatabaseSource` |
| `currency_sync.dfy` | `CurrencySync` | `CurrencySyncService`: push, pull and `syncBoth` guarded by the `syncing` flag |
| `currency_create.dfy` | `CurrencyCreate` | the create form's `save()`: fallback, checks, default election, insert, push |
| `currency_index.dfy` | `CurrencyIndex` | the list component's `toggleRow`, search filter, `toggleActive`, `delete` |
| `seeder.dfy` | `CurrencySeeder` | the seeder that creates the base currency once |

## How the model is built

- **Databases are plain values.**
  - The currencies table is a `seq<Currency>` in primary-key order, held by the class `CurrencyTable` together with the next key and the two log tables.
  - The external settings table is the class `ExternalSettings`: a flag saying whether the table exists, plus a `map<string, string>`. A NULL value is an absent key.
  - The plugin's settings table is the class `SettingsTable`: a map from key to a nullable text value.
- **Decimal columns are scaled integers.** A rate counts units of 10^-8 (`decimal:8`) and a fee counts units of 10^-4 (`decimal:4`). So a rate of 1.0 is `RateScale = 100_000_000`.
- **Failing writes are a parameter.** A database exception is modelled by a `StorageFault` argument. `FailsAtWrite(n)` makes the n-th write of the operation throw, counting from 0.
- **Operations that change state are methods on classes.** Each is proved against a function that gives its outcome and new state (`PushEffect`, `PullEffect`, `SyncBothEffect`, `ToggleActiveEffect`, `DeleteEffect`, `Fallback`, `CorrectedCreateRejection`, `NewCurrency`, `SeedSource`).
- **Lemmas state the promised properties about those functions.** These cover refusals, "nothing else changes", idempotence, round trips, and the default-currency rule.
- **The default-currency rule** (`DefaultRule`): at most one row is the default. The default is active and has rate exactly 1. A non-empty table has a default. Create, toggle, delete, pull and the seeder all preserve it.
- **JSON is abstract.** `JsonCodec` is a pair of functions, and `Lawful` requires that decoding an encoded array gives the array back. No real JSON parser is modelled.
- **The process-wide static `$syncing` flag** is a field of `CurrencySyncService`. Each method's contract says that the flag leaves the call as it entered, whichever path the call takes (early return, success, or caught exception).

### A symbol on its own does not create a currency

A form with an empty code and the symbol `$` creates nothing:
- the fallback copies `$` into the code;
- `strlen(trim('$'))` is 1, so the length check at `create.blade.php:78-84` refuses the form.

`CurrencyCreate.DollarAloneRejected` states this.

## Model

| member | source | states |
|---|---|---|
| CurrencyModel.Where | src/Models/Currency.php:74-110 | a scope keeps exactly the rows whose `is_active` / `is_default` / `is_auto` / `!is_auto` column satisfies it |
| CurrencyModel.Query | src/Models/Currency.php:74-110 | a chain of scopes returns no more rows than it was given, and only rows it was given |
| CurrencyModel.QueryKeepsExactlyMatching | src/Models/Currency.php:74-110 | a chain of scopes keeps exactly the rows that satisfy every scope in the chain |
| CurrencyModel.AutoManualPartition | src/Models/Currency.php:96-110 | `auto` and `manual` are disjoint and together make up every row (as a multiset) |
| CurrencyModel.RatesLogOf | src/Models/Currency.php:53-56 | `ratesLog` selects exactly the rate-history rows whose `currency_id` is the currency's id |
| CurrencyModel.ConversionLogsOf | src/Models/Currency.php:63-66 | `conversionLogs` selects exactly the audit rows whose `currency_id` is the currency's id |
| CurrencyModel.FirstDefaultIndex | src/Support/CurrencySyncService.php:213-229 | `where('is_default', true)->first()` is absent iff no row is default; otherwise it is the earliest default row |
| CurrencyModel.FirstDefault | src/Support/CurrencySyncService.php:213-229 | `getDefaultCurrency()` is null iff no row is default; otherwise it returns a default row of the table, and the only one when there is a single default |
| CurrencyModel.IndexOfId | src/stubs/resources/views/livewire/admin/atu/currencies/index.blade.php:59 | the lookup by id is absent iff no row has that id; otherwise the position it gives holds that id |
| CurrencyModel.DefaultRuleGivesOneDefaultId | src/stubs/resources/views/livewire/admin/atu/currencies/create.blade.php:99-109 | under the default rule a non-empty table has exactly one default id and an empty one has none |
| CurrencyModel.CurrencyTable.constructor | src/stubs/migrations/2025_01_15_000001_create_atu_multicurrency_currencies_table.php:14-30 | a fresh table is empty, satisfies the schema invariant and the default rule |
| CurrencyModel.CurrencyTable.Insert | src/stubs/resources/views/livewire/admin/atu/currencies/create.blade.php:111-123 | an insert appends the row under the next key, returns that key, leaves both logs alone and keeps the schema invariant |
| CurrencyModel.CurrencyTable.UpdateAt | src/Support/CurrencySyncService.php:133-139 | an update by id replaces exactly that row and keeps the schema invariant |
| CurrencyModel.CurrencyTable.DeleteAt | src/stubs/migrations/2025_01_15_000002_create_atu_multicurrency_currency_rates_log_table.php:22-25 | deleting a row removes it alone and cascades to exactly the rate-history and audit rows that reference it (both foreign keys cascade); the schema invariant holds afterwards |
| CurrencyModel.RemovingRowKeepsOthers | src/stubs/resources/views/livewire/admin/atu/currencies/index.blade.php:98 | removing one row keeps the keys increasing and every other key present |
| SettingModel.StoredForm | src/Models/Setting.php:48-55 | an array is stored as its JSON encoding, a string unchanged, and null as NULL, and only null gives NULL |
| SettingModel.ArrayRoundTrip | src/Models/Setting.php:32-55 | under a lawful codec, decoding the stored form of an array gives the array back |
| SettingModel.StringRoundTrip | src/Models/Setting.php:32-55 | a stored string that does not parse as JSON comes back as itself; one that parses comes back decoded |
| SettingModel.Setting.SetValue | src/Models/Setting.php:48-55 | assigning a value stores its JSON encoding when it is an array and the value itself when it is a string |
| SettingModel.Setting.DecodedValue | src/Models/Setting.php:32-40 | NULL decodes to null; text that parses decodes to its structure; other text comes back as it is |
| SettingsManager.DatabaseSourceExactly | src/Support/SettingsManager.php:104-107 | the database source is selected iff `settings_source` is exactly `'database'`; unset means file |
| SettingsManager.IsDatabaseSource | src/Support/SettingsManager.php:104-107 | the database source can only be selected when `settings_source` is configured |
| SettingsManager.SettingsTable.Upsert | src/Support/SettingsManager.php:56-59 | `updateOrInsert` leaves exactly one value under the key and leaves every other key alone |
| SettingsManager.GetSetting | src/Support/SettingsManager.php:17-34 | a key with no row reads the configuration value or the default in either mode; any other reading is either that or, in database mode, the decoded value of the key's row |
| SettingsManager.SetSetting | src/Support/SettingsManager.php:43-65 | the write succeeds iff the source is the database and the upsert does not throw; success stores the encoded value under the key; failure leaves the table unchanged |
| SettingsManager.SetThenGetArray | src/Support/SettingsManager.php:17-65 | in database mode, reading a key after writing an array to it gives the array back |
| SettingsManager.SetThenGetString | src/Support/SettingsManager.php:17-65 | in database mode a written string reads back as itself unless it is valid JSON, in which case it reads back decoded |
| SettingsManager.SetNullThenGetFallsBack | src/Support/SettingsManager.php:17-65 | after writing null, reading the key falls back to the configuration value or the default |
| SettingsManager.SetLeavesOtherKeys | src/Support/SettingsManager.php:55-59 | a write to one key changes the reading of no other key |
| SettingsManager.FileModeReadsConfig | src/Support/SettingsManager.php:17-34 | in file mode every reading is the configuration value or the default, whatever the table holds |
| SettingsManager.GetAllSettings | src/Support/SettingsManager.php:72-97 | database mode: exactly the stored keys, each mapped to its decoded-or-raw value; file mode: exactly `default_currency` (default `USD`) and `conversion` (default apply_fees, log_conversions, round_precision 2) |
| SettingsManager.AllSettingsAgreeWithGet | src/Support/SettingsManager.php:72-97 | in database mode, `getAllSettings` and `getSetting` agree on every key with a non-NULL value |
| CurrencySync.ExternalSettings.Upsert | src/Support/CurrencySyncService.php:49-64 | an upsert sets exactly one key of the external table |
| CurrencySync.A2Currency | src/Support/CurrencySyncService.php:236-265 | `getA2CommerceCurrency()` gives a pair iff the table exists and both keys have a value, and the pair holds exactly those two values |
| CurrencySync.PushThenReadGivesDefault | src/Support/CurrencySyncService.php:236-265 | after a successful push, `getA2CommerceCurrency()` reads back the default's upper-cased code and its symbol |
| CurrencySync.PushEffect | src/Support/CurrencySyncService.php:24-80 | a push succeeds iff it is not already syncing, the table exists, a default exists and neither upsert throws; success leaves the pushed pair; on every path the external keys only grow, and only by `currency_code` / `currency_symbol` |
| CurrencySync.PullEffect | src/Support/CurrencySyncService.php:90-155 | a pull succeeds iff it is not already syncing, the external pair is complete, a default exists with the external symbol and the update does not throw; it never changes the number of rows, and a failed pull changes nothing |
| CurrencySync.SyncBothEffect | src/Support/CurrencySyncService.php:164-206 | `syncBoth` succeeds only when not already syncing and a default exists; while a sync is running it fails and writes nothing; otherwise it either writes nothing or does exactly what a push does |
| CurrencySync.PushedReadsBack | src/Support/CurrencySyncService.php:49-64 | the two keys differ, so after both upserts the code key holds the upper-cased code and the symbol key holds the symbol |
| CurrencySync.PushOfOnlyRow | src/Support/CurrencySyncService.php:24-80 | a push from a table whose only row is the default writes that row's upper-cased code and symbol |
| CurrencySync.PushRefusals | src/Support/CurrencySyncService.php:27-44 | a push that is already syncing, or finds no table or no default, returns false and writes nothing |
| CurrencySync.PushWritesDefault | src/Support/CurrencySyncService.php:49-71 | a push without faults returns true and stores the default's upper-cased code and its symbol |
| CurrencySync.PushTouchesOnlyCurrencyKeys | src/Support/CurrencySyncService.php:49-64 | on every path (including a throw between the upserts) a push touches no key other than `currency_code` and `currency_symbol` |
| CurrencySync.PushIdempotent | src/Support/CurrencySyncService.php:49-64 | two consecutive pushes leave the same external state and result as one |
| CurrencySync.PushThenSyncBothWritesNothing | src/Support/CurrencySyncService.php:164-206 | after a successful push, `syncBoth` returns true without writing |
| CurrencySync.PullRefusals | src/Support/CurrencySyncService.php:93-128 | a pull fails and leaves the currencies unchanged if any of these holds: already syncing, no table, either external key missing, no default, or a different symbol (whatever the codes) |
| CurrencySync.PullChangesOnlyDefaultRow | src/Support/CurrencySyncService.php:133-146 | a successful pull sets the default row's code to the upper-cased external code and its symbol to the external symbol, and leaves every other row and column unchanged |
| CurrencySync.PulledKeepsDefaultRule | src/Support/CurrencySyncService.php:133-139 | the pull's update keeps the default rule and every row's id |
| CurrencySync.PullThenSyncBothWritesNothing | src/Support/CurrencySyncService.php:164-206 | after a successful pull, `syncBoth` returns true without writing |
| CurrencySync.SyncBothRefusals | src/Support/CurrencySyncService.php:167-178 | a `syncBoth` that finds a sync already running, or no default, returns false and writes nothing |
| CurrencySync.SyncBothCases | src/Support/CurrencySyncService.php:172-199 | `syncBoth` fails with no default; pushes when the external pair is incomplete or differs (case-insensitive code, exact symbol); returns true with no write when they agree |
| CurrencySync.CurrencySyncService.constructor | src/Support/CurrencySyncService.php:15 | the flag starts false |
| CurrencySync.CurrencySyncService.SyncToA2Commerce | src/Support/CurrencySyncService.php:24-80 | the result and the external table are those of `PushEffect` for the state on entry; the flag leaves as it entered, whatever the path (the `finally`) |
| CurrencySync.CurrencySyncService.SyncFromA2Commerce | src/Support/CurrencySyncService.php:90-155 | the result and the currencies are those of `PullEffect` for the state on entry; the flag is restored; the schema invariant and the default rule are kept |
| CurrencySync.CurrencySyncService.SyncBoth | src/Support/CurrencySyncService.php:164-206 | the result and the external table are those of `SyncBothEffect`; the flag is unchanged |
| CurrencyCreate.FallbackFillsBlank | src/stubs/resources/views/livewire/admin/atu/currencies/create.blade.php:64-69 | after the fallback, code and symbol are both blank iff they both were before; two non-blank fields are left alone |
| CurrencyCreate.Fallback | src/stubs/resources/views/livewire/admin/atu/currencies/create.blade.php:64-69 | the fallback never overwrites a non-blank field, and each field ends up holding one of the two values typed |
| CurrencyCreate.ShortSymbolAloneRejected | src/stubs/resources/views/livewire/admin/atu/currencies/create.blade.php:64-84 | a form holding only a symbol shorter than 3 bytes is refused with the length error |
| CurrencyCreate.DollarAloneRejected | src/stubs/resources/views/livewire/admin/atu/currencies/create.blade.php:78-84 | the code `""` with the symbol `"$"` is refused with the length error |
| CurrencyCreate.PassesFieldRules | src/stubs/resources/views/livewire/admin/atu/currencies/create.blade.php:13-32 | a form that passes the declared rules has a positive rate, a trimmed symbol that fits `string(10)` and a trimmed name that fits 255 characters |
| CurrencyCreate.CreateRejection | src/stubs/resources/views/livewire/admin/atu/currencies/create.blade.php:71-97 | as written: the error is the both-blank one iff both fields are blank; an accepted form has a non-blank code of 3 to 4 bytes once trimmed, passes the declared rules, and its untrimmed upper-cased code is not stored |
| CurrencyCreate.NewCurrency | src/stubs/resources/views/livewire/admin/atu/currencies/create.blade.php:99-123 | the inserted row is active; it is the default iff no default existed; a default gets rate 1 and any other row keeps the typed rate; the name is null iff it is blank |
| CurrencyCreate.AcceptedCodeFitsColumn | src/stubs/resources/views/livewire/admin/atu/currencies/create.blade.php:77-84 | every accepted form stores a code of 3 to 4 bytes, hence 1 to 4 characters, which fits `char(4)` |
| CurrencyCreate.NewCurrencyKeepsDefaultRule | src/stubs/resources/views/livewire/admin/atu/currencies/create.blade.php:99-123 | the inserted row is the default iff the table was empty (under the rule), and inserting it keeps the default rule |
| CurrencyCreate.DefaultRuleExtends | src/stubs/resources/views/livewire/admin/atu/currencies/create.blade.php:99-119 | appending the first row as an active rate-1 default, or a non-default row to a non-empty table, keeps the default rule |
| CurrencyCreate.FirstCurrencyIsPushed | src/stubs/resources/views/livewire/admin/atu/currencies/create.blade.php:99-129 | the first currency becomes an active default at rate 1, and the push then writes its stored (trimmed, upper-cased) code and trimmed symbol |
| CurrencyCreate.DuplicateCodeThroughLeadingSpace | src/stubs/resources/views/livewire/admin/atu/currencies/create.blade.php:90-97 | as written: with `USD` stored, the code `" usd"` passes every check and the row inserted has the code `USD` again |
| CurrencyCreate.PaddedCodeSlipsThrough | src/stubs/resources/views/livewire/admin/atu/currencies/create.blade.php:90-97 | as written: a form whose code is not stored as typed but is stored once trimmed passes every check, and the row it inserts carries a code already in the table |
| CurrencyCreate.CorrectedCreateKeepsCodesUnique | src/stubs/resources/views/livewire/admin/atu/currencies/create.blade.php:90-123 | with the duplicate probe on the stored form of the code, an accepted create keeps codes pairwise distinct |
| CurrencyCreate.FreshCodeKeepsCodesUnique | src/stubs/resources/views/livewire/admin/atu/currencies/create.blade.php:111-123 | appending a row whose code is not stored keeps codes pairwise distinct |
| CurrencyCreate.AcceptedCodeIsFresh | src/stubs/resources/views/livewire/admin/atu/currencies/create.blade.php:90-97 | the corrected checks accept only a code whose stored form no row holds |
| CurrencyCreate.CorrectedRejectsMore | src/stubs/resources/views/livewire/admin/atu/currencies/create.blade.php:90-97 | the corrected checks refuse whatever the written ones refuse, for the same reason, and agree with them when the code has nothing to trim |
| CurrencyCreate.CorrectedRunChecks | src/stubs/resources/views/livewire/admin/atu/currencies/create.blade.php:71-97 | the checks run in the source's order (both blank, length, validation, duplicate). The duplicate probe also looks for the trimmed code, so the result is the corrected rejection, not the as-written one |
| CurrencyCreate.InsertAndPush | src/stubs/resources/views/livewire/admin/atu/currencies/create.blade.php:111-129 | the row is appended under the next key, which then goes up by one; the push runs iff the row is the new default; the default rule and distinct codes are kept |
| CurrencyCreate.CreateForm.constructor | src/stubs/resources/views/livewire/admin/atu/currencies/create.blade.php:13-32 | the form starts with empty texts, rate 1, manual, no fee and no country |
| CurrencyCreate.CreateForm.Mount | src/stubs/resources/views/livewire/admin/atu/currencies/create.blade.php:34-44 | with a default present the rate field becomes 1; otherwise it is unchanged |
| CurrencyCreate.CreateForm.Save | src/stubs/resources/views/livewire/admin/atu/currencies/create.blade.php:62-135 | the fallback fields are kept; a rejection changes no table; a creation appends exactly `NewCurrency` (code upper(trim), symbol trim, blank name null, active, default at rate 1 iff no default existed) under the next key, which then goes up by one; only a new default is pushed; the default rule and distinct codes are kept |
| CurrencyIndex.Toggled | src/stubs/resources/views/livewire/admin/atu/currencies/index.blade.php:18-25 | after a toggle the id is expanded iff it was not before; every other id keeps its membership |
| CurrencyIndex.ToggleTwiceRestores | src/stubs/resources/views/livewire/admin/atu/currencies/index.blade.php:18-25 | toggling a collapsed id twice restores the list exactly, order included |
| CurrencyIndex.Results | src/stubs/resources/views/livewire/admin/atu/currencies/index.blade.php:38-54 | a row is listed iff the search is PHP-empty or occurs in its code or its symbol |
| CurrencyIndex.ToggleActiveEffect | src/stubs/resources/views/livewire/admin/atu/currencies/index.blade.php:56-80 | toggle-active: not found iff no row has the id; protected only for an active default, with no change; otherwise exactly one row with that id has its `is_active` flipped and nothing else changes |
| CurrencyIndex.DeleteEffect | src/stubs/resources/views/livewire/admin/atu/currencies/index.blade.php:82-104 | delete: not found iff no row has the id; protected only for the default, with no change; otherwise exactly one non-default row with that id is removed and the rest keep their order |
| CurrencyIndex.EmptySearchListsAll | src/stubs/resources/views/livewire/admin/atu/currencies/index.blade.php:43-48 | the search `""`, and also `"0"`, lists every row in order |
| CurrencyIndex.NarrowerSearchListsLess | src/stubs/resources/views/livewire/admin/atu/currencies/index.blade.php:43-48 | typing more after the search text never lists a row that the shorter text hid |
| CurrencyIndex.NarrowerSearchResultsShrink | src/stubs/resources/views/livewire/admin/atu/currencies/index.blade.php:43-48 | a longer search lists a subset of the rows listed by a shorter search, and never more of them |
| CurrencyIndex.ToggleActiveKeepsDefaultRule | src/stubs/resources/views/livewire/admin/atu/currencies/index.blade.php:56-80 | toggle-active keeps the default rule and the set of default ids |
| CurrencyIndex.FlippingNonDefaultKeepsDefaultRule | src/stubs/resources/views/livewire/admin/atu/currencies/index.blade.php:67-74 | flipping `is_active` on a row the guard lets through keeps the default rule and the default ids |
| CurrencyIndex.DeleteKeepsDefaultRule | src/stubs/resources/views/livewire/admin/atu/currencies/index.blade.php:82-104 | delete keeps the default rule and the set of default ids |
| CurrencyIndex.RemovingNonDefaultKeepsDefaultRule | src/stubs/resources/views/livewire/admin/atu/currencies/index.blade.php:92-98 | removing a non-default row keeps the default rule and the default id |
| CurrencyIndex.CurrencyList.constructor | src/stubs/resources/views/livewire/admin/atu/currencies/index.blade.php:14-16 | the list starts with empty search, 10 per page, nothing expanded |
| CurrencyIndex.CurrencyList.ToggleRow | src/stubs/resources/views/livewire/admin/atu/currencies/index.blade.php:18-25 | the expanded list becomes `Toggled` of the old one |
| CurrencyIndex.CurrencyList.ToggleActive | src/stubs/resources/views/livewire/admin/atu/currencies/index.blade.php:56-80 | unknown id means not found and no change; an active default is protected with no change; otherwise exactly that row's `is_active` flips. The schema invariant and the default rule are kept |
| CurrencyIndex.CurrencyList.Delete | src/stubs/resources/views/livewire/admin/atu/currencies/index.blade.php:82-104 | unknown id or the default means no change; otherwise exactly that row is removed and its log rows cascade. The schema invariant and the default rule are kept |
| CurrencySeeder.SeedSourceCases | src/stubs/database/seeders/ATUMultiCurrencySeeder.php:25-55 | the external pair is used iff the table exists, reading does not throw and both values are truthy; otherwise `USD` / `$` |
| CurrencySeeder.SeedSource | src/stubs/database/seeders/ATUMultiCurrencySeeder.php:25-55 | the seed pair is always two truthy values, either `USD` / `$` or the two external values |
| CurrencySeeder.SeedCurrency | src/stubs/database/seeders/ATUMultiCurrencySeeder.php:57-67 | the seeded row holds the upper-cased seed code and the seed symbol as given; it is an active default at rate 1, and its code is already upper-case and as long as the code it came from |
| CurrencySeeder.SeedingEstablishesDefaultRule | src/stubs/database/seeders/ATUMultiCurrencySeeder.php:57-67 | seeding a table with no default establishes the default rule, and the seeded row is the default read back |
| CurrencySeeder.SeededFromExternalIsInSync | src/stubs/database/seeders/ATUMultiCurrencySeeder.php:29-67 | a base currency seeded from the external pair agrees with it, so a `syncBoth` right after writes nothing |
| CurrencySeeder.Run | src/stubs/database/seeders/ATUMultiCurrencySeeder.php:15-70 | a row is created iff no default existed. It is the upper-cased seed code with rate 1, manual, no fee, default and active, stored under the next key, which then goes up by one; otherwise nothing changes. A default exists afterwards and the default rule holds |
| CurrencySeeder.SeedTwiceIsSeedOnce | src/stubs/database/seeders/ATUMultiCurrencySeeder.php:18-23 | running the seeder twice leaves the same rows as running it once |
| PhpStrings.TrimIsTrimmedSlice | src/stubs/resources/views/livewire/admin/atu/currencies/create.blade.php:65-79 | what `trim` keeps is a contiguous piece of the input with no trimmable character at either end |
| PhpStrings.TrimStartDropsOnlyTrimmable | src/stubs/resources/views/livewire/admin/atu/currencies/create.blade.php:65-79 | `trim` drops only trimmable characters from the front |
| PhpStrings.TrimEndDropsOnlyTrimmable | src/stubs/resources/views/livewire/admin/atu/currencies/create.blade.php:65-79 | `trim` drops only trimmable characters from the back |
| PhpStrings.BlankMeansOnlyPadding | src/stubs/resources/views/livewire/admin/atu/currencies/create.blade.php:65-75 | `empty(trim(s))` holds iff `s` is only trimmable characters, or `0` padded with them |
| PhpStrings.Upper | src/stubs/resources/views/livewire/admin/atu/currencies/create.blade.php:112 | `strtoupper` keeps the length |
| PhpStrings.UpperAt | src/stubs/resources/views/livewire/admin/atu/currencies/create.blade.php:112 | `strtoupper` maps each character on its own (ASCII letters upper-cased, the rest kept) |
| PhpStrings.UpperIdempotent | src/Support/CurrencySyncService.php:186 | upper-casing twice is upper-casing once, so comparing upper-cased codes ignores case |
| PhpStrings.Utf8LengthBounds | src/stubs/resources/views/livewire/admin/atu/currencies/create.blade.php:79 | `strlen` counts at least one and at most four bytes per character, exactly one per ASCII character |
| PhpStrings.UpperKeepsUtf8Length | src/stubs/resources/views/livewire/admin/atu/currencies/create.blade.php:79-112 | `strtoupper` keeps the byte length, so the length check still holds for the stored code |

## Left out

- The conversion engine and the rate-history writer: no code in the modelled files converts amounts or appends log rows; the log tables appear only as rows that a delete cascades to.
- Console commands, the Blade markup, the logs and settings views, the service provider, and the `country_list` / `default_currency` computed properties and `cancel` of the create form: these are installation plumbing and display, with no state rules of their own.
- `Log::*`, `notifyError` / `notifySuccess` messages, `now()` and the timestamp columns: side effects with no bearing on the stored state that is modelled. The outcome datatypes stand in for the messages.
- Float arithmetic: rates and fees are exact scaled integers, so PHP float rounding of `rate` and the `decimal(18, 8)` / `decimal(12, 4)` range limits are not modelled.
- The real JSON encoder and decoder: the model takes them as a parameter and assumes only that arrays round-trip; PHP objects, floats and integer-keyed arrays are not distinguished.
- `SettingModel.StoredForm`: a bool or int written by `setSetting` is stored as the text the database binding produces (`"1"` / `"0"` / decimal digits), a detail of the driver rather than of the plugin.
- `CurrencyModel.FirstDefaultIndex`: `first()` without `orderBy` is taken to return the earliest row by primary key; the database is free to return any.
- The ordering by `created_at` and the pagination of the list (`perPage`, `resetPage`): the model states which rows are listed, not their order on a page.
- `CurrencyIndex.Results`: the database collation's case-insensitivity and trailing-space (PAD SPACE) comparison, and the `LIKE` wildcards `%` and `_` inside the search text, are not modelled; the search is exact substring containment. The same collation rules apply to the `unique:` rule and the duplicate probe of the create form (`CurrencyCreate.CreateRejection`) and to the settings-key lookup (`SettingsManager.GetSetting`); the model compares strings exactly there too.
- Exceptions other than the storage writes modelled by `StorageFault` are not modelled: a throw while reading the default or the external pair (which the getters turn into null); a throw from the insert, update or delete of create, toggle-active and delete (which those actions report as an error); and a throw from the seeder's `Currency::create` (ATUMultiCurrencySeeder.php:57-67), which the seeder does not catch.
- `CurrencySeeder.Run`: its insert cannot throw in the model, so its promise that a default exists afterwards holds in the source only when `Currency::create` succeeds; when it throws, the exception leaves the seeder and no row is created.
- The `hasTable` check on the currencies table inside `getDefaultCurrency()`: the currencies table is taken to exist.
- A NULL value in the external settings table is modelled as an absent key; a row that exists with NULL behaves the same in every modelled read.
- Codes longer than the `char(4)` column, which only the seeder or a pull can produce since their code is not length-checked: what happens depends on the database. Non-strict MySQL truncates the code; strict MySQL (Laravel's default) and PostgreSQL throw, so under them a pull of a 5-character code would take the caught exception and return false; SQLite stores it as given. The model stores the value as given, and the same holds for the `string(10)` symbol limit outside the form.
- Dot-notation inside configuration keys: the configuration is a map of top-level keys.
- Concurrency: the static `$syncing` flag is an ordinary field of one service object; two processes or two service instances are not modelled.
- `CurrencyCreate.CorrectedRunChecks`: its duplicate probe also looks for the trimmed, upper-cased code, which the source at create.blade.php:90-97 does not; so it refuses the code `" usd"` when `USD` is stored, where the source inserts a second `USD`. The as-written checks are `CurrencyCreate.CreateRejection` (see Findings).
- `CurrencyCreate.CreateForm.Save`: uses the corrected duplicate probe rather than the one written in the source; the written probe is `CurrencyCreate.CreateRejection` (see Findings).
- `CurrencyIndex.Toggled`: `toggleRow` compares ids loosely (`in_array` and `array_diff` without strict typing) on whatever value the browser sends; the model takes every id as an integer compared exactly, so the loose matching of a string id such as `"5"` against the int `5` (or of `"5abc"` under PHP 7) is not represented.
- Laravel's validator: the declared rules are the predicate `PassesFieldRules`, with the rules on a string skipped when it trims to nothing; the `exists:vrm_taxonomies,id` rule is a set of known ids passed in.

## Findings

| source | as written | input that shows it | evidently intended | confidence | as-written member | corrected member |
|---|---|---|---|---|---|---|
| src/stubs/resources/views/livewire/admin/atu/currencies/create.blade.php:90-97 | the duplicate probe looks for `strtoupper($this->code)` and the `unique` rule for `$this->code`, both untrimmed, but the insert at line 112 stores `strtoupper(trim($this->code))` | `USD` stored; the form holds code `" usd"`, symbol `$`: every check passes and a second `USD` row is inserted | no two currencies share a code; the probe should look for the code as it will be stored | not executed | CurrencyCreate.DuplicateCodeThroughLeadingSpace | CurrencyCreate.CorrectedCreateKeepsCodesUnique |
