# DataForge (Dummy-Forge) generation core in Dafny

DataForge produces synthetic records for testing. The user picks a list of typed fields (names, gender, age,
contact data, places, identifiers, counters, random strings, patterns), a demographic split, an age rule and a
location rule. A generator then builds `count` records. Each record is an object with one property per field name.
Fields marked unique are re-drawn while their value is already taken. Only the desktop generator guarantees distinct values, and only for types other than booleans and dates; the server and example generators can repeat a value through their unchecked suffix fallbacks. Exporters turn the records into SQL scripts or
plain-text tables. Validators check field names and record counts. A catalogue of error codes (`DF-<segment>-<nnn>`)
describes every failure, together with its category, severity and log level.

The model covers three generators:

- the desktop generator (`src/lib/generators/dataGenerator.ts`). It validates the configuration first. It wraps
  foreign failures as `DF-GEN-005`. It throws `DF-GEN-001` when no unique value is found.
- the server generator (`server/lib/dataGenerator.ts`). It has the same field code. When no unique value is
  found, it falls back to a suffixed value.
- the example generator (`DataGenerator_Example.ts`). It has its own types, a random gender roll, and a
  1000-attempt uniqueness loop with a suffix fallback.

It also covers:

- the two small exporters and the larger example exporters;
- the zod-style validators;
- the error catalogue.

Modules:

- `Values`: JavaScript-like objects (`Obj`: insertion-ordered keys and a value map) and string helpers.
- `ErrorCodes`: the `ERROR_CODES` table, `getErrorByCode`, `createError`, and `toUserDisplay` with its
  severity titles.
- `Schema`: the configuration and value types of the desktop and server generators, and their
  deterministic gender rule.
- `RandomSource`: a `Provider` class that stands for the random library. It is a stream of draws, with
  operations that promise only their documented range or shape.
- `FieldGeneration`: the `DataGenerator` class shared by the desktop and server generators. Its fields are
  `uniqueTrackers` and `counters`, and its methods produce one field value each.
- `DesktopEngine` and `ServerEngine`: the two `generateRecords` and `ensureUnique` variants, proved to build
  one record per index with the promised per-field facts.
- `ExampleSchema` and `ExampleGenerator`: the example generator's class (`Generator`) with its trackers,
  counters and current index.
- `Cells`, `SqlExport` and `TxtExport`: `exportToSQL` and `exportToTXT`.
- `ExampleExporters`: the example `SQLExporter`, `TXTExporter` and `Exporter.getPreview`.
- `Validation`: `fieldNameSchema` and `recordCountSchema`.

## Model

| member | source | states |
|---|---|---|
| ErrorCodes.CatalogueKeys | src/lib/errors/ErrorCodes.ts:27-289 | the key list holds the table's codes, in table order |
| ErrorCodes.HasSegmentMeans | src/lib/errors/ErrorCodes.ts:27-289 | the segment test holds exactly when the code reads `DF-` + segment + `-` |
| ErrorCodes.SegmentDeterminesCategory | src/lib/errors/ErrorCodes.ts:1-15 | a code cannot carry the segments of two different categories |
| ErrorCodes.AppendGroup | src/lib/errors/ErrorCodes.ts:27-289 | appending a well-formed group of a new category keeps every entry under its own code and the keys distinct |
| ErrorCodes.GenerationEntries | src/lib/errors/ErrorCodes.ts:28-90 | every GEN entry is stored under its own code, and that code carries its category's segment |
| ErrorCodes.GenerationCategory | src/lib/errors/ErrorCodes.ts:28-90 | every GEN entry is in the Generation category |
| ErrorCodes.GenerationKeysDistinct | src/lib/errors/ErrorCodes.ts:28-90 | GEN codes are pairwise distinct |
| ErrorCodes.ExportEntries | src/lib/errors/ErrorCodes.ts:91-162 | every EXP entry is stored under its own code, and that code carries its category's segment |
| ErrorCodes.ExportCategory | src/lib/errors/ErrorCodes.ts:91-162 | every EXP entry is in the Export category |
| ErrorCodes.ExportKeysDistinct | src/lib/errors/ErrorCodes.ts:91-162 | EXP codes are pairwise distinct |
| ErrorCodes.ValidationEntries | src/lib/errors/ErrorCodes.ts:163-207 | every VAL entry is stored under its own code, and that code carries its category's segment |
| ErrorCodes.ValidationCategory | src/lib/errors/ErrorCodes.ts:163-207 | every VAL entry is in the Validation category |
| ErrorCodes.ValidationKeysDistinct | src/lib/errors/ErrorCodes.ts:163-207 | VAL codes are pairwise distinct |
| ErrorCodes.SystemEntries | src/lib/errors/ErrorCodes.ts:208-261 | every SYS entry is stored under its own code, and that code carries its category's segment |
| ErrorCodes.SystemCategory | src/lib/errors/ErrorCodes.ts:208-261 | every SYS entry is in the System category |
| ErrorCodes.SystemKeysDistinct | src/lib/errors/ErrorCodes.ts:208-261 | SYS codes are pairwise distinct |
| ErrorCodes.DatabaseEntries | src/lib/errors/ErrorCodes.ts:262-279 | every DB entry is stored under its own code, and that code carries its category's segment |
| ErrorCodes.DatabaseCategory | src/lib/errors/ErrorCodes.ts:262-279 | every DB entry is in the Database category |
| ErrorCodes.DatabaseKeysDistinct | src/lib/errors/ErrorCodes.ts:262-279 | DB codes are pairwise distinct |
| ErrorCodes.NetworkEntries | src/lib/errors/ErrorCodes.ts:280-288 | every NET entry is stored under its own code, and that code carries its category's segment |
| ErrorCodes.NetworkCategory | src/lib/errors/ErrorCodes.ts:280-288 | every NET entry is in the Network category |
| ErrorCodes.NetworkKeysDistinct | src/lib/errors/ErrorCodes.ts:280-288 | NET codes are pairwise distinct |
| ErrorCodes.CatalogueWellFormed | src/lib/errors/ErrorCodes.ts:27-289 | the whole table has distinct keys; every entry is stored under its own code, whose segment matches its category |
| ErrorCodes.GetErrorByCode | src/lib/errors/ErrorCodes.ts:291-293 | a lookup succeeds exactly for catalogued codes and returns that code's entry |
| ErrorCodes.CreateError | src/lib/errors/ErrorCodes.ts:295-327 | a catalogued code keeps its code and its catalogue entry; an unknown code becomes DF-SYS-999 (System, Critical, Fatal, "Unknown error"); details and context are passed through |
| ErrorCodes.UnknownCodeNotCatalogued | src/lib/errors/ErrorCodes.ts:302-314 | the fallback code DF-SYS-999 is itself not in the table |
| ErrorCodes.CreatedErrorCode | src/lib/errors/ErrorCodes.ts:295-327 | the created error's code is catalogued exactly when the requested one is, and it carries its category's segment |
| ErrorCodes.ToUserDisplay | src/lib/errors/ErrorCodes.ts:389-401 | the display shows the user message, the resolution and the code; the title is Information, Warning, Error or Critical Error by severity |
| ErrorCodes.SeverityTitleInjective | src/lib/errors/ErrorCodes.ts:403-416 | equal titles mean equal severities |
| ErrorCodes.DisplayOfCreatedError | src/lib/errors/ErrorCodes.ts:389-416 | a created error for a catalogued code displays that code, its user message and its severity's title; an unknown code displays DF-SYS-999 as Critical Error |
| Schema.FieldTypeText | server/types.ts:5-42 | a field type's tag is one of the 37 listed tags exactly when the type is a named one; an unrecognised type keeps a tag outside the list, so it can never stand for a named type such as `boolean` |
| Schema.FieldNames | src/lib/generators/dataGenerator.ts:78-95 | the keys assigned for a field list are its field names, in order |
| Schema.Roll | src/lib/generators/dataGenerator.ts:115 | the roll `(index * 7) % 100` lies in [0, 100) |
| Schema.DetermineGender | src/lib/generators/dataGenerator.ts:113-120 | when the percentages sum to 100: male exactly when roll < male %, otherwise female |
| Schema.GenderFallback | src/lib/generators/dataGenerator.ts:119 | a roll at or above both bounds falls back to the option at `(index + 3) % 4`, which repeats every 400 indices |
| Schema.GenderPeriodic | src/lib/generators/dataGenerator.ts:113-120 | the roll, and hence the gender, of index i and i + 100 are the same |
| Schema.RollDeterminesResidue | src/lib/generators/dataGenerator.ts:115 | 43 times the roll is the index modulo 100, so the roll determines the index's residue |
| Schema.RollsDistinctInBlock | src/lib/generators/dataGenerator.ts:115 | two indices less than 100 apart get different rolls |
| FieldGeneration.FindCountry | src/lib/generators/dataGenerator.ts:259-261 | None exactly when no country has the code; otherwise the name of the first country that has it |
| FieldGeneration.CounterAfterArithmetic | src/lib/generators/dataGenerator.ts:297-301 | after n calls, a counter holds its start + n·step; other keys are untouched |
| FieldGeneration.IssuedArithmetic | src/lib/generators/dataGenerator.ts:297-301 | the j-th value issued for a key is start + j·step |
| FieldGeneration.CounterKeysIndependent | src/lib/generators/dataGenerator.ts:297-301 | advancing one counter leaves any other counter as it was |
| FieldGeneration.PatternRecoverable | src/lib/generators/dataGenerator.ts:318-322 | masking a generated value recovers the pattern (X for letters, # for digits) |
| FieldGeneration.Clamp | src/lib/generators/dataGenerator.ts:324-327 | the percentage is clamped into [0, 100], and in-range values are unchanged |
| FieldGeneration.TrackersGrowTransitive | src/lib/generators/dataGenerator.ts:273-293 | tracker sets only ever grow, across any sequence of steps |
| FieldGeneration.DataGenerator.constructor | src/lib/generators/dataGenerator.ts:21-24 | a new generator starts with empty trackers and counters |
| FieldGeneration.DataGenerator.AutoIncrement | src/lib/generators/dataGenerator.ts:297-301 | returns the stored value (or start) and stores it plus step; unique trackers untouched |
| FieldGeneration.DataGenerator.RandomString | src/lib/generators/dataGenerator.ts:303-316 | fails exactly when min > max (defaults 5 and 12); otherwise prefix, then a base of the chosen class with length in range, then suffix |
| FieldGeneration.DataGenerator.PatternValue | src/lib/generators/dataGenerator.ts:318-322 | same length as the pattern; X becomes an upper-case letter, # a digit, anything else is kept |
| FieldGeneration.DataGenerator.BooleanWithPercentage | src/lib/generators/dataGenerator.ts:324-327 | a clamped 0 % never yields true; a clamped 100 % always does |
| FieldGeneration.DataGenerator.GetCountryCode | src/lib/generators/dataGenerator.ts:251-257 | single mode with a country returns it; specific mode with a non-empty list picks from the list |
| FieldGeneration.DataGenerator.GetCountryName | src/lib/generators/dataGenerator.ts:259-261 | the first matching country's name, or the code itself when none matches |
| FieldGeneration.DataGenerator.GenerateAge | src/lib/generators/dataGenerator.ts:233-244 | fails exactly when the mode's range is empty; otherwise the age lies in it; exact mode returns its value |
| FieldGeneration.DataGenerator.GenerateDateOfBirth | src/lib/generators/dataGenerator.ts:246-249 | fails exactly when the age range is empty; otherwise it is the birthday text of an age in range |
| FieldGeneration.DataGenerator.GeneratePhone | src/lib/generators/dataGenerator.ts:208-223 | with a phone rule: `+dial ` then a number of digits between the rule's lengths (an error if min > max); without a rule it never fails, and with a calling code it gives 8 to 10 digits |
| FieldGeneration.DataGenerator.GenerateEmail | src/lib/generators/dataGenerator.ts:225-231 | lower-cased first.last, then a number in 1..9999, then `@domain` |
| FieldGeneration.DataGenerator.NameValue | src/lib/generators/dataGenerator.ts:131-136 | names are non-empty; a full name holds a space |
| FieldGeneration.DataGenerator.CounterValue | src/lib/generators/dataGenerator.ts:165-168 | counter fields advance their own counter and yield `STU-`/`EMP-` text or the bare number |
| FieldGeneration.DataGenerator.ProviderValue | src/lib/generators/dataGenerator.ts:151-184 | coordinates are numbers; every other provider field is text |
| FieldGeneration.DataGenerator.GenerateFieldValue | src/lib/generators/dataGenerator.ts:122-206 | only counter types change counters, and they change only their own key; the value obeys the per-type outcome (gender text, age range, phone, counters, random strings, pattern, '' by default) |
| FieldGeneration.DataGenerator.PersonOrPlaceValue | src/lib/generators/dataGenerator.ts:131-164 | per-type outcome for the person and place fields |
| FieldGeneration.DataGenerator.OtherValue | src/lib/generators/dataGenerator.ts:165-205 | per-type outcome for identifiers, dates, finance, random strings, counters, booleans, patterns and the default |
| DesktopEngine.GenerationCodesCatalogued | src/lib/generators/dataGenerator.ts:27-107 | every code the desktop generator raises is in the catalogue |
| DesktopEngine.Validate | src/lib/generators/dataGenerator.ts:27-52 | DF-GEN-003 exactly when count > 10000; DF-GEN-004 exactly when it passes that and has no fields; DF-GEN-006 exactly when it passes both and the split is not 100; DF-GEN-007 exactly when it passes all three and a between range has min >= max |
| DesktopEngine.RejectionErrorCode | src/lib/generators/dataGenerator.ts:27-52 | the thrown error carries the rejection's code, the Generation category, and its details and context |
| DesktopEngine.UniqueFailure | src/lib/generators/dataGenerator.ts:286-291 | the exhausted-uniqueness error is DF-GEN-001 in the Generation category |
| DesktopEngine.WrappedFault | src/lib/generators/dataGenerator.ts:100-108 | a foreign failure is rethrown as DF-GEN-005, Critical |
| DesktopEngine.EnsureUnique | src/lib/generators/dataGenerator.ts:263-295 | the values tried start with the given one, and every one but the last was already taken; success means a fresh value, added to the field's set, within 100 attempts; running out throws DF-GEN-001 after 100 retries |
| DesktopEngine.Regenerate | src/lib/generators/dataGenerator.ts:281-284 | the regeneration loop stops within 100 draws; every value tried before the last was taken, and the last is free unless the draws ran out; the trackers are untouched |
| DesktopEngine.FieldStep | src/lib/generators/dataGenerator.ts:78-93 | one field's value: name caches are only filled, never replaced; a success holds the per-field fact; the unique-value sets only grow; a uniqueness failure is DF-GEN-001 |
| DesktopEngine.FieldValue | src/lib/generators/dataGenerator.ts:61-88 | first, last and full names reuse the record's cached names; gender fields give the record's gender |
| DesktopEngine.RouteUnique | src/lib/generators/dataGenerator.ts:90-93 | non-unique, boolean and date fields pass through; other unique fields get a value that was fresh and is now tracked |
| DesktopEngine.BuildRecord | src/lib/generators/dataGenerator.ts:57-99 | the record assigns each field name its value in order, and each value satisfies its field's facts |
| DesktopEngine.GenderOfValues | src/lib/generators/dataGenerator.ts:59 | in a built record, every non-unique gender field holds the index's gender |
| DesktopEngine.NamesOfValues | src/lib/generators/dataGenerator.ts:61-83 | in one record, all first-name fields agree, and so do all last-name fields |
| DesktopEngine.FullNameOfValues | src/lib/generators/dataGenerator.ts:84-85 | a non-unique full name is the record's first name, a space, then its last name |
| DesktopEngine.UniqueAcrossExtend | src/lib/generators/dataGenerator.ts:90-98 | unique fields stay pairwise distinct across all records as records are added |
| DesktopEngine.RecordsExtend | src/lib/generators/dataGenerator.ts:57-99 | appending a well-built record keeps all record-level facts |
| DesktopEngine.GenerateRecords | src/lib/generators/dataGenerator.ts:26-111 | a rejection throws its error and touches nothing; success gives max(count, 0) records, each with the field names as keys, with the gender, name and uniqueness facts; any other failure is DF-GEN-001 or DF-GEN-005 |
| DesktopEngine.GenerateAll | src/lib/generators/dataGenerator.ts:54-110 | the record loop yields max(count, 0) records with the facts, or DF-GEN-001 / DF-GEN-005 |
| ServerEngine.EnsureUnique | server/lib/dataGenerator.ts:189-218 | a fresh value within 100 attempts, otherwise the suffixed fallback; either way the result is added to the field's set |
| ServerEngine.FallbackCanRepeat | server/lib/dataGenerator.ts:212-216 | the suffixed fallback is not checked, so it can repeat a tracked value |
| ServerEngine.FreshUnlessFallback | server/lib/dataGenerator.ts:207-216 | a result that was already tracked can only come from the fallback after all 100 retries collided |
| ServerEngine.FieldValue | server/lib/dataGenerator.ts:22-30 | unique-eligible fields end tracked; gender fields give the index's gender |
| ServerEngine.BuildRecord | server/lib/dataGenerator.ts:17-34 | the record assigns each field name its value in order, each value satisfying its field's facts |
| ServerEngine.RecordFactOfValues | server/lib/dataGenerator.ts:18-33 | a built record satisfies the per-field facts under its index's gender |
| ServerEngine.GenerateRecords | server/lib/dataGenerator.ts:14-37 | trackers only grow; success gives max(count, 0) records keyed by the field names, each satisfying the facts |
| ExampleSchema.Capitalise | DataGenerator_Example.ts:278 | the same length; the first character upper-cased, the rest kept |
| ExampleSchema.GenderLabels | DataGenerator_Example.ts:277-278 | gender fields read "Male", "Female" and "Other" |
| ExampleSchema.GenderOfRoll | DataGenerator_Example.ts:188-198 | male exactly when rand < male %; female exactly when male % <= rand < male % + female % |
| ExampleSchema.NoOtherWhenCovered | DataGenerator_Example.ts:188-198 | a split covering 100 % never yields other |
| ExampleSchema.FieldNames | DataGenerator_Example.ts:159-168 | the assigned keys are the field names, in order |
| ExampleSchema.OrNum | DataGenerator_Example.ts:227-238 | `x \|\| d` on numbers: x unless it is missing or 0 |
| ExampleSchema.OrText | DataGenerator_Example.ts:206 | `x \|\| d` on strings: x unless it is missing or empty |
| ExampleSchema.AutoStep | DataGenerator_Example.ts:467-479 | a new key stores and returns start; a known key returns its value and stores value + step; other keys kept |
| ExampleSchema.IssuedFromFresh | DataGenerator_Example.ts:467-479 | from a fresh key, the n-th issued value is start when n = 0, and start + (n-1)·step after that (start is issued twice) |
| ExampleSchema.IssuedFromKnown | DataGenerator_Example.ts:474-478 | from a known key, the n-th issued value is the stored value + n·step |
| ExampleSchema.CountryKeys | DataGenerator_Example.ts:101-127 | the country keys, in table order |
| ExampleSchema.CountryLabel | DataGenerator_Example.ts:101-127 | the table name of a listed country, or the code itself |
| ExampleSchema.CountryCallingCode | DataGenerator_Example.ts:414-423 | the listed calling code, or "+1" for any other country |
| ExampleSchema.CallingCodesCoverCountries | DataGenerator_Example.ts:414-423 | the calling-code table lists exactly the country table's codes, in order |
| ExampleSchema.CallingCodesWellFormed | DataGenerator_Example.ts:414-423 | every calling code is `+` followed by digits |
| ExampleGenerator.Generator.constructor | DataGenerator_Example.ts:138-142 | a new generator has empty trackers and counters, and index 0 |
| ExampleGenerator.Generator.ResetTrackers | DataGenerator_Example.ts:179-183 | clears trackers and counters, and resets the index |
| ExampleGenerator.Generator.DetermineGender | DataGenerator_Example.ts:188-198 | the gender is the one a roll in [0, 100) selects |
| ExampleGenerator.Generator.GetCountry | DataGenerator_Example.ts:203-219 | single gives its country or US; specific gives a listed one or US; random gives a table key |
| ExampleGenerator.Generator.GenerateAge | DataGenerator_Example.ts:224-243 | exact gives `exact \|\| 25`; the other modes fail exactly when their range is empty, and otherwise lie in it |
| ExampleGenerator.Generator.GetRandomLength | DataGenerator_Example.ts:456-462 | a non-zero length is returned as is; otherwise a value between the `\|\|`-defaulted bounds 5 and 15 |
| ExampleGenerator.Generator.GetAutoIncrement | DataGenerator_Example.ts:467-479 | exactly one counter step with `start \|\| 1` and `step \|\| 1`; trackers and index kept |
| ExampleGenerator.Generator.UpperAlpha | DataGenerator_Example.ts:489 | an upper-case letter |
| ExampleGenerator.Generator.GenerateFromPattern | DataGenerator_Example.ts:486-495 | X becomes an upper-case letter and # a digit; other characters are kept |
| ExampleGenerator.Generator.GeneratePostalCode | DataGenerator_Example.ts:428-451 | `X#X #X#` for CA, `XX# #XX` with non-zero digits for GB, five digits for the listed countries, otherwise the provider's zip code |
| ExampleGenerator.Generator.GeneratePhone | DataGenerator_Example.ts:392-409 | the parsed international form when parsing succeeds; otherwise the calling code, a space and the raw number |
| ExampleGenerator.Generator.PersonValue | DataGenerator_Example.ts:264-342 | non-empty first and last names, the capitalised gender, the record's age, a date of birth, `first.last.n@email.com` with n in 1..99999, and a lower-cased name plus a number as username |
| ExampleGenerator.Generator.PlaceValue | DataGenerator_Example.ts:297-324 | the country's table name (or its code), a postal code of the country's shape, decimal coordinates, and text for phones and the other places |
| ExampleGenerator.Generator.CounterValue | DataGenerator_Example.ts:327-333 | counter fields take one counter step and format the issued number |
| ExampleGenerator.Generator.RandomValue | DataGenerator_Example.ts:356-369 | random strings: letters, digits or alphanumerics of the configured length |
| ExampleGenerator.Generator.OtherValue | DataGenerator_Example.ts:327-385 | text for UUIDs and clock strings, a number for the timestamp, a boolean, the pattern's shape (empty without a pattern), random strings, and null for unknown types; only random strings can fail |
| ExampleGenerator.Generator.GenerateFieldValue | DataGenerator_Example.ts:248-387 | only counter fields change counters; trackers and index kept; the value obeys its type's outcome |
| ExampleGenerator.Generator.EnsureUnique | DataGenerator_Example.ts:500-536 | a fresh value within 1000 attempts, or else the `_suffix` fallback; the result is added to the field's set |
| ExampleGenerator.Generator.Regenerate | DataGenerator_Example.ts:516-519 | the regeneration loop stops within 1000 draws; every value tried before the last was taken, and the last is free unless the draws ran out; the trackers are untouched |
| ExampleGenerator.Generator.FieldValue | DataGenerator_Example.ts:159-167 | unique fields end tracked; only the field's own tracker and counter keys are added |
| ExampleGenerator.Generator.BuildRecord | DataGenerator_Example.ts:157-170 | the record assigns each field name its value in order, each satisfying its field's facts |
| ExampleGenerator.Generator.GenerateRecords | DataGenerator_Example.ts:147-174 | trackers and counters are reset first, so on success every field's set of used values holds exactly the unique values of this run's rows (`TrackRun`); success gives max(count, 0) records, each from one gender/country/age draw, keyed by field names and satisfying the field facts; an infeasible age range with count > 0 fails |
| ExampleGenerator.RecordsExtend | DataGenerator_Example.ts:151-171 | appending a record built from a valid draw keeps all record-level facts |
| Cells.JoinSlot | src/lib/exporters/sqlExporter.ts:26 | `Array.join` prints missing and null entries as empty, everything else as `String(v)` |
| Cells.Quote | src/lib/exporters/sqlExporter.ts:20 | quoted on both ends; the inner text has every quote doubled and unescapes to the original |
| Cells.UnescapeEscape | src/lib/exporters/sqlExporter.ts:20 | undoing the doubled quotes gives back the original string |
| Cells.EscapePaired | src/lib/exporters/sqlExporter.ts:20 | after escaping, quotes only occur in pairs |
| Cells.SplitJoin | src/lib/exporters/txtExporter.ts:4 | splitting a separator-joined line on the separator gives back the parts, when no part holds it |
| SqlExport.SqlType | src/lib/exporters/sqlExporter.ts:9 | INT exactly for numbers, VARCHAR(255) otherwise |
| SqlExport.ColumnLines | src/lib/exporters/sqlExporter.ts:7-12 | one definition line per column |
| SqlExport.Slot | src/lib/exporters/sqlExporter.ts:18-23 | strings are quoted and escaped; booleans become 1/0; numbers print as decimals; missing values print empty |
| SqlExport.TupleLines | src/lib/exporters/sqlExporter.ts:17-27 | one tuple line per record |
| SqlExport.SqlText | src/lib/exporters/sqlExporter.ts:1-30 | the script is empty exactly when there are no records |
| SqlExport.ExportToSql | src/lib/exporters/sqlExporter.ts:1-30 | the appending loops build exactly the specified script; the table name defaults to `GeneratedData` |
| SqlExport.AppendColumns | src/lib/exporters/sqlExporter.ts:7-12 | the column loop appends exactly the column lines |
| SqlExport.AppendTuples | src/lib/exporters/sqlExporter.ts:17-27 | the record loop appends exactly the tuple lines |
| SqlExport.ColumnCommas | src/lib/exporters/sqlExporter.ts:10-11 | a column line ends in `,` exactly when it is not the last |
| SqlExport.TupleTerminators | src/lib/exporters/sqlExporter.ts:25-26 | a tuple ends in `;` exactly when it is the last record, and in `,` otherwise |
| SqlExport.SlotRoundTrip | src/lib/exporters/sqlExporter.ts:20 | a string slot unquotes back to the original string |
| TxtExport.RowCells | src/lib/exporters/txtExporter.ts:4 | one cell per column, each the `String()` of the record's value |
| TxtExport.TxtLines | src/lib/exporters/txtExporter.ts:3-4 | a header line of tab-joined column names, then one tab-joined line per record |
| TxtExport.ExportToTxt | src/lib/exporters/txtExporter.ts:2-5 | no text exactly when there are no records; otherwise the newline-joined lines |
| TxtExport.TxtReadBack | src/lib/exporters/txtExporter.ts:3-5 | without tabs or newlines in names and cells, splitting the text recovers the header and every row |
| TxtExport.LineReadBack | src/lib/exporters/txtExporter.ts:4 | splitting one row line on tabs recovers its cells |
| Validation.TailMatches | src/lib/utils/validation.ts:6 | the matcher accepts a tail exactly when every character is a letter, digit or underscore |
| Validation.PatternMeansRule | src/lib/utils/validation.ts:6 | the regular expression accepts exactly the names that start with a letter and continue with letters, digits or underscores |
| Validation.FieldNameIssues | src/lib/utils/validation.ts:3-6 | no issues exactly for valid names; "" reports both the minimum and the pattern issue; other invalid names report only the pattern |
| Validation.RecordCountIssues | src/lib/utils/validation.ts:8 | no issues exactly when 1 <= n <= 10000; at most one issue |
| Validation.CountAgreesWithGenerator | src/lib/utils/validation.ts:8 | an accepted count never exceeds the desktop generator's limit |
| ExampleExporters.TableName | Exporters_Example.ts:37 | the given name when non-empty, else GeneratedData; never empty |
| ExampleExporters.VarcharWidth | Exporters_Example.ts:123 | max(2·length, 255) for strings, 255 otherwise |
| ExampleExporters.ValueType | Exporters_Example.ts:104-124 | never a primary key; VARCHAR(36) exactly for UUID strings |
| ExampleExporters.InferSqlDataType | Exporters_Example.ts:76-125 | INT PRIMARY KEY exactly when the lower-cased name contains "id"; VARCHAR(36) exactly when no name rule applies and the value is a UUID string |
| ExampleExporters.NameDecides | Exporters_Example.ts:79-102 | when a name rule applies, the value does not matter |
| ExampleExporters.ReplaceFirst | Exporters_Example.ts:169 | the same length; the first occurrence replaced; unchanged when absent |
| ExampleExporters.EscapeSqlValue | Exporters_Example.ts:155-175 | NULL for missing and null values, numbers as decimals, booleans as 1/0, strings quoted with doubled quotes, dates as quoted 19-character timestamps |
| ExampleExporters.ColumnDefs | Exporters_Example.ts:60-65 | one definition per column |
| ExampleExporters.InsertTuples | Exporters_Example.ts:137-145 | one tuple per record |
| ExampleExporters.SqlExport | Exporters_Example.ts:29-45 | the no-data message exactly when there are no records |
| ExampleExporters.HeaderIgnoresRowCount | Exporters_Example.ts:57 | the script starts with the same CREATE block whatever the number of records |
| ExampleExporters.InsertTerminators | Exporters_Example.ts:143-144 | a tuple ends in `;` exactly when it is the last, and in `,` otherwise |
| ExampleExporters.FormatValue | Exporters_Example.ts:358-371 | NULL for missing and null values; ISO text for dates; JSON for objects; `toString` otherwise |
| ExampleExporters.PadString | Exporters_Example.ts:376-381 | exactly `width` long: the string's prefix, then spaces |
| ExampleExporters.SampleMaxBounds | Exporters_Example.ts:341-348 | at least the column name's length, at least every sampled value's length, and equal to one of them |
| ExampleExporters.ColumnWidth | Exporters_Example.ts:339-352 | at most 50 and at least min(name length, 50); it bounds every value in the first 100 rows unless capped at 50 |
| ExampleExporters.ColumnWidths | Exporters_Example.ts:339-352 | one width per column |
| ExampleExporters.CalculateColumnWidths | Exporters_Example.ts:335-353 | the loop computes exactly the specified widths |
| ExampleExporters.SampleWidth | Exporters_Example.ts:341-348 | the inner loop computes the maximum over the first min(n, 100) rows |
| ExampleExporters.Padded | Exporters_Example.ts:302-304 | each cell is padded to its column's width |
| ExampleExporters.RowBlocks | Exporters_Example.ts:311-323 | one block per record |
| ExampleExporters.TxtReport | Exporters_Example.ts:279-330 | the no-data message exactly when there are no records |
| ExampleExporters.TxtExport | Exporters_Example.ts:279-330 | the appending code builds exactly the specified report |
| ExampleExporters.AppendRows | Exporters_Example.ts:311-323 | the row loop appends exactly the row blocks |
| ExampleExporters.JoinWidth | Exporters_Example.ts:302-315 | a joined row is as long as the sum of its parts plus one separator between each pair |
| ExampleExporters.Aligned | Exporters_Example.ts:302-315 | every data row is exactly as long as the header row: the sum of widths plus 3 per gap |
| ExampleExporters.SeparatorsUpTo | Exporters_Example.ts:320-322 | before row k there are k / 10 dotted separators |
| ExampleExporters.SeparatorCount | Exporters_Example.ts:320-322 | n rows get (n-1) / 10 separators, never one after the last row |
| ExampleExporters.Slice | Exporters_Example.ts:657 | a prefix of the data, of length `slice(0, maxRows)` gives, including negative maxRows |
| ExampleExporters.GetPreview | Exporters_Example.ts:652-675 | the row limit defaults to 10; SQL and TXT previews export the sliced data; the CSV preview is empty when no rows are left after slicing, as the CSV exporter returns '' for no data, and is otherwise the unparsed rows; PDF names the full record count; the other formats give the fixed message |
| ExampleExporters.PreviewOfShortData | Exporters_Example.ts:652-675 | with no more records than maxRows, the preview equals the full export |
| ExampleExporters.DefaultPreviewRows | Exporters_Example.ts:652-660 | without a row limit the SQL and TXT previews export the first ten records, or all of them when there are fewer |

## Left out

- The error catalogue's message, user message and resolution texts are a parameter (`wording`) of `CreateError`. The code, category, severity and log level of every entry are modelled.
- The `DummyForgeError` timestamp, stack trace and `toLogFormat` text, and the `originalError` context object, are not modelled.
- The random library (person names, locations, finance data, UUIDs, the phone parser) is the `RandomSource.Provider` class. Its operations promise only the range or shape the library documents: a number within its bounds, n letters, n digits, a non-empty name, and so on.
- RandomSource.Provider.Text: returns abstract text per kind. The content of addresses, cities, IBANs, card numbers and usernames is not modelled.
- The clock (`new Date()`, `Date.now()`, `toISOString`, `toLocaleString`, `date-fns` formatting) is given as text or numbers through the provider or as parameters (`isoNow`, `localNow`).
- Floating point: latitude and longitude are opaque coordinate values. Non-integer numbers in the exporters are text (`Frac`). Integers print in decimal; exponent notation above 10^21 is not modelled. `Math.random() * 100` in the example generator is a real in [0, 100).
- JavaScript objects keep insertion order. The engine's ordering of integer-like keys first is not modelled.
- String lengths count characters, not UTF-16 code units.
- ErrorCodes.GetErrorByCode: looks codes up among the table's own keys; `ERROR_CODES[code]` on a plain object also finds inherited `Object.prototype` members, so "constructor" yields a function in the source and `None` in the model. No caller passes such a code.
- ErrorCodes.CreateError: for an inherited key such as "constructor" the source builds an error whose code is undefined; the model builds the DF-SYS-999 fallback, as for any code outside the table.
- ExampleSchema.CountryLabel: `COUNTRIES[country]?.name` on an inherited key such as "constructor" gives "Object"; the model gives the code itself, as for any unlisted code. The country selector offers only listed codes.
- ExampleSchema.CountryCallingCode: `codes[countryCode] || '+1'` on an inherited key gives that member's source text; the model gives "+1", as for any unlisted code.
- FieldGeneration.DataGenerator.GenerateEmail: lower-cases the ASCII letters A-Z only; JavaScript's `toLowerCase` also lower-cases other Unicode letters ("Élodie" becomes "élodie"), which the model keeps as they are.
- ExampleGenerator.Generator.PersonValue: the email and username lower-case the ASCII letters A-Z only; letters outside ASCII keep their case, unlike `toLowerCase`.
- Validation.RecordCountIssues: a fractional count such as 2.5 passes the check, and the source's `i < count` loop then makes 3 records; the generators take the count as an integer, so a fractional count is not modelled beyond validation.
- Validation.RecordCountIssues: NaN and infinities are not modelled; the count is a real number.
- TxtExport.TxtReadBack: requires at least one column, because an empty header line splits into one empty name.
- The example's unused generator option (the phone's `mobile` flag) and the desktop configuration fields no generator reads are not modelled.
- The example generator's `faker.setLocale(countryData.locale)` call (DataGenerator_Example.ts:258-259) switches the random library's locale; that side effect on the provider is not modelled, since the provider's names and places are abstract.
- ExampleGenerator.Generator.GenerateAge: its unreachable default branch (all four modes are handled) is not modelled.
- The CSV, PDF and XLSX exporters, Blob downloads and `saveToFile` are not part of this model. The CSV preview goes through an `unparse` parameter of `GetPreview`, called only for a non-empty preview, as the CSV exporter returns '' for no data.
- ExampleGenerator.Generator.GeneratePostalCode: the shapes of the Canadian and British codes are stated; the provider's zip-code text is not.
