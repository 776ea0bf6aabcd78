# EclipseMagazin 6/15 entity store, in Dafny

This project models the data layer of a BlackBerry 10 (Qt/Cascades) sample
application. The application keeps three ordered collections in a
`DataManager`:

- customers (`Kunde`, keyed by the integer `nr`);
- orders (`Auftrag`, keyed by `nr`);
- keywords (`Schlagwort`, keyed by a generated UUID).

An order owns an ordered list of line items (`Position`, keyed by a UUID). It
refers lazily to one customer, through a stored key, an "invalid" flag and a
cached object. It refers lazily to its keywords, through a stored key list, a
"resolved" flag and an object list.

The model covers the following:

- the entities as Dafny classes whose methods update their fields;
- their map views (`toMap`, `toForeignMap`, `toCacheMap`) and fills
  (`fillFromMap`, `fillFromForeignMap`, `fillFromCacheMap`), over a QVariant
  datatype;
- UUID defaulting and the brace trimming of generated keys;
- the lazy-reference state machines;
- the store's operations: append-insert, delete-first-by-key, find-first-by-key
  and the batch `listOf…ForKeys` lookup;
- the reference-resolution pass;
- the record-list loops of the JSON caches;
- the chunked bulk import of the customers into SQLite. This covers its lap
  arithmetic in C++ `int` division, the `[fromPos, toPos)` windows, and every
  exit path of the statement sequence.

Modules, one per file:

- `Qt`: QVariant and its conversions between ints, doubles and strings.
  `toInt` rounds a double and parses decimal text, `toDouble` parses decimal
  text, and `toString` formats numbers. Each has a default for a missing key
  or text that does not parse. The module also has `QString::left`, `right`
  and `number`.
- `Seqs`: the QList operations `indexOf`, `removeAt`, `removeOne` and
  `removeDuplicates`.
- `UuidGen`: the UUID generator and brace trimming.
- `LazyRefs`: the two reference shapes as values.
- `KundeEntity`, `PositionEntity`, `SchlagwortEntity`, `AuftragEntity`: the
  entities.
- `KeyLookup`: the batch lookup loop.
- `Chunks`: the lap and window arithmetic.
- `SqlCache`: the database as the import observes it.
- `DataManagement`: the store.

Three behaviours of the code that the model follows:

- `bulkImport` returns nothing, so a failing pragma statement ends only that
  call and never stops `saveKundeToSqlCache`.
- `saveKundeToSqlCache` returns nothing, so its caller learns neither success
  nor failure. The model states the database it leaves instead.
- `markAuftraggeberAsInvalid` only sets the flag and keeps the cached customer
  object. It does not clear it.

## Model

| member | source | states |
|---|---|---|
| Qt.Value | cpp-src-gen/Kunde.cpp:144-149 | `QVariantMap::value`: the stored value for a present key, the invalid variant for an absent one |
| Qt.ToStringList | src/Auftrag.cpp:88 | `toStringList` of a list keeps one string per element |
| Qt.FromStringList | src/Auftrag.cpp:228 | a string list stored in a variant reads back as the same list |
| Qt.Int32 | cpp-src-gen/Kunde.cpp:146 | the narrowing to `int`: a value in 32-bit range, equal to the input modulo 2^32, and the input itself when it fits |
| Qt.Round | cpp-src-gen/Kunde.cpp:146 | `qRound64`: the integer within one half of the double, a half rounded up |
| Qt.RoundsToNearest | cpp-src-gen/Kunde.cpp:146 | `toInt()` of a double in `int` range is the nearest int, a half rounded up |
| Qt.NumbersConvertToInt | cpp-src-gen/Kunde.cpp:146 | a number that arrives as a whole double or as its decimal text converts to that int, its text to that double, and a whole double below 10^15 to its decimal text |
| Qt.ConversionsOfExactValues | cpp-src-gen/Kunde.cpp:146-148 | an int converts to itself, to its decimal text and to the same double; a string to itself; an absent key to 0, 0.0 and "" |
| Qt.Trimmed | cpp-src-gen/Kunde.cpp:146 | the text without white space at either end, and the text itself when it has none |
| Qt.ParseInt | cpp-src-gen/Kunde.cpp:146 | `QString::toLongLong`: a parsed value always lies in 64-bit range |
| Qt.ParseNumberString | cpp-src-gen/Kunde.cpp:146 | the decimal text `QString::number` gives parses back to the same number, as an integer and as a double |
| Qt.DigitsRoundTrip | cpp-src-gen/Kunde.cpp:146 | the digits of a natural number are decimal digits whose value is that number |
| Qt.Pow10 | src/Position.cpp:42 | a power of ten is at least one |
| Qt.Scale | src/Position.cpp:42 | ten to any integer power is positive |
| Qt.DigitsBound | src/Position.cpp:42 | k digits are worth less than 10^k, so a fraction's digits stay below one |
| Qt.Decimal | src/Position.cpp:42 | the value of ip.fp lies between the value of ip and the next integer |
| Qt.ParseMantissa | src/Position.cpp:42 | a parsed mantissa is never negative |
| Qt.ParseUnsignedReal | src/Position.cpp:42 | a parsed unsigned number, mantissa and exponent, is never negative |
| Qt.Unsigned | src/Position.cpp:42 | the text after a leading sign, or the text itself when it has none |
| Qt.DecimalText | src/Position.cpp:42 | a price that arrives as text of digits with a point converts to the decimal it denotes |
| Qt.Left | cpp-src-gen/Kunde.cpp:42 | `QString::left(n)`: the first n characters, or the whole string when n is out of range |
| Qt.Right | src/Position.cpp:38 | `QString::right(n)`: the last n characters, or the whole string when n is out of range |
| Qt.Digits | cpp-src-gen/DataManager.cpp:437 | the decimal text of a key is never empty |
| Seqs.IndexOf | cpp-src-gen/DataManager.cpp:720-730 | the first index holding x, with no earlier occurrence, or -1 exactly when x is absent |
| Seqs.RemoveAt | cpp-src-gen/DataManager.cpp:625 | `removeAt(i)` keeps the elements before i and shifts the later ones down by one |
| Seqs.RemoveOne | cpp-src-gen/DataManager.cpp:604-616 | `removeOne(x)` leaves the list unchanged when x is absent, and otherwise removes its first occurrence |
| Seqs.RemoveDuplicates | cpp-src-gen/DataManager.cpp:1173 | `removeDuplicates()` leaves no duplicate, keeps the same set of keys, never grows the list, and keeps the kept keys in the order of their first occurrence |
| Seqs.DistinctCard | cpp-src-gen/DataManager.cpp:1173 | a duplicate-free key list has as many keys as its set |
| Seqs.RemoveOneDistinct | cpp-src-gen/DataManager.cpp:1180-1183 | consuming a key from a duplicate-free list removes exactly that key and keeps the list duplicate-free |
| Seqs.IndexOfUnique | cpp-src-gen/DataManager.cpp:720-730 | an index with no earlier occurrence before it is the one `indexOf` finds |
| Seqs.FirstIndex | cpp-src-gen/DataManager.cpp:619-634 | the scan of every find-first and delete-by-key loop returns the first index with the key, or -1 |
| Seqs.IndexOfAppend | cpp-src-gen/DataManager.cpp:582-588 | appending leaves where an earlier key is found unchanged, and puts a new key at the end |
| Seqs.IndexOfPrefix | cpp-src-gen/DataManager.cpp:1173 | appending an element leaves where every earlier element is first found unchanged |
| Seqs.RemoveAtMultiset | cpp-src-gen/DataManager.cpp:625 | removing at an index removes exactly that one element |
| UuidGen.StripBraces | src/Position.cpp:37-39 | `right(len-1)` then `left(len-1)` drops exactly the first and last character |
| UuidGen.GeneratedUuidLength | src/Schlagwort.cpp:73-78 | a trimmed `{…}` UUID text has 36 characters, so a generated key is never empty |
| UuidGen.UuidSource.CreateUuid | src/Position.cpp:37 | each call returns the generator's next text and advances it |
| UuidGen.UuidSource.NewKey | src/Position.cpp:37-39 | a new key is the next generator text with its braces trimmed |
| LazyRefs.ScalarRef.Set | src/Auftrag.cpp:296-312 | a different key drops the cached customer and the invalid flag (pending, or unset for -1); the same key changes nothing |
| LazyRefs.ScalarRef.Remove | src/Auftrag.cpp:313-318 | afterwards the key is -1 and there is no customer reference |
| LazyRefs.ScalarRef.Resolve | src/Auftrag.cpp:337-346 | the key becomes the customer's number, the customer is cached, and the reference is valid and resolved |
| LazyRefs.ScalarRef.MarkInvalid | src/Auftrag.cpp:347-350 | the key and cache stay, but the reference neither has nor resolves a target |
| LazyRefs.StateClasses | src/Auftrag.cpp:319-334 | `hasAuftraggeber` holds exactly in the pending and resolved states, `isAuftraggeberResolvedAsDataObject` exactly in the resolved one |
| LazyRefs.ResolveIdempotent | src/Auftrag.cpp:337-346 | resolving twice with the same customer equals resolving once |
| LazyRefs.InvalidThenRepointed | src/Auftrag.cpp:296-312 | an invalid reference set to another key is pending again and resolves on the next pass |
| LazyRefs.KeyArray.Resolve | src/Auftrag.cpp:633-643 | a no-op once resolved; otherwise the objects become the found list and the array is resolved |
| LazyRefs.KeyArray.ExportedKeys | src/Auftrag.cpp:218-225 | the exported keys are the live objects' keys when resolved, or when objects exist but no keys; otherwise the stored keys, including the empty list of an unresolved array with neither keys nor objects |
| LazyRefs.ExportIdempotent | src/Auftrag.cpp:211-237 | exporting again after the write-back exports the same keys |
| LazyRefs.Loaded | src/Auftrag.cpp:88-91 | after a fill: the stored keys, no objects, and resolved exactly when there are no keys |
| LazyRefs.ResolutionPassCompletes | src/Auftrag.cpp:37-46 | after a pass, whatever the lookups found, `isAllResolved` holds |
| KundeEntity.Kunde.constructor | cpp-src-gen/Kunde.cpp:23-26 | a default customer has nr -1 and is not valid |
| KundeEntity.Kunde.FillFromMap | cpp-src-gen/Kunde.cpp:144-149 | each field is read from its key through QVariant's conversion: nr from an int, a rounded double or parsed text, with 0 for an absent key or text that does not parse |
| KundeEntity.Kunde.FillFromForeignMap | cpp-src-gen/Kunde.cpp:157-162 | the same under the foreign key names |
| KundeEntity.Kunde.FillFromCacheMap | cpp-src-gen/Kunde.cpp:170-175 | the same as `fillFromMap` |
| KundeEntity.Kunde.ToMap | cpp-src-gen/Kunde.cpp:197-204 | exactly the keys nr, name and ort, which read back as the three fields |
| KundeEntity.Kunde.ToForeignMap | cpp-src-gen/Kunde.cpp:211-218 | exactly the three foreign keys, which read back as the three fields |
| KundeEntity.Kunde.ToCacheMap | cpp-src-gen/Kunde.cpp:226-231 | the cache view equals the full view |
| KundeEntity.Kunde.ToSqlCache | cpp-src-gen/Kunde.cpp:110-115 | appends exactly this customer's value to each column list, so equal-length lists stay equal |
| KundeEntity.MissingNrIsZero | cpp-src-gen/Kunde.cpp:146 | a map without nr fills nr with 0, not the unset -1 |
| KundeEntity.CacheRoundTrip | cpp-src-gen/Kunde.cpp:170-175 | filling from another customer's cache view restores nr, name and ort |
| KundeEntity.Nrs | cpp-src-gen/DataManager.cpp:720-730 | the i-th key is the i-th customer's nr |
| KundeEntity.NamedPlaceholders | cpp-src-gen/Kunde.cpp:46-77 | one `:column` placeholder per column, in column order |
| KundeEntity.PositionalPlaceholders | cpp-src-gen/Kunde.cpp:78-103 | one `?` per column |
| KundeEntity.CreateTableCommand | cpp-src-gen/Kunde.cpp:28-45 | the command is `CREATE TABLE kunde (` + the column definitions joined by ", " + `);`, with no trailing separator |
| KundeEntity.CreateParameterizedInsertNameBinding | cpp-src-gen/Kunde.cpp:46-77 | `INSERT INTO kunde (nr, name, ort)  VALUES (:nr, :name, :ort) `: the columns and their named placeholders joined, none trailing |
| KundeEntity.CreateParameterizedInsertPosBinding | cpp-src-gen/Kunde.cpp:78-103 | the same columns with one `?` each |
| KundeEntity.EachIsJoinedAndSeparator | cpp-src-gen/Kunde.cpp:30-41 | appending each part followed by ", " gives the joined parts plus one trailing separator |
| KundeEntity.CutLastSeparator | cpp-src-gen/Kunde.cpp:42 | cutting the last two characters removes exactly that trailing separator |
| PositionEntity.Position.constructor | src/Position.cpp:21-24 | a default line item has an empty key and is not valid |
| PositionEntity.Position.SetParent | src/Auftrag.cpp:83 | only the owner changes |
| PositionEntity.Position.FillFromMap | src/Position.cpp:33-44 | a present non-empty uuid is kept and nothing is generated; otherwise the next generated key, trimmed; the other fields come from their keys through QVariant's conversion, the price parsed when it arrives as text; the result is valid |
| PositionEntity.Position.FillFromForeignMap | src/Position.cpp:52-63 | the same under the foreign keys |
| PositionEntity.Position.FillFromCacheMap | src/Position.cpp:71-82 | the same as `fillFromMap` |
| PositionEntity.Position.PrepareNew | src/Position.cpp:84-89 | always replaces the key with the next generated, trimmed key |
| PositionEntity.Position.ToMap | src/Position.cpp:107-115 | exactly the keys uuid, bezeichnung and Preis, which read back as the fields |
| PositionEntity.Position.ToForeignMap | src/Position.cpp:122-130 | exactly the three foreign keys, which read back as the fields |
| PositionEntity.Position.ToCacheMap | src/Position.cpp:138-143 | the cache view equals the full view |
| PositionEntity.FillFromMapRestores | src/Position.cpp:33-44 | filling from a valid line item's full view restores its key, description and price |
| PositionEntity.FillFromListRestores | src/Auftrag.cpp:76-86 | filling a list of line items from a list of full views restores each one, in order |
| PositionEntity.Uuids | src/Auftrag.cpp:480-496 | the i-th key is the i-th line item's uuid |
| PositionEntity.AsVariantList | src/Auftrag.cpp:409-416 | the full view of each line item, in list order |
| SchlagwortEntity.Schlagwort.constructor | src/Schlagwort.cpp:16-19 | a default keyword has an empty key and is not valid |
| SchlagwortEntity.Schlagwort.FillFromMap | src/Schlagwort.cpp:28-37 | a present non-empty uuid is kept; otherwise the next generated, trimmed key; the text comes from its key; valid afterwards |
| SchlagwortEntity.Schlagwort.FillFromForeignMap | src/Schlagwort.cpp:45-54 | the same under the foreign keys |
| SchlagwortEntity.Schlagwort.FillFromCacheMap | src/Schlagwort.cpp:62-71 | the same as `fillFromMap` |
| SchlagwortEntity.Schlagwort.PrepareNew | src/Schlagwort.cpp:73-78 | always replaces the key with the next generated, trimmed key |
| SchlagwortEntity.Schlagwort.ToMap | src/Schlagwort.cpp:96-102 | exactly the keys uuid and text, which read back as the fields |
| SchlagwortEntity.Schlagwort.ToForeignMap | src/Schlagwort.cpp:109-115 | exactly the two foreign keys, which read back as the fields |
| SchlagwortEntity.Schlagwort.ToCacheMap | src/Schlagwort.cpp:123-128 | the cache view equals the full view |
| SchlagwortEntity.CacheRoundTrip | src/Schlagwort.cpp:28-37 | filling from a valid keyword's cache view restores its key and text |
| SchlagwortEntity.Uuids | cpp-src-gen/DataManager.cpp:1465-1479 | the i-th key is the i-th keyword's uuid |
| AuftragEntity.Auftrag.constructor | src/Auftrag.cpp:24-35 | a default order has no keys and no date, is not valid and not all resolved |
| AuftragEntity.Auftrag.SetAuftraggeber | src/Auftrag.cpp:296-312 | the customer reference makes the `Set` transition; nothing else changes |
| AuftragEntity.Auftrag.RemoveAuftraggeber | src/Auftrag.cpp:313-318 | the reference makes the `Remove` transition |
| AuftragEntity.Auftrag.ResolveAuftraggeberAsDataObject | src/Auftrag.cpp:337-346 | a null customer changes nothing; otherwise the reference makes the `Resolve` transition under the customer's nr |
| AuftragEntity.Auftrag.MarkAuftraggeberAsInvalid | src/Auftrag.cpp:347-350 | the reference makes the `MarkInvalid` transition |
| AuftragEntity.Auftrag.CreateElementOfPositionen | src/Auftrag.cpp:423-430 | a new valid line item owned by this order, with the next generated key; the list is not touched |
| AuftragEntity.Auftrag.AddToPositionen | src/Auftrag.cpp:446-450 | appends; nothing else changes |
| AuftragEntity.Auftrag.RemoveFromPositionen | src/Auftrag.cpp:452-465 | true exactly when the item was present; removes its first occurrence; otherwise no change |
| AuftragEntity.Auftrag.ClearPositionen | src/Auftrag.cpp:466-471 | the list ends empty; nothing else changes |
| AuftragEntity.Auftrag.AddToPositionenFromMap | src/Auftrag.cpp:472-479 | appends one fresh item, owned by this order and filled from the map |
| AuftragEntity.Auftrag.RemoveFromPositionenByUuid | src/Auftrag.cpp:480-496 | true exactly when some item has the key; removes only the first such item; otherwise no change |
| AuftragEntity.Auftrag.AddToTags | src/Auftrag.cpp:590-594 | appends the keyword object; the keys and flag stay |
| AuftragEntity.Auftrag.RemoveFromTags | src/Auftrag.cpp:596-606 | true exactly when present; removes its first occurrence; otherwise no change |
| AuftragEntity.Auftrag.ClearTags | src/Auftrag.cpp:607-612 | the objects end empty; the keys and the flag stay |
| AuftragEntity.Auftrag.ResolveTagsKeys | src/Auftrag.cpp:633-643 | the keyword array makes the `Resolve` transition: a no-op once resolved, else exactly the found list, in order |
| AuftragEntity.Auftrag.BuildPositionen | src/Auftrag.cpp:76-86 | one fresh, distinct line item per list entry, in order, owned by this order and filled from that entry |
| AuftragEntity.Auftrag.LoadFields | src/Auftrag.cpp:57-91 | nr and bemerkung from their keys through QVariant's conversion (nr rounded from a double or parsed from text); datum and the customer key only when their key is present; the cached customer and invalid flag untouched; the tag keys loaded |
| AuftragEntity.Auftrag.Load | src/Auftrag.cpp:55-92 | every fill leaves `LoadedFrom`: the attributes as above, fresh line items rebuilt in map order, the tag objects emptied, and the tags resolved exactly when there are no keys |
| AuftragEntity.Auftrag.FillFromMap | src/Auftrag.cpp:55-92 | `LoadedFrom` the map, with fresh line items |
| AuftragEntity.Auftrag.FillFromForeignMap | src/Auftrag.cpp:100-137 | the same, through the line items' foreign fill |
| AuftragEntity.Auftrag.FillFromCacheMap | src/Auftrag.cpp:145-182 | the same, through the line items' cache fill |
| AuftragEntity.Auftrag.ExportTagsKeys | src/Auftrag.cpp:218-225 | the stored keys become the exported keys (the objects' uuids in order when resolved, or when objects exist without keys); nothing else changes |
| AuftragEntity.Auftrag.ToMap | src/Auftrag.cpp:211-237 | writes the keys back, then returns the map view of the new state; nothing else changes |
| AuftragEntity.Auftrag.ToForeignMap | src/Auftrag.cpp:244-270 | the same under the foreign key names, which are the same strings |
| AuftragEntity.Auftrag.ToCacheMap | src/Auftrag.cpp:278-283 | the cache view is `toMap` |
| AuftragEntity.AuftragMap | src/Auftrag.cpp:211-237 | the keys are tags, nr, bemerkung and positionen, plus auftraggeber only when not -1 and datum only when present; each reads back as its field |
| AuftragEntity.AuftragMapReadBack | src/Auftrag.cpp:55-92 | a fill reads back every attribute of the map view, the absent customer key as -1, the date when parsing inverts formatting |
| AuftragEntity.NewFilled | cpp-src-gen/DataManager.cpp:978-990 | a fresh order after one of the three fills |
| AuftragEntity.AuftragsKopf | src/Position.cpp:191-194 | the head of a line item is its parent when that is an order |
| AuftragEntity.OwnedPositionHead | src/Position.cpp:191-194 | a line item whose parent is an order names that order as its head |
| AuftragEntity.FilledFromMapView | src/Auftrag.cpp:55-92 | an order filled from a map view holds the attributes, customer key and keyword keys that went in, with the keywords resolved exactly when there are none, and one line item per item map |
| AuftragEntity.PositionenFromMapView | src/Auftrag.cpp:76-86 | line items filled from the full views of valid line items carry their keys, descriptions and prices, in order, and name the order as their parent |
| AuftragEntity.FilledFromOrderView | src/Auftrag.cpp:145-182 | an order filled from another order's map view holds its attributes, customer key, keyword keys and, for keyed line items, each line item's key, description and price |
| AuftragEntity.FillFromOrderView | src/Auftrag.cpp:145-182 | a fresh order filled through any of the three fills from an order's map view, with what `FilledFromOrderView` states |
| AuftragEntity.FillPosition | src/Auftrag.cpp:76-86 | the line item fill of the chosen view leaves the item `FilledFrom` the map and keeps its parent |
| AuftragEntity.CacheRoundTrip | src/Auftrag.cpp:145-182 | saving to the cache view and filling a new order restores the attributes, the customer key, the exported tag keys, and each keyed line item's key, description and price |
| KeyLookup.Selected | cpp-src-gen/DataManager.cpp:1169-1193 | the positions taken are increasing and in range |
| KeyLookup.SelectedMembers | cpp-src-gen/DataManager.cpp:1175-1186 | a position is taken exactly when its key is wanted and did not occur earlier |
| KeyLookup.Gather | cpp-src-gen/DataManager.cpp:1181 | the elements at the taken positions, in that order |
| KeyLookup.SelectedKeysDistinct | cpp-src-gen/DataManager.cpp:1173-1186 | no key is taken twice |
| KeyLookup.KeysAt | cpp-src-gen/DataManager.cpp:1178-1181 | the keys at the taken positions |
| KeyLookup.SelectedBound | cpp-src-gen/DataManager.cpp:1173-1186 | the result never has more entries than there are distinct wanted keys |
| KeyLookup.NothingWanted | cpp-src-gen/DataManager.cpp:1174-1176 | an empty key list gives an empty result |
| KeyLookup.SelectedStable | cpp-src-gen/DataManager.cpp:1183-1185 | once every wanted key has occurred, the rest of the scan adds nothing, so stopping early is sound |
| KeyLookup.SelectedStep | cpp-src-gen/DataManager.cpp:1177-1187 | scanning one more position takes it exactly when its key is wanted and new |
| KeyLookup.ScanStep | cpp-src-gen/DataManager.cpp:1177-1187 | one step keeps the consumed key list and the result describing the scanned prefix |
| KeyLookup.ListForKeys | cpp-src-gen/DataManager.cpp:1169-1193 | the loop returns exactly the elements at `Selected` positions: in collection order, one per distinct wanted key |
| Chunks.QuotRest | cpp-src-gen/DataManager.cpp:361-364 | repeated subtraction divides naturals: quotient times divisor plus remainder, remainder below the divisor |
| Chunks.TruncatedDivision | cpp-src-gen/DataManager.cpp:361-362 | C++ `/` and `%`: `(a/b)*b + a%b == a`, the quotient truncated toward zero, the remainder below the divisor and signed like the dividend |
| Chunks.ChunkLaps | cpp-src-gen/DataManager.cpp:361-364 | the lap count is the quotient, plus one for a non-zero remainder |
| Chunks.LapsIsCeiling | cpp-src-gen/DataManager.cpp:361-364 | for a positive chunk size the lap count is the ceiling of size / chunk, zero exactly for no customers |
| Chunks.LapsNegative | cpp-src-gen/DataManager.cpp:361-364 | a negative chunk size gives at most one lap |
| Chunks.From | cpp-src-gen/DataManager.cpp:367-413 | fromPos has the sign of the chunk size |
| Chunks.FromIsProduct | cpp-src-gen/DataManager.cpp:367-413 | fromPos of lap k is k times the chunk size |
| Chunks.WindowStep | cpp-src-gen/DataManager.cpp:367-417 | the first window is [0, min(c, n)); each step adds c to fromPos and adds c to toPos capped at n |
| Chunks.WindowInRange | cpp-src-gen/DataManager.cpp:386-390 | a window that binds anything lies within the customers, and only a positive chunk size gives one |
| Chunks.Batch | cpp-src-gen/DataManager.cpp:386-390 | the rows a lap binds are its window, and none for a chunk size that is not positive |
| Chunks.CommitStep | cpp-src-gen/DataManager.cpp:372-418 | lap k commits its window after what the earlier laps committed |
| Chunks.CommittedPrefix | cpp-src-gen/DataManager.cpp:372-418 | the windows of the first k laps tile the prefix up to fromPos of lap k, each customer once, in order |
| Chunks.BatchTiles | cpp-src-gen/DataManager.cpp:386-417 | a lap's window continues exactly where the previous ones stopped |
| Chunks.AllLapsCommitAll | cpp-src-gen/DataManager.cpp:361-418 | with a positive chunk size, all laps together bind every customer exactly once, in order |
| Chunks.NegativeCommitsNothing | cpp-src-gen/DataManager.cpp:368-390 | a chunk size that is not positive binds nothing |
| SqlCache.PragmaEffect | cpp-src-gen/DataManager.cpp:178-212 | bulkImport(true) leaves MEMORY/OFF and bulkImport(false) DELETE/FULL when all its statements get through; the pragmas stay as they were when it fails before the 5th |
| SqlCache.ImportRestoresDefaults | cpp-src-gen/DataManager.cpp:340-420 | when the restoring call gets through, the defaults are back, whatever the tuning call did |
| SqlCache.Zip | cpp-src-gen/DataManager.cpp:394-397 | the batch binds the i-th entries of the three column lists as one row |
| SqlCache.ZipAppend | cpp-src-gen/DataManager.cpp:386-390 | binding one more customer adds one more row |
| SqlCache.Database.AfterBulkImport | cpp-src-gen/DataManager.cpp:131-241 | only the pragmas change, as far as the call gets, and the call is logged |
| SqlCache.Database.AfterDrop | cpp-src-gen/DataManager.cpp:338-339 | a successful drop removes the table; the statement and its outcome are logged |
| SqlCache.Database.AfterCreate | cpp-src-gen/DataManager.cpp:347-349 | a successful create leaves an empty table; logged |
| SqlCache.Database.ExecDrop | cpp-src-gen/DataManager.cpp:338-344 | reports success exactly when the drop does not fail, with the database it leaves |
| SqlCache.Database.ExecCreate | cpp-src-gen/DataManager.cpp:347-354 | the same for the create |
| SqlCache.Database.ExecBegin | cpp-src-gen/DataManager.cpp:374-381 | the same for BEGIN TRANSACTION |
| SqlCache.Database.ExecBatch | cpp-src-gen/DataManager.cpp:392-402 | succeeds exactly when the insert does not fail and the lists are equally long; then the zipped rows join the transaction |
| SqlCache.Database.ExecEnd | cpp-src-gen/DataManager.cpp:403-410 | the same for END TRANSACTION, which commits the pending rows |
| SqlCache.LapEvents | cpp-src-gen/DataManager.cpp:374-410 | a lap runs begin, insert and end until one fails; all three succeed when none fails |
| SqlCache.RunLap | cpp-src-gen/DataManager.cpp:374-410 | only a lap whose three statements succeed commits its batch, after the rows committed before; the pragmas are untouched |
| SqlCache.StopLap | cpp-src-gen/DataManager.cpp:372-418 | the import stops at the first failing lap, or after the last lap |
| SqlCache.LapLogHasNoBulkImport | cpp-src-gen/DataManager.cpp:372-418 | the laps never call bulkImport |
| SqlCache.SaveLogBracketed | cpp-src-gen/DataManager.cpp:335-420 | every exit path starts with bulkImport(true), ends with bulkImport(false), and calls it nowhere else |
| SqlCache.LapLogStopsAtFailure | cpp-src-gen/DataManager.cpp:377-409 | no statement of a lap after the failed one runs, and every statement of the earlier laps succeeded |
| SqlCache.AllLapsComplete | cpp-src-gen/DataManager.cpp:372-418 | when no lap fails, every lap runs |
| DataManagement.Numbers | cpp-src-gen/DataManager.cpp:437-439 | the lookup key of each number is its decimal text |
| DataManagement.AuftragNrs | cpp-src-gen/DataManager.cpp:1108-1118 | the i-th key is the i-th order's nr |
| DataManagement.KundeRows | cpp-src-gen/Kunde.cpp:110-115 | the row `toSqlCache` contributes for each customer, in order |
| DataManagement.ResolutionPassResolves | cpp-src-gen/DataManager.cpp:777-801 | one pass leaves the order all resolved whatever the store holds; an order already resolved is unchanged |
| DataManagement.DataManager.constructor | cpp-src-gen/DataManager.cpp:85-113 | after initDatabase: empty collections, chunk size 10000 |
| DataManagement.DataManager.SetChunkSize | cpp-src-gen/DataManager.cpp:115-118 | only the chunk size changes; the database is untouched |
| DataManagement.DataManager.InsertKunde | cpp-src-gen/DataManager.cpp:582-588 | appends; the earlier customers keep their places; the database is untouched |
| DataManagement.DataManager.InsertKundeFromMap | cpp-src-gen/DataManager.cpp:590-602 | appends one fresh customer filled from the map; the database is untouched |
| DataManagement.DataManager.CreateKunde | cpp-src-gen/DataManager.cpp:558-565 | a fresh, invalid customer; the store is untouched |
| DataManagement.DataManager.DeleteKunde | cpp-src-gen/DataManager.cpp:604-616 | true exactly when stored; removes its first occurrence; otherwise no change; the database is untouched |
| DataManagement.DataManager.DeleteKundeByNr | cpp-src-gen/DataManager.cpp:619-634 | true exactly when some customer has nr; removes only the first; otherwise no change; the database is untouched |
| DataManagement.DataManager.DeleteAllKunde | cpp-src-gen/DataManager.cpp:539-550 | the collection ends empty; the database is untouched |
| DataManagement.DataManager.FindKundeByNr | cpp-src-gen/DataManager.cpp:720-730 | null exactly when no customer has nr, else the first that does |
| DataManagement.DataManager.ListOfKundeForKeys | cpp-src-gen/DataManager.cpp:426-450 | the customers at the `Selected` positions of their numbers' text, in collection order |
| DataManagement.DataManager.InitKundeFromCache | cpp-src-gen/DataManager.cpp:255-272 | one fresh customer per record, filled from its cache view, in record order; the database is untouched |
| DataManagement.DataManager.SaveKundeToCache | cpp-src-gen/DataManager.cpp:309-322 | the cache view of each customer, in order |
| DataManagement.DataManager.InsertAuftrag | cpp-src-gen/DataManager.cpp:970-976 | appends; the database is untouched |
| DataManagement.DataManager.InsertAuftragFromMap | cpp-src-gen/DataManager.cpp:978-990 | appends one fresh order filled from the map; the database is untouched |
| DataManagement.DataManager.CreateAuftrag | cpp-src-gen/DataManager.cpp:946-953 | a fresh, invalid order with no customer reference |
| DataManagement.DataManager.DeleteAuftrag | cpp-src-gen/DataManager.cpp:992-1004 | true exactly when stored; removes its first occurrence; the database is untouched |
| DataManagement.DataManager.DeleteAuftragByNr | cpp-src-gen/DataManager.cpp:1007-1022 | true exactly when some order has nr; removes only the first; otherwise no change; the database is untouched |
| DataManagement.DataManager.DeleteAllAuftrag | cpp-src-gen/DataManager.cpp:927-938 | the collection ends empty; the database is untouched |
| DataManagement.DataManager.FindAuftragByNr | cpp-src-gen/DataManager.cpp:1108-1118 | null exactly when no order has nr, else the first that does |
| DataManagement.DataManager.ListOfAuftragForKeys | cpp-src-gen/DataManager.cpp:814-838 | the orders at the `Selected` positions, in collection order |
| DataManagement.DataManager.ResolveAuftragReferences | cpp-src-gen/DataManager.cpp:777-801 | a non-null order ends all resolved, with the references `ResolvedCustomer`/`ResolvedTags` give; an already resolved order is unchanged; attributes and line items stay |
| DataManagement.DataManager.ResolveAuftraggeberOf | cpp-src-gen/DataManager.cpp:787-796 | binds the first customer with the key, or marks the reference invalid |
| DataManagement.DataManager.ResolveTagsOf | cpp-src-gen/DataManager.cpp:797-800 | resolves the keys against the keyword lookup |
| DataManagement.DataManager.ResolveReferencesForAllAuftrag | cpp-src-gen/DataManager.cpp:802-809 | every stored order ends all resolved; nothing but the references changes |
| DataManagement.DataManager.InitAuftragFromCache | cpp-src-gen/DataManager.cpp:736-753 | one fresh order per record, filled from its cache view, in order; the database is untouched |
| DataManagement.DataManager.InsertSchlagwort | cpp-src-gen/DataManager.cpp:1325-1331 | appends; the database is untouched |
| DataManagement.DataManager.InsertSchlagwortFromMap | cpp-src-gen/DataManager.cpp:1333-1345 | appends one fresh keyword filled from the map; the database is untouched |
| DataManagement.DataManager.CreateSchlagwort | cpp-src-gen/DataManager.cpp:1301-1308 | a fresh keyword with the next generated key; the store is untouched |
| DataManagement.DataManager.DeleteSchlagwort | cpp-src-gen/DataManager.cpp:1347-1359 | true exactly when stored; removes its first occurrence; the database is untouched |
| DataManagement.DataManager.DeleteSchlagwortByUuid | cpp-src-gen/DataManager.cpp:1361-1380 | false for an empty key; otherwise true exactly when some keyword has it, removing only the first; the database is untouched |
| DataManagement.DataManager.DeleteAllSchlagwort | cpp-src-gen/DataManager.cpp:1282-1293 | the collection ends empty; the database is untouched |
| DataManagement.DataManager.FindSchlagwortByUuid | cpp-src-gen/DataManager.cpp:1465-1479 | null for an empty key; otherwise null exactly when absent, else the first match |
| DataManagement.DataManager.ListOfSchlagwortForKeys | cpp-src-gen/DataManager.cpp:1169-1193 | the keywords at the `Selected` positions, in collection order |
| DataManagement.DataManager.InitSchlagwortFromCache | cpp-src-gen/DataManager.cpp:1124-1141 | one fresh keyword per record, filled from its cache view, in order; the database is untouched |
| DataManagement.DataManager.SaveSchlagwortToCache | cpp-src-gen/DataManager.cpp:1150-1163 | the cache view of each keyword, in order |
| DataManagement.DataManager.BulkImport | cpp-src-gen/DataManager.cpp:131-241 | runs the pragma statements until the first failure, as `AfterBulkImport` states |
| DataManagement.DataManager.BatchColumns | cpp-src-gen/DataManager.cpp:383-390 | the column lists of a lap zip to exactly the rows of its window |
| DataManagement.DataManager.InsertChunk | cpp-src-gen/DataManager.cpp:374-410 | succeeds exactly when the lap's three statements do, leaving `RunLap` of its window |
| DataManagement.DataManager.InsertChunks | cpp-src-gen/DataManager.cpp:357-418 | the loop leaves `RunLaps` over the C++ lap count, lap k binding window k, stopping at the first failed lap |
| DataManagement.DataManager.SaveKundeToSqlCache | cpp-src-gen/DataManager.cpp:332-421 | leaves the database `SavedKunde` gives for the customers' rows; the collections stay |
| DataManagement.ImportedResult | cpp-src-gen/DataManager.cpp:335-418 | the import keeps the tuned pragmas, logs drop, create and the laps until the first failure, and leaves the table by exit path |
| DataManagement.SavedKundeLog | cpp-src-gen/DataManager.cpp:335-420 | the whole log is bulkImport(true), drop, create, the laps until the first failure, then bulkImport(false) |
| DataManagement.SavedKundeTable | cpp-src-gen/DataManager.cpp:338-418 | a failed drop keeps the old table, a failed create leaves none, otherwise the table holds exactly what the completed laps committed |
| DataManagement.SavedKundePragmas | cpp-src-gen/DataManager.cpp:335-420 | the pragmas end as the tuning and then the restoring call leave them |
| DataManagement.RunLapsResult | cpp-src-gen/DataManager.cpp:372-418 | the laps log their statements until the first failure and commit exactly the windows of the completed laps |
| DataManagement.InsertedKundeFound | cpp-src-gen/DataManager.cpp:582-588 | an inserted customer is found by its nr unless an earlier one has it; the first match wins |
| DataManagement.DeletedKundeByNr | cpp-src-gen/DataManager.cpp:619-634 | deleting by nr removes one customer with that nr and no other |
| DataManagement.KundeCacheRoundTrip | cpp-src-gen/DataManager.cpp:255-272 | loading the records a save produced gives the same customers, field by field, in order |
| DataManagement.SchlagwortCacheRoundTrip | cpp-src-gen/DataManager.cpp:1124-1141 | loading the saved records of valid keywords gives the same keys and texts, in order |
| DataManagement.ImportCommitsAll | cpp-src-gen/DataManager.cpp:361-418 | with no failure and a positive chunk size, the table holds every customer once, in order |
| DataManagement.FailureKeepsPrefix | cpp-src-gen/DataManager.cpp:372-418 | after a failure the table keeps what the ended laps committed: a prefix of the customers |

## Left out

- JSON file I/O (`readFromCache`, `writeToCache`, the asset fallback) and opening or copying the database file: the caches are modelled as record lists, and the database as a value the store holds.
- `initKundeFromSqlCache` and `Kunde::fillSqlQueryPos` / `fillFromSqlQuery`: they depend on `QSqlRecord` column lookup.
- `saveAuftragToCache`: only its per-order step is modelled, as `AuftragEntity.Auftrag.ToCacheMap`. That method's `ensures` give the exported map and the keyword keys it writes back. The loop over the collection is not modelled. An order listed twice would be exported twice, and `LazyRefs.ExportIdempotent` shows that the second export writes the same keys.
- DataManagement.DataManager.ResolveReferencesForAllAuftrag: states that every order ends resolved, with its attributes and line items kept. It does not state which customer and keywords each order resolves to. `ResolveAuftragReferences` states that for one order, as `ResolvedCustomer` and `ResolvedTags` of the references it held before.
- The GroupDataModel UI helpers, `QDeclarativeListProperty` callbacks, signals, `deleteLater`, `qmlRegisterType`, `init`, `finish`, `onManualExit`, logging, and the `undoCreate…` helpers, which only delete an object.
- Plain getters and setters other than the customer reference: they set a field and emit a signal.
- The pragma read-back queries of `bulkImport` are counted as statements that can fail, but their values are not modelled.
- QUuid generation is modelled as a generator whose texts are left open. QDate parsing and formatting are function parameters. `double` prices are modelled as reals.
- DataManagement.DataManager.SaveKundeToSqlCache: requires a non-zero chunk size, because the source divides by it; the 32-bit overflow of `fromPos`/`toPos` for sizes near `INT_MAX` is not modelled.
- SqlCache: whether a statement succeeds is fixed per database (the set of failing statements and how far each `bulkImport` call gets), not decided by SQLite at run time.
- DataManagement.DataManager.InsertChunk: the rows of the customers are a ghost parameter tied to the collection by its precondition.
- AuftragEntity.Auftrag.Load: assigns the fields one after another rather than in the source's order, and the duplicate-freedom of the rebuilt line items is stated by `BuildPositionen`, not by `Load`.
- Qt.ToStr: a double that is not a whole number below 10^15 in magnitude converts to "" in the model, where Qt formats it with the 'g' format and 15 significant digits. Lists, maps and a one-element string list also convert to "". The entity codecs store only ints and strings under their string keys.
- Qt.ParseReal: infinities, NaN, hexadecimal text and the rounding of decimal text to the nearest double are not modelled. Prices are exact reals.
- Qt.ToInt: a double outside the 64-bit range, where the C++ conversion in `qRound64` is undefined, is rounded without a bound. Variants of other types (bool, dates) are not part of `Variant`, because the entity codecs never store them.
- Qt.ToInt: an `IntV` is returned as it is. `IntV` stands for a QVariant holding a C++ `int`, whose value is already in 32-bit range, because the entity codecs store only `int` fields. A `qlonglong` variant, which `toInt` would narrow, is not part of `Variant`.
- Qt.IsSpace: white space is the ASCII space and the characters 9 to 13. Other Unicode spaces that QString's trimming also skips are not modelled.
- AuftragEntity.CacheRoundTrip: states the round trip for line items with a non-empty key; a keyless item receives a generated key on reload.
