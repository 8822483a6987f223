# BluDex catalogue, filter engine and loader — a Dafny model

BluDex is a game plugin that shows the catalogue of blue-magic spells in a
window. Each spell can be narrowed down by seven categories:

- rank;
- type;
- aspect;
- status effect;
- target;
- cast time;
- recast time.

This project models the three parts of the plugin that carry its logic.

- **Category catalogue** (`structures.dfy`, module `Structures`). This covers:
  - the seven closed enums and their underlying values, which are bit flags for target and aspect;
  - the display metadata attached to every member (icon id, label, "filterable" flag);
  - the per-spell record `ActionData`.

  Reflection over attributes becomes one metadata function per enum.
- **Loader** (`ingestion.dfy`, module `Ingestion`; .NET string helpers in `strings.dfy`, the stable sort in `ordering.dfy`). For every non-zero AozAction row, the loader:
  - joins the row with its Action, AozActionTransient and ActionTransient rows;
  - keeps the plain text payloads of the rich-text columns;
  - parses the three-part stats text into a type, an ordered aspect list and a rank, by enum member name;
  - composes the target mask from two flag columns and the effect list from ten positional flag columns.

  The storage is then sorted by spell number. `Plugin.LoadData` is the imperative loop, proved against the functional `LoadRows` and `Catalog`. The game-data sheets and the decoded rich-text payloads are inputs.
- **Filter engine** (`filter.dfy`, module `Filter`). `FilterEngine` is a class that holds:
  - the dictionary from every enum member to an on/off flag;
  - the visible list.

  Its methods populate the dictionary, flip one key from a button, clear all keys and recompute the visible list. `IsActionFiltered` is the per-record test. Within one category the switched-on keys are alternatives; across categories the tests intersect. `AdmittedByAll` is the reference meaning it is proved against.

C# casts to an enum are not range-checked. So the record's rank, cast time and recast time are kept as raw integers, and `RankOf`, `CastOf` and `RecastOf` name the member, if any. A dictionary lookup of a value that names no member throws `KeyNotFoundException` in the source. Here it yields `None`, and it is propagated through the short-circuit `||` in the source's order.

Where the code and the design description of the plugin disagree, the model follows the code:

- **The filter dictionary holds every member.** This includes the synthetic combination members `SelfAllyOrEnemy`, `PiercingFire` and `BluntEarth`. The "filterable" flag is never consulted. The only exclusion is that `SelfAllyOrEnemy` gets no button (`BluDex/PluginUi.cs:186`), so only it is never toggled.
- **Aspects are parsed with `Enum.Parse`.** So `None`, `PiercingFire` and `BluntEarth` are accepted aspect names.
- **The type is parsed by member name.** `Magic` is accepted; the label `Magical` is an unknown type (`Ingestion.ParseStatsRejectsLabel`).
- **A failed load leaves a partial catalogue.** The exception is caught in `Initialize`, so the records appended before the failure stay published, unsorted.
- **The sort is stable but not strict.** `OrderBy` keeps records with equal numbers in row order.
- **A record can carry the combination target.** When both target columns are set, the stored target is `SelfOrAlly | Enemy`, the underlying value of `SelfAllyOrEnemy`.
- **Aspects are a list.** `ActionData` declares a single `Aspect` field (`BluDex/Structures.cs:113`), but every use site reads and writes an array `Aspects`. The model has `aspects: seq<SpellAspect>`.

## Model

| member | source | states |
|---|---|---|
| Structures.UiDataOfText | BluDex/Structures.cs:92 | the one-argument attribute has icon 0, is filterable and carries the label |
| Structures.DefaultUiData | BluDex/Structures.cs:94-99 | the default attribute has icon 0, no label and is filterable |
| Structures.TargetBits | BluDex/Structures.cs:7-14 | a target member is a combination exactly when its value is not a single bit; all values are below 8 |
| Structures.TargetOf | BluDex/Structures.cs:7-14 | decoding a mask names the member with exactly that value, and fails only when no member has it |
| Structures.TargetUi | BluDex/Structures.cs:10-13 | negative icon exactly on the combination member, which alone is not filterable; every member has a label |
| Structures.TypeFromName | BluDex/Structures.cs:16-20 | parsing names the type whose member name is the text, and fails only when no member has that name |
| Structures.TypeUi | BluDex/Structures.cs:18-19 | both types have a positive game icon and are filterable |
| Structures.AspectBits | BluDex/Structures.cs:22-37 | an aspect member is a combination exactly when its value is not a single bit; the values fit in ten bits |
| Structures.AspectFromName | BluDex/Structures.cs:22-37 | parsing names the aspect whose member name is the text, and fails only when no member has that name |
| Structures.AspectNameRoundTrip | BluDex/Structures.cs:25-36 | every aspect parses back from its member name, and no member name contains the '/' separator |
| Structures.AspectUi | BluDex/Structures.cs:25-36 | negative icons exactly on the two combination members, which alone are not filterable |
| Structures.EffectUi | BluDex/Structures.cs:39-51 | effect k has icon 72461 + k, is filterable and has a label |
| Structures.RankOf | BluDex/Structures.cs:53-60 | a raw rank value names a member exactly when it is 0..4, and that member has the value |
| Structures.RankUi | BluDex/Structures.cs:55-59 | rank k is labelled with exactly k + 1 star glyphs, so label length minus one is the rank |
| Structures.CastOf | BluDex/Structures.cs:62-71 | a raw cast value names the member with that value, and fails only when no member has it |
| Structures.RecastOf | BluDex/Structures.cs:73-82 | a raw recast value names the member with that value, and fails only when no member has it |
| Structures.CastUi | BluDex/Structures.cs:64-70 | cast members have icon 0, are filterable and carry a label |
| Structures.RecastUi | BluDex/Structures.cs:75-81 | recast members have icon 0, are filterable and carry a label |
| Structures.CastLabel | BluDex/Structures.cs:64-70 | each cast member's label, read as seconds, is its underlying value in 100 ms units |
| Structures.RecastLabel | BluDex/Structures.cs:75-81 | each recast member's label, read as seconds, is its underlying value in 100 ms units |
| Structures.DurationLabelsMatchValues | BluDex/Structures.cs:62-82 | every cast and recast label, read as seconds, is the member's value in 100 ms units |
| Structures.TargetFlagsAreBits | BluDex/Structures.cs:7-14 | the real target members are disjoint bits, and SelfAllyOrEnemy is their OR |
| Structures.AspectFlagsAreBits | BluDex/Structures.cs:22-37 | the real aspect members are pairwise disjoint bits, and each combination is the OR of its two parts |
| Structures.UnderlyingValuesDistinct | BluDex/Structures.cs:7-82 | no two members of one enum share an underlying value, so dictionary keys never alias |
| Strings.Split | BluDex/BluDexPlugin.cs:95 | splitting yields at least one piece and no piece contains the separator |
| Strings.SplitJoin | BluDex/BluDexPlugin.cs:95 | splitting a join of separator-free pieces gives the pieces back |
| Strings.JoinSplit | BluDex/BluDexPlugin.cs:95 | joining the pieces of a split with the separator gives the text back |
| Strings.TrimStart | BluDex/BluDexPlugin.cs:99 | the result is the suffix left after exactly the leading white space is dropped |
| Strings.TrimEnd | BluDex/BluDexPlugin.cs:99 | the result is the prefix left after exactly the trailing white space is dropped |
| Strings.Trim | BluDex/BluDexPlugin.cs:99 | the trimmed text is the slice of the input with only white space before and after it, and neither starts nor ends with white space |
| Strings.TrimNoWhiteSpace | BluDex/BluDexPlugin.cs:99 | a text without white space is left unchanged by trimming |
| Strings.ConcatAppend | BluDex/BluDexPlugin.cs:158 | concatenating two lists of parts is concatenating their concatenations |
| Ordering.InsertByNumberSorted | BluDex/BluDexPlugin.cs:142 | inserting one record into a list sorted by number keeps it sorted |
| Ordering.InsertByNumberPermutes | BluDex/BluDexPlugin.cs:142 | inserting one record adds exactly that record to the multiset of records |
| Ordering.InsertByNumberStable | BluDex/BluDexPlugin.cs:142 | an inserted record lands after every earlier record with the same number |
| Ordering.SortByNumberSorted | BluDex/BluDexPlugin.cs:142 | the sorted storage is non-decreasing by spell number |
| Ordering.SortByNumberPermutes | BluDex/BluDexPlugin.cs:142 | the sorted storage is a permutation of the unsorted one |
| Ordering.SortByNumberStable | BluDex/BluDexPlugin.cs:142 | records with equal numbers keep their relative order |
| Ingestion.TextParts | BluDex/BluDexPlugin.cs:145-154 | no more parts than payloads, and no part starts with the control marker |
| Ingestion.TextPartsMembers | BluDex/BluDexPlugin.cs:148-151 | a string is a part exactly when a text payload carries it and it does not start with the marker |
| Ingestion.TextPartsAppend | BluDex/BluDexPlugin.cs:148-152 | the parts keep payload order: the parts of a concatenation are the concatenated parts |
| Ingestion.PlainTextAppend | BluDex/BluDexPlugin.cs:156-159 | the plain text of a concatenation of payloads is the concatenation of the plain texts |
| Ingestion.ComposeTarget | BluDex/BluDexPlugin.cs:101-107 | Enemy bit iff the enemy column, SelfOrAlly bit iff the ally column, Untargetable iff neither; never 0 and always a member's value |
| Ingestion.EffectAt | BluDex/BluDexPlugin.cs:109-120 | the effect at position p is the effect with ordinal p |
| Ingestion.ComposeEffects | BluDex/BluDexPlugin.cs:109-120 | an effect is listed iff its column is set, in strictly increasing declaration order (no duplicates) |
| Ingestion.ParseAspects | BluDex/BluDexPlugin.cs:95-97 | on success one aspect per piece, each named by its piece, in order; on failure the first unknown piece is reported |
| Ingestion.ParseStats | BluDex/BluDexPlugin.cs:91-99 | on success the type is named by part 0, the aspects by the '/'-pieces of part 1, the rank is trimmed part 2's length minus one; failure only for a missing part or an unknown name |
| Ingestion.AspectsTextRoundTrip | BluDex/BluDexPlugin.cs:95-97 | joining aspect names with '/' and splitting and parsing them gives the aspect list back |
| Ingestion.ParseStatsRoundTrip | BluDex/BluDexPlugin.cs:91-99 | a stats text written from a type, aspects and k + 1 stars parses back to exactly that type, those aspects and rank k |
| Ingestion.ParseStatsExample | BluDex/BluDexPlugin.cs:93-99 | "Magic", "Piercing/Fire", three stars parse to Magic, [Piercing, Fire], rank value 2 |
| Ingestion.ParseStatsRejectsLabel | BluDex/BluDexPlugin.cs:93 | the display label "Magical" is an unknown type name |
| Ingestion.BuildRecordJoin | BluDex/BluDexPlugin.cs:86-139 | a record is built iff the three joined rows exist and the stats parse; each field comes from the row the source reads it from; the target and the effect list are exactly the composed mask and the ordered effect list |
| Ingestion.NonZeroRows | BluDex/BluDexPlugin.cs:82-85 | the processed rows are exactly the AozAction rows with a non-zero id |
| Ingestion.NonZeroRowsAppend | BluDex/BluDexPlugin.cs:82-85 | the rows are processed in row order: those of a concatenation are those of the first block, then those of the second |
| Ingestion.LoadEachStep | BluDex/BluDexPlugin.cs:82-140 | one iteration: skip row 0, stop at a failing row, otherwise append its record |
| Ingestion.LoadEachOneRecordPerRow | BluDex/BluDexPlugin.cs:82-140 | the i-th record is built from the i-th non-zero row; all rows yield a record unless one fails, and that row's error ends the load |
| Ingestion.LoadRowsYieldsOneRecordPerRow | BluDex/BluDexPlugin.cs:82-140 | every non-zero row yields exactly one record in row order, up to the first row whose join or parse fails |
| Ingestion.CatalogOfFinishedLoad | BluDex/BluDexPlugin.cs:142 | a finished load publishes every built record, sorted by number, stable on ties |
| Ingestion.Plugin.Initialize | BluDex/BluDexPlugin.cs:41-48 | the storage is the sorted catalogue when the load finishes, and the unsorted prefix when it throws |
| Ingestion.Plugin.AppendRecords | BluDex/BluDexPlugin.cs:82-140 | the foreach over the rows reports the first failure, and the storage gains exactly the records built before it, in row order |
| Ingestion.Plugin.LoadData | BluDex/BluDexPlugin.cs:76-143 | reports the load's failure; the storage gains the built records, sorted by number only if every row succeeded |
| Filter.AllKeys | BluDex/PluginUi.cs:56-62 | every member of the seven enums is in the population list |
| Filter.FreshFilter | BluDex/PluginUi.cs:53-63 | the populated dictionary has every member as a key, all switched off |
| Filter.RankKey | BluDex/PluginUi.cs:338 | a raw rank boxes to a dictionary key exactly when it is 0..4, the key of the member with that value |
| Filter.CastKey | BluDex/PluginUi.cs:339 | a raw cast value boxes to the key of the member with that value, or to none when no member has it |
| Filter.RecastKey | BluDex/PluginUi.cs:340 | a raw recast value boxes to the key of the member with that value, or to none when no member has it |
| Filter.ScalarKeyIsTheOnlyMatch | BluDex/PluginUi.cs:337-340 | for type, rank, cast and recast, the only key matching a record is the one its value boxes to |
| Filter.ClauseMeaning | BluDex/PluginUi.cs:332-340 | each category's operand hides the record exactly when that category has a key on and no switched-on key matches; it throws exactly when its lookup fails |
| Filter.FilteredMeansNotAdmitted | BluDex/PluginUi.cs:330-341 | when the test does not throw, a record is hidden iff some category with a key on admits it by none of its switched-on keys |
| Filter.FilterThrowsOnlyOnFailedLookup | BluDex/PluginUi.cs:330-341 | the test throws exactly when some switched-on scalar category cannot find the record's key and every category before it in the `||` chain admits the record without throwing |
| Filter.TotalFilterNeverThrows | BluDex/PluginUi.cs:337-340 | with every member a key, records whose rank, cast and recast name members never throw |
| Filter.NoKeyOnHidesNothing | BluDex/PluginUi.cs:332-340 | with no key switched on no record is hidden |
| Filter.SingleTypeFilter | BluDex/PluginUi.cs:337 | with only one type key on, exactly the records of the other type are hidden |
| Filter.TypeAndRankIntersect | BluDex/PluginUi.cs:337-338 | a type key and a rank key intersect; the type is tested first, and a rank value naming no member throws |
| Filter.AspectsAreAlternatives | BluDex/PluginUi.cs:334 | with two aspect keys on, a record is hidden iff it has neither aspect |
| Filter.VisibleOfDefined | BluDex/PluginUi.cs:327 | the visible list is computed exactly when the test throws for no catalogue record |
| Filter.VisibleOfMembers | BluDex/PluginUi.cs:327 | the visible records are exactly the catalogue records every category admits |
| Filter.VisibleOfAppend | BluDex/PluginUi.cs:327 | the visible list of a concatenation is the concatenation of the visible lists (order preserved) |
| Filter.WhereNotHiddenMembers | BluDex/PluginUi.cs:327 | the kept records are exactly the input records the test leaves unhidden, no more of them than the input |
| Filter.VisibleOfNoKeyOn | BluDex/PluginUi.cs:327 | with no key on, the visible list is the whole catalogue in order |
| Filter.DeclaredCatalogNeverThrows | BluDex/PluginUi.cs:327 | with every member a key, the visible list of a catalogue of declared records is always computed |
| Filter.FilterEngine.PopulateSpellFilter | BluDex/PluginUi.cs:53-63 | every catalogue record visible, every member of every enum a key and off |
| Filter.FilterEngine.SwitchOff | BluDex/PluginUi.cs:56-62 | the listed keys are added or switched off; all other keys keep their state |
| Filter.FilterEngine.RecalculateVisibleActions | BluDex/PluginUi.cs:325-328 | the visible list becomes the records the dictionary does not hide, or stays unchanged when the test throws; the dictionary is untouched |
| Filter.FilterEngine.Toggle | BluDex/PluginUi.cs:225-241 | only the clicked key flips, the key set is unchanged, the invariant holds, the list is recomputed and never throws for a declared catalogue |
| Filter.FilterEngine.ClearFilters | BluDex/PluginUi.cs:250-267 | every key switched off with no key added or removed (the freshly populated dictionary), and the whole catalogue visible |
| Filter.ToggleTwiceRestores | BluDex/PluginUi.cs:239 | two clicks on the same button restore the dictionary |

## Left out

- Enum parsing: `Enum.Parse` also accepts surrounding white space, numerals and comma-separated flag lists; the model accepts exact member names only.
- `StartsWith("\u0003")` in the payload filter is culture-sensitive in .NET; the model compares the first character ordinally. A culture-aware comparison may treat the control character U+0003 as ignorable, in which case `StartsWith` would hold for every text payload and no part would be kept; the model does not capture that reading.
- Ingestion.ParseStats: the rank is `Length` of the trimmed third part, which in .NET counts UTF-16 code units, while the model counts characters. They agree for the star glyph U+2605, but a character outside the Basic Multilingual Plane would count twice in the source and once in the model.
- The unlock fields `UnlockLink` and `IsUnlocked` are declared but never assigned, so the record omits them.
- Textures and icons: `LoadTextures`, `GetTex`, `LoadIcon`, `LoadImage`, the texture dictionary and the unused `GetIcon` call are foreign calls into the game client; icon ids are kept as data only.
- ImGui drawing, window and button layout, tooltips, colours and all float arithmetic are left out. The only layout fact modelled is that the combined target member has no button (`Filter.HasButton`, the precondition of `Toggle`).
- The button handlers are modelled as `Toggle` and `ClearFilters`, without the draw calls around them. `PopulateSpellFilter` fills the dictionary in one pass over the seven enums' members, in the order `Enum.GetValues` returns them (by underlying value, so each combination aspect sits after its larger part).
- Filter.FilterEngine.ClearFilters: assumes a runtime (.NET Core 3.0 and later) where overwriting a value while enumerating `SpellFilter.Keys` leaves the enumeration valid. On .NET Framework 4.x that write invalidates the enumerator: the second `MoveNext` throws `InvalidOperationException`, so only the first key in insertion order (rank One) is switched off and the list is not recomputed. The model does not capture that behaviour.
- `Filter.FilterEngine.Toggle` requires `HasButton` and the engine invariant, because the click handlers are only reachable through drawn buttons over the populated dictionary.
- The rich-text decoder (`SeStringManager.Parse`) and the Excel sheet accessors are game-client code: the decoded payloads and the rows are inputs. A missing joined row, which surfaces as a null dereference, is an explicit `LoadError`.
- Integer widths: row ids, numbers and durations are `uint`/`ushort` in the game data. The model uses `nat` and does not model wrap-around, which the game data cannot reach.
- Plugin lifecycle, the chat command, configuration, logging, the debug inspectors and the address resolver do no catalogue or filter work.
