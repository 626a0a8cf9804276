# Meal planner core in Dafny

This project models the core of a console meal planner's inventory and command layer:

- **Units** (`UnitConverter.java`): unit multipliers, two-decimal rounding, the conversions within mass (kg, g) and volume (l, dl, ml), autoMergeUnit, the standard-unit conversions and the in-place updates of a `Measurement`.
- **Ingredients**: an ingredient batch as a value, its conversion, and the merge of two batches with the same expiry day.
- **Storage** (`IngredientStorage.java`): the ingredient map, filed by a key derived from the name.
  - Adding merges or appends. Removing drops a key once its list is empty.
  - The sufficiency check rewrites the stored batches into the required unit.
  - The sweep removes expired batches; there are also the lookups and value totals.
- **Text** and **Lines**: Java's `strip`, `isBlank`, `toLowerCase`, the `\s+` split with limit 3, the number parsing, and the pure reads over one console line.
- **Scanner** (`InputScanner.java`): a class over a fixed sequence of console lines and a read position. It has the `next*` and `fetch*` reads and the four `collectValid*` retry loops, each proved against a retry specification.
- **Commands**:
  - `Command.java`: the field copy from the user's input, `hasSubcommand`, `processCommand` and the prompt-once `getInputString`.
  - `AddCommand.java`: the subcommand routing, with the prompt-if-empty argument of `addStorage` and `addIngredient`.
- **ScannerTests**: the scanner tests' cases.

Where the source works in place, the model does too: a `Measurement` class whose conversion methods update its fields, an `IngredientStorage` class whose map field is reassigned, an `InputScanner` whose position advances, and command classes whose argument field is set by prompting. Each method's contract ties the new state to a specification function of the old state, and the lemmas prove what the source promises about that function.

Inputs that Java takes from its environment are parameters here:

- the console is the scanner's sequence of lines;
- `LocalDate.now()` is a `today` day number;
- `Utility.createKey` is the storage's `createKey` function, from a name to a key.

Exceptions are `Result` and `Outcome` values. The abort word is `Cancelled`, and running out of lines is `Exhausted`. The abort word is taken to escape the retry loops (see "## Left out").

## Model

| member | source | states |
|---|---|---|
| Units.Multiplier | src/main/java/dev/nheggoe/mealplanner/util/unit/UnitConverter.java:25-36 | every multiplier is at least 1, and it is exactly 1 for the base unit of the unit's family (kg, l) |
| Units.RatioOfMultipliers | src/main/java/dev/nheggoe/mealplanner/util/unit/UnitConverter.java:105-148 | the literal factor each convertTo* method passes for a source unit is the target's multiplier divided by the source's |
| Units.Round2 | src/main/java/dev/nheggoe/mealplanner/util/unit/UnitConverter.java:251-253 | the rounded value lies within half a hundredth of the input (round half up) |
| Units.Round2IsCents | src/main/java/dev/nheggoe/mealplanner/util/unit/UnitConverter.java:251-253 | rounding always yields a whole number of hundredths |
| Units.Round2NonNegative | src/main/java/dev/nheggoe/mealplanner/util/unit/UnitConverter.java:251-253 | rounding a non-negative value gives a non-negative value |
| Units.Round2OfCents | src/main/java/dev/nheggoe/mealplanner/util/unit/UnitConverter.java:251-253 | a value already in whole hundredths is left unchanged, so rounding is idempotent |
| Units.StandardUnitPrice | src/main/java/dev/nheggoe/mealplanner/util/unit/UnitConverter.java:45-48 | the price is the unit price times the unit's multiplier, to within half a hundredth |
| Units.ConvertSolid | src/main/java/dev/nheggoe/mealplanner/util/unit/UnitConverter.java:197-210 | succeeds exactly on a reading in kg or g (otherwise the illegal-operation error, or the null-unit failure) and lands on the target unit |
| Units.ConvertLiquid | src/main/java/dev/nheggoe/mealplanner/util/unit/UnitConverter.java:224-242 | succeeds exactly on a reading in l, dl or ml and lands on the target unit |
| Units.Convert | src/main/java/dev/nheggoe/mealplanner/util/unit/UnitConverter.java:105-148 | a conversion that goes through is in the target unit |
| Units.ConvertMeaning | src/main/java/dev/nheggoe/mealplanner/util/unit/UnitConverter.java:105-148 | no unit fails as a missing unit; a unit of the other family fails as incompatible; a unit of the same family gives the amount times the ratio, rounded, in the target unit |
| Units.ToKGTable | src/main/java/dev/nheggoe/mealplanner/util/unit/UnitConverter.java:115-118 | convertToKG's factors (1 from kg, 0.001 from g) are the ratio to kg |
| Units.ToGramsTable | src/main/java/dev/nheggoe/mealplanner/util/unit/UnitConverter.java:105-108 | convertToGrams's factors (1000 from kg, 1 from g) are the ratio to g |
| Units.ToLiterTable | src/main/java/dev/nheggoe/mealplanner/util/unit/UnitConverter.java:125-128 | convertToLiter's factors (1, 0.1, 0.001 from l, dl, ml) are the ratio to l |
| Units.ToDeciLiterTable | src/main/java/dev/nheggoe/mealplanner/util/unit/UnitConverter.java:135-138 | convertToDeciLiter's factors (10, 1, 0.01) are the ratio to dl |
| Units.ToMilliLiterTable | src/main/java/dev/nheggoe/mealplanner/util/unit/UnitConverter.java:145-148 | convertToMilliLiter's factors (1000, 100, 1) are the ratio to ml |
| Units.ConvertIsCents | src/main/java/dev/nheggoe/mealplanner/util/unit/UnitConverter.java:197-253 | every successful conversion has at most two decimals |
| Units.ConvertNonNegative | src/main/java/dev/nheggoe/mealplanner/util/unit/UnitConverter.java:197-253 | a non-negative amount stays non-negative through any conversion |
| Units.RoundTrip | src/main/java/dev/nheggoe/mealplanner/util/unit/UnitConverter.java:105-148 | converting from a base unit to a finer unit of its family and back returns the amount to within 0.01, and exactly when it has two decimals |
| Units.PriceIsQuantityConversion | src/main/java/dev/nheggoe/mealplanner/util/unit/UnitConverter.java:45-48 | standardUnitPrice(u, p) is the conversion of p from the family's base unit to u |
| Units.CrossFamilyFails | src/main/java/dev/nheggoe/mealplanner/util/unit/UnitConverter.java:197-242 | a reading of one family never converts, directly or through autoMergeUnit, to a unit of the other |
| Units.AutoMerge | src/main/java/dev/nheggoe/mealplanner/util/unit/UnitConverter.java:158-172 | a null target or a null unit leaves the reading as it is; otherwise it succeeds exactly when both units are of one family, and a changed reading is in the target unit |
| Units.Standardize | src/main/java/dev/nheggoe/mealplanner/util/unit/UnitConverter.java:57-67 | a type other than SOLID or LIQUID leaves the reading alone; SOLID succeeds exactly on a mass and gives kg, LIQUID exactly on a volume and gives l |
| Units.StandardData | src/main/java/dev/nheggoe/mealplanner/util/unit/UnitConverter.java:78-87 | no data exactly for a type other than SOLID or LIQUID; otherwise the standardized reading or its error |
| Units.ConversionExamples | src/test/java/edu/ntnu/idi/bidata/util/unit/UnitConverterTest.java:30-73 | the converter tests' values: 12345.6 g is 12.35 kg, 123.456 dl is 12.35 l, 123.46 dl and 12345.6 ml, 3 kg is 3000 g |
| Units.UpdateMeasurement | src/main/java/dev/nheggoe/mealplanner/util/unit/UnitConverter.java:181-184 | the measurement's amount and unit become the data's |
| Units.ConvertToGrams | src/main/java/dev/nheggoe/mealplanner/util/unit/UnitConverter.java:105-108 | on success the measurement holds its conversion to g; when the conversion throws it is unchanged and the error is reported |
| Units.ConvertToKG | src/main/java/dev/nheggoe/mealplanner/util/unit/UnitConverter.java:115-118 | the same, for kg |
| Units.ConvertToLiter | src/main/java/dev/nheggoe/mealplanner/util/unit/UnitConverter.java:125-128 | the same, for l |
| Units.ConvertToDeciLiter | src/main/java/dev/nheggoe/mealplanner/util/unit/UnitConverter.java:135-138 | the same, for dl |
| Units.ConvertToMilliLiter | src/main/java/dev/nheggoe/mealplanner/util/unit/UnitConverter.java:145-148 | the same, for ml |
| Units.AutoMergeUnit | src/main/java/dev/nheggoe/mealplanner/util/unit/UnitConverter.java:158-172 | the measurement ends up as AutoMerge of its old reading, or unchanged with the error |
| Units.ConvertToStandard | src/main/java/dev/nheggoe/mealplanner/util/unit/UnitConverter.java:57-67 | a null measurement is ignored; otherwise its name and type are kept and its reading becomes the standardized one, or stays on a throw |
| Units.GetStandardData | src/main/java/dev/nheggoe/mealplanner/util/unit/UnitConverter.java:78-87 | returns the standard data of the measurement's reading and type without changing it |
| Ingredients.ConvertIngredient | src/main/java/dev/nheggoe/mealplanner/util/unit/UnitConverter.java:95-98 | name, value and expiry are kept; it succeeds exactly when autoMergeUnit does, with autoMergeUnit's reading or error |
| Ingredients.Merge | src/main/java/dev/nheggoe/mealplanner/user/inventory/IngredientStorage.java:247-252 | succeeds exactly when the incoming batch converts to the existing unit; keeps the existing name, unit and expiry day and adds the values |
| Ingredients.MergeAmount | src/main/java/dev/nheggoe/mealplanner/user/inventory/IngredientStorage.java:247-252 | the merged amount is the existing amount plus the incoming amount converted to the existing unit |
| Ingredients.MergeSameUnit | src/main/java/dev/nheggoe/mealplanner/user/inventory/IngredientStorage.java:247-252 | two batches in one unit (the incoming one with two decimals) add up exactly |
| Ingredients.MergeExample | src/test/java/edu/ntnu/idi/bidata/user/inventory/IngredientTest.java:28-36 | 3 kg worth 30 merged with 300 g worth 40 is 3.3 kg worth 70 |
| Ingredients.ConvertIngredientExample | src/test/java/edu/ntnu/idi/bidata/user/inventory/IngredientTest.java:39-43 | 3 kg converted to g is 3000 g |
| Storage.FirstOn | src/main/java/dev/nheggoe/mealplanner/user/inventory/IngredientStorage.java:105-110 | the first batch on the day, no earlier batch is on it, and none exactly when no batch is |
| Storage.IndexOf | src/main/java/dev/nheggoe/mealplanner/user/inventory/IngredientStorage.java:79 | the first batch equal to the one removed, and none exactly when it is not in the list |
| Storage.AppendTo | src/main/java/dev/nheggoe/mealplanner/user/inventory/IngredientStorage.java:260-266 | the key is added if missing, the batch is appended to its list, every other list is untouched |
| Storage.MergeInto | src/main/java/dev/nheggoe/mealplanner/user/inventory/IngredientStorage.java:247-252 | keys are unchanged; a list missing under the lowered name is the null-list failure |
| Storage.AddAppends | src/main/java/dev/nheggoe/mealplanner/user/inventory/IngredientStorage.java:32-41 | when no batch of that key has the new expiry day, adding appends it to the list under its key and changes nothing else |
| Storage.AddMerges | src/main/java/dev/nheggoe/mealplanner/user/inventory/IngredientStorage.java:32-41 | when one has it, the first batch on that day is merged with the new one, or the conversion's error is thrown; nothing else changes |
| Storage.AddMisroutes | src/main/java/dev/nheggoe/mealplanner/user/inventory/IngredientStorage.java:105-110 | a key function that differs from lower-casing makes the merge look up a missing list and fail |
| Storage.AppendPreservesWellFormed | src/main/java/dev/nheggoe/mealplanner/user/inventory/IngredientStorage.java:260-266 | appending a batch on a new day keeps every batch filed under its key with distinct days per list |
| Storage.MergePreservesWellFormed | src/main/java/dev/nheggoe/mealplanner/user/inventory/IngredientStorage.java:247-252 | a merge keeps the filing invariant |
| Storage.AddPreservesWellFormed | src/main/java/dev/nheggoe/mealplanner/user/inventory/IngredientStorage.java:32-41 | addIngredient keeps the filing invariant |
| Storage.RemoveFirst | src/main/java/dev/nheggoe/mealplanner/user/inventory/IngredientStorage.java:79 | List.remove: an absent batch changes nothing; a present one is cut out at its first position, the others keeping their order, so exactly one copy goes |
| Storage.RemoveMeaning | src/main/java/dev/nheggoe/mealplanner/user/inventory/IngredientStorage.java:72-86 | a missing list is the null-list failure; otherwise the status is whether the batch was there; a remaining list is the old one with its first equal batch cut out and the rest in order (unchanged when there was none); the key is dropped exactly when its list becomes empty; other keys are untouched |
| Storage.AddThenRemove | src/main/java/dev/nheggoe/mealplanner/user/inventory/IngredientStorage.java:32-86 | adding a batch on a new day and removing it gives back the same store and true |
| Storage.RemoveAppended | src/main/java/dev/nheggoe/mealplanner/user/inventory/IngredientStorage.java:72-86 | removing a just-appended batch restores the store |
| Storage.RemovePreservesWellFormed | src/main/java/dev/nheggoe/mealplanner/user/inventory/IngredientStorage.java:72-86 | removal keeps the filing invariant |
| Storage.Expired | src/main/java/dev/nheggoe/mealplanner/user/inventory/IngredientStorage.java:155-163 | only batches of the list dated before today |
| Storage.Keep | src/main/java/dev/nheggoe/mealplanner/user/inventory/IngredientStorage.java:155-163 | only batches of the list not dated before today |
| Storage.KeepExpiredSplit | src/main/java/dev/nheggoe/mealplanner/user/inventory/IngredientStorage.java:155-163 | removeIf splits a list: the kept and the removed batches together are the list, as a multiset |
| Storage.Swept | src/main/java/dev/nheggoe/mealplanner/user/inventory/IngredientStorage.java:147-164 | the keys stay (emptied lists included) and every list keeps only its unexpired batches |
| Storage.SweptPreservesWellFormed | src/main/java/dev/nheggoe/mealplanner/user/inventory/IngredientStorage.java:147-164 | the sweep keeps the filing invariant |
| Storage.ExpiredOverExpired | src/main/java/dev/nheggoe/mealplanner/user/inventory/IngredientStorage.java:223-228 | every batch collected over the lists is expired |
| Storage.ValueOverNonNegative | src/main/java/dev/nheggoe/mealplanner/user/inventory/IngredientStorage.java:198-203 | with non-negative batch values the total value is non-negative |
| Storage.ConvertEntriesMeaning | src/main/java/dev/nheggoe/mealplanner/user/inventory/IngredientStorage.java:234-237 | the in-place conversion keeps names and days, fails exactly when some batch does not convert, and otherwise replaces each batch by its conversion |
| Storage.ConvertEachAllOk | src/main/java/dev/nheggoe/mealplanner/user/inventory/IngredientStorage.java:234-237 | when every batch converts, each list position holds its batch's conversion |
| Storage.ConvertEachStopsAt | src/main/java/dev/nheggoe/mealplanner/user/inventory/IngredientStorage.java:234-237 | the first batch that throws ends the loop with its error; the batches before it are converted, it and the rest are untouched |
| Storage.Check | src/main/java/dev/nheggoe/mealplanner/user/inventory/IngredientStorage.java:50-64 | the check keeps the keys, and says yes only when every requirement's key is filed |
| Storage.CheckAppend | src/main/java/dev/nheggoe/mealplanner/user/inventory/IngredientStorage.java:50-64 | checking a + b checks a and, only if all of a holds, checks b on the store a left behind |
| Storage.CheckPreservesWellFormed | src/main/java/dev/nheggoe/mealplanner/user/inventory/IngredientStorage.java:50-64 | the rewriting done by the check keeps the filing invariant |
| Storage.SufficientMeaning | src/main/java/dev/nheggoe/mealplanner/user/inventory/IngredientStorage.java:50-64 | the intended check says yes exactly when every requirement is covered by the store as it is |
| Storage.CheckOneIsSufficient | src/main/java/dev/nheggoe/mealplanner/user/inventory/IngredientStorage.java:50-64 | for a single requirement the check as written and the intended one agree |
| Storage.SufficientIgnoresOthers | src/main/java/dev/nheggoe/mealplanner/user/inventory/IngredientStorage.java:50-64 | the intended check does not depend on the list under a key that no requirement names |
| Storage.CheckDistinctIsSufficient | src/main/java/dev/nheggoe/mealplanner/user/inventory/IngredientStorage.java:50-64 | when no two requirements share a key, the check as written gives the intended answer, including its errors |
| Storage.CheckRewritesStore | src/main/java/dev/nheggoe/mealplanner/user/inventory/IngredientStorage.java:230-239 | 1234 ml against 1 l then 1232 ml: the check leaves 1230 ml, losing 4 ml to a query, and says no though the store holds enough for each requirement taken alone |
| Storage.IngredientStorage.constructor | src/main/java/dev/nheggoe/mealplanner/user/inventory/IngredientStorage.java:21-24 | the storage has its name and an empty map |
| Storage.IngredientStorage.AddIngredient | src/main/java/dev/nheggoe/mealplanner/user/inventory/IngredientStorage.java:32-41 | null fails and changes nothing; otherwise the map becomes Add of the old map (merge on a matching day, else append), and is unchanged on a throw; the filing invariant is kept |
| Storage.IngredientStorage.HasMatchingExpiryDate | src/main/java/dev/nheggoe/mealplanner/user/inventory/IngredientStorage.java:276-284 | true exactly when the ingredient's key holds a batch with its expiry day |
| Storage.IngredientStorage.MergeIngredient | src/main/java/dev/nheggoe/mealplanner/user/inventory/IngredientStorage.java:247-252 | the map becomes MergeInto of the old map, or stays on a throw |
| Storage.IngredientStorage.AddToList | src/main/java/dev/nheggoe/mealplanner/user/inventory/IngredientStorage.java:260-266 | null changes nothing; otherwise the batch is appended under its key |
| Storage.IngredientStorage.RemoveIngredient | src/main/java/dev/nheggoe/mealplanner/user/inventory/IngredientStorage.java:72-86 | null gives false and changes nothing; otherwise map and status are those of Remove, the map unchanged on a throw; the filing invariant is kept |
| Storage.IngredientStorage.FindIngredient | src/main/java/dev/nheggoe/mealplanner/user/inventory/IngredientStorage.java:94-96 | the list under the name's key, present exactly when the key is |
| Storage.IngredientStorage.FindIngredientOn | src/main/java/dev/nheggoe/mealplanner/user/inventory/IngredientStorage.java:105-110 | fails exactly when the lowered name has no list; otherwise the first batch on the day, or none when no batch is on it |
| Storage.IngredientStorage.IsIngredientPresent | src/main/java/dev/nheggoe/mealplanner/user/inventory/IngredientStorage.java:118-120 | true exactly when the lookup finds a list |
| Storage.IngredientStorage.IsAmountEnough | src/main/java/dev/nheggoe/mealplanner/user/inventory/IngredientStorage.java:230-239 | the list is rewritten into the required unit as the loop goes, and the answer is whether the converted amounts reach the need, or the first conversion error |
| Storage.IngredientStorage.IsIngredientEnough | src/main/java/dev/nheggoe/mealplanner/user/inventory/IngredientStorage.java:50-64 | the answer and the new map are those of the check as written |
| Storage.IngredientStorage.IsIngredientSufficient | src/main/java/dev/nheggoe/mealplanner/user/inventory/IngredientStorage.java:50-64 | the answer is the intended check on the unchanged map |
| Storage.IngredientStorage.RemoveExpired | src/main/java/dev/nheggoe/mealplanner/user/inventory/IngredientStorage.java:147-172 | an empty map reports nothing to check; otherwise every list keeps its unexpired batches and the removed batches are exactly the expired ones, with the invariant kept |
| Storage.IngredientStorage.GetAllExpired | src/main/java/dev/nheggoe/mealplanner/user/inventory/IngredientStorage.java:223-228 | exactly the expired batches of all lists, as a multiset, each dated before today |
| Storage.IngredientStorage.GetAllValue | src/main/java/dev/nheggoe/mealplanner/user/inventory/IngredientStorage.java:198-203 | the sum of the values of all batches |
| Text.SpaceIsWhitespace | src/main/java/dev/nheggoe/mealplanner/util/InputScanner.java:243-245 | every separator of the splitting pattern is whitespace to strip |
| Text.StripMeaning | src/main/java/dev/nheggoe/mealplanner/util/InputScanner.java:158-164 | the stripped line is empty exactly when the line is blank, and otherwise starts and ends with non-whitespace |
| Text.StripIsSlice | src/main/java/dev/nheggoe/mealplanner/util/InputScanner.java:158-164 | the stripped line is a slice of the line with only whitespace cut on either side |
| Text.StripIdempotent | src/main/java/dev/nheggoe/mealplanner/util/InputScanner.java:158-164 | stripping twice is stripping once |
| Text.StripAround | src/main/java/dev/nheggoe/mealplanner/util/InputScanner.java:158-164 | stripping blank padding around a stripped text gives the text back |
| Text.ToLower | src/main/java/dev/nheggoe/mealplanner/util/InputScanner.java:255-260 | lower-casing keeps the length, leaves no upper-case letter, and gives text equal to the input ignoring case |
| Lines.ReadLineMeaning | src/main/java/dev/nheggoe/mealplanner/util/InputScanner.java:158-164 | a blank line is refused as empty, the abort word in any case cancels, and what passes is the non-empty stripped line |
| Lines.Cut | src/main/java/dev/nheggoe/mealplanner/util/InputScanner.java:243-245 | no cut exactly when the line holds no separator; otherwise the text before the first separator run, the run and the rest |
| Lines.TokenizeJoins | src/main/java/dev/nheggoe/mealplanner/util/InputScanner.java:243-245 | split with limit 3 gives one to three tokens that, joined with the separator runs between them, rebuild the line |
| Lines.StrippedTokens | src/main/java/dev/nheggoe/mealplanner/util/InputScanner.java:243-245 | on a stripped, non-empty line no token is empty |
| Lines.TokenizeOne | src/main/java/dev/nheggoe/mealplanner/util/InputScanner.java:243-245 | a line without separators is its only token |
| Lines.TokenizeTwo | src/main/java/dev/nheggoe/mealplanner/util/InputScanner.java:243-245 | two words around one separator run split into those two |
| Lines.TokenizeThree | src/main/java/dev/nheggoe/mealplanner/util/InputScanner.java:243-245 | beyond the second separator everything is kept as the third token |
| Lines.ParseInt | src/main/java/dev/nheggoe/mealplanner/util/InputScanner.java:184-187 | a parsed integer is in the 32-bit range, and negative only after a minus sign |
| Lines.ParseFloat | src/main/java/dev/nheggoe/mealplanner/util/InputScanner.java:173-176 | a parsed number is negative only after a minus sign |
| Lines.ParseIntText | src/main/java/dev/nheggoe/mealplanner/util/InputScanner.java:184-187 | the decimal text of every 32-bit integer parses back to it |
| Lines.ParseIntRejectsPoint | src/main/java/dev/nheggoe/mealplanner/util/InputScanner.java:184-187 | text with a decimal point is not an integer |
| Lines.ParseIntIsFloat | src/main/java/dev/nheggoe/mealplanner/util/InputScanner.java:173-187 | an integer text parses as the same number when read as a float |
| Lines.ParseFloatDecimal | src/main/java/dev/nheggoe/mealplanner/util/InputScanner.java:173-176 | digits, a point and digits parse to their decimal value |
| Lines.ParseFloatNeedsNumber | src/main/java/dev/nheggoe/mealplanner/util/InputScanner.java:173-176 | text starting with a letter is not a number |
| Lines.FindCommandName | src/main/java/dev/nheggoe/mealplanner/util/InputScanner.java:255-260 | the registry finds a known command exactly from its lower-case name |
| Lines.FindUnitName | src/main/java/dev/nheggoe/mealplanner/util/InputScanner.java:269-274 | the registry finds a unit exactly from its lower-case name |
| Lines.CreateCommandInput | src/main/java/dev/nheggoe/mealplanner/util/InputScanner.java:255-260 | the command is the lowered first token resolved (UNKNOWN if missing), the subcommand is the lowered second token, the argument the third as typed; missing tokens are absent |
| Lines.CreateUnitInput | src/main/java/dev/nheggoe/mealplanner/util/InputScanner.java:269-274 | the amount is the parsed first token and the unit the lowered second token resolved; a bad number is refused first, then an unknown unit |
| Lines.ReadsFollowReadLine | src/main/java/dev/nheggoe/mealplanner/util/InputScanner.java:59-187 | each typed read fails as nextLine fails on the same line and otherwise parses the stripped line |
| Lines.ReadsHaveLine | src/main/java/dev/nheggoe/mealplanner/util/InputScanner.java:219-223 | only the end of input gives the no-lines failure |
| Lines.ReadCommandOf | src/main/java/dev/nheggoe/mealplanner/util/InputScanner.java:59-63 | fetchCommand is createCommandInput of the tokens of the line nextLine passes |
| Lines.ReadUnitOf | src/main/java/dev/nheggoe/mealplanner/util/InputScanner.java:71-76 | fetchUnit refuses fewer than two tokens and otherwise is createUnitInput of them |
| Lines.ReadUnitLone | src/main/java/dev/nheggoe/mealplanner/util/InputScanner.java:195-199 | a single word is refused as missing unit inputs |
| Lines.ReadLineOf | src/main/java/dev/nheggoe/mealplanner/util/InputScanner.java:158-164 | a padded line that is not the abort word reads as its stripped text |
| Lines.AbortWord | src/main/java/dev/nheggoe/mealplanner/util/InputScanner.java:208-212 | the abort word in any case, with any padding, cancels |
| Lines.ReadLineKeeps | src/main/java/dev/nheggoe/mealplanner/util/InputScanner.java:158-164 | a stripped line that is not the abort word reads as itself |
| Lines.Step | src/main/java/dev/nheggoe/mealplanner/util/InputScanner.java:219-223 | a read consumes one line, or fails with no lines left and consumes nothing |
| Lines.Retry | src/main/java/dev/nheggoe/mealplanner/util/InputScanner.java:84-150 | a retry loop ends within the input, and runs out only at its end |
| Lines.RetryAccepts | src/main/java/dev/nheggoe/mealplanner/util/InputScanner.java:84-150 | an acceptable value ends the loop just past its line |
| Lines.RetryCancels | src/main/java/dev/nheggoe/mealplanner/util/InputScanner.java:84-150 | the abort word ends the loop just past its line |
| Lines.RetryPassesOver | src/main/java/dev/nheggoe/mealplanner/util/InputScanner.java:84-150 | a refused or unacceptable line leaves the outcome to the lines after it |
| Lines.RetryEndsOnDecidingLine | src/main/java/dev/nheggoe/mealplanner/util/InputScanner.java:84-150 | an accepted value is the reading of the last line consumed and is acceptable; a cancel comes from the abort word on that line |
| Lines.RetrySkips | src/main/java/dev/nheggoe/mealplanner/util/InputScanner.java:84-150 | every line before the deciding one was passed over |
| Lines.RetryStopsAt | src/main/java/dev/nheggoe/mealplanner/util/InputScanner.java:84-150 | conversely, after lines all passed over, the first line that is not decides the outcome |
| Lines.AbortCancelsEveryLoop | src/main/java/dev/nheggoe/mealplanner/util/InputScanner.java:84-150 | the abort word cancels each of the four retry loops at once |
| Scanner.InputScanner.constructor | src/main/java/dev/nheggoe/mealplanner/util/InputScanner.java:48-51 | the scanner starts at the first of the given lines |
| Scanner.InputScanner.NextLine | src/main/java/dev/nheggoe/mealplanner/util/InputScanner.java:158-164 | consumes one line and returns its reading, or fails with no line left |
| Scanner.InputScanner.NextFloat | src/main/java/dev/nheggoe/mealplanner/util/InputScanner.java:173-176 | the same, parsed as a float |
| Scanner.InputScanner.NextInteger | src/main/java/dev/nheggoe/mealplanner/util/InputScanner.java:184-187 | the same, parsed as an integer |
| Scanner.InputScanner.FetchCommand | src/main/java/dev/nheggoe/mealplanner/util/InputScanner.java:59-63 | the same, as a command input |
| Scanner.InputScanner.FetchUnit | src/main/java/dev/nheggoe/mealplanner/util/InputScanner.java:71-76 | the same, as a unit input |
| Scanner.InputScanner.ReadWith | src/main/java/dev/nheggoe/mealplanner/util/InputScanner.java:219-223 | one read with any reader, as the retry specification's single step |
| Scanner.InputScanner.CollectWith | src/main/java/dev/nheggoe/mealplanner/util/InputScanner.java:84-150 | the loop the four collectors share returns what the retry specification says and stops where it says |
| Scanner.InputScanner.CollectValidString | src/main/java/dev/nheggoe/mealplanner/util/InputScanner.java:104-114 | the first line nextLine passes, or cancelled, or out of lines |
| Scanner.InputScanner.CollectValidFloat | src/main/java/dev/nheggoe/mealplanner/util/InputScanner.java:122-132 | the first non-negative float read |
| Scanner.InputScanner.CollectValidInteger | src/main/java/dev/nheggoe/mealplanner/util/InputScanner.java:140-150 | the first non-negative integer read |
| Scanner.InputScanner.CollectValidUnitInput | src/main/java/dev/nheggoe/mealplanner/util/InputScanner.java:84-95 | the first unit input fetchUnit passes |
| ScannerTests.NextLineNoLinesExample | src/test/java/edu/ntnu/idi/bidata/util/InputScannerTest.java:47-52 | nextLine on an empty stream fails for want of a line and reads nothing |
| ScannerTests.TokenizeExample | src/test/java/edu/ntnu/idi/bidata/util/InputScannerTest.java:38-45 | the test line splits into its command, subcommand and the rest |
| ScannerTests.ParseIntExamples | src/test/java/edu/ntnu/idi/bidata/util/InputScannerTest.java:54-66 | "123" is 123 and "123.45" is not an integer |
| ScannerTests.ParseFloatUnitAmount | src/test/java/edu/ntnu/idi/bidata/util/InputScannerTest.java:104-111 | the fetchUnit test's amount "123.45" is 123.45 |
| ScannerTests.ParseFloatRefusesWord | src/test/java/edu/ntnu/idi/bidata/util/InputScannerTest.java:75-80 | "string" is not a number |
| ScannerTests.ParseFloatLeadingPoint | src/test/java/edu/ntnu/idi/bidata/util/InputScannerTest.java:68-73 | ".2349" is 0.2349 |
| ScannerTests.ReadLineAbortExample | src/test/java/edu/ntnu/idi/bidata/util/InputScannerTest.java:31-36 | "AbOrt " cancels |
| ScannerTests.CommandTextRead | src/test/java/edu/ntnu/idi/bidata/util/InputScannerTest.java:38-45 | the padded test line reads as its stripped text |
| ScannerTests.CommandTextInput | src/test/java/edu/ntnu/idi/bidata/util/InputScannerTest.java:82-93 | its tokens give LIST, "testsubcommand" and the argument as typed |
| ScannerTests.ReadCommandExample | src/test/java/edu/ntnu/idi/bidata/util/InputScannerTest.java:82-93 | fetchCommand on the test line gives that command input |
| ScannerTests.UnknownCommandLine | src/test/java/edu/ntnu/idi/bidata/util/InputScannerTest.java:95-102 | "lst something" reads as itself |
| ScannerTests.UnknownCommandTokens | src/test/java/edu/ntnu/idi/bidata/util/InputScannerTest.java:95-102 | it splits into two tokens |
| ScannerTests.UnknownCommandInput | src/test/java/edu/ntnu/idi/bidata/util/InputScannerTest.java:95-102 | they give UNKNOWN with subcommand "something" |
| ScannerTests.ReadUnknownCommandExample | src/test/java/edu/ntnu/idi/bidata/util/InputScannerTest.java:95-102 | fetchCommand on that line gives the same |
| ScannerTests.UnitLineTokens | src/test/java/edu/ntnu/idi/bidata/util/InputScannerTest.java:104-111 | "123.45 kg" reads as itself and splits in two |
| ScannerTests.UnitLineInput | src/test/java/edu/ntnu/idi/bidata/util/InputScannerTest.java:104-111 | those tokens give 123.45 kg |
| ScannerTests.ReadUnitExample | src/test/java/edu/ntnu/idi/bidata/util/InputScannerTest.java:104-111 | fetchUnit on "123.45 kg" gives 123.45 kg |
| ScannerTests.ReadUnitLoneWord | src/test/java/edu/ntnu/idi/bidata/util/InputScannerTest.java:113-118 | "k" is refused as missing unit inputs |
| ScannerTests.ReadUnitLoneNumber | src/test/java/edu/ntnu/idi/bidata/util/InputScannerTest.java:120-125 | "123" is refused as missing unit inputs |
| ScannerTests.NegativeFloatRetried | src/main/java/dev/nheggoe/mealplanner/util/InputScanner.java:122-132 | a negative number is passed over by collectValidFloat |
| Commands.PromptedMeaning | src/main/java/edu/ntnu/idi/bidata/util/command/Command.java:115-121 | an input string already set is returned and reads nothing; an unset one reads up to the line that decides it; an answer, once kept, is returned again without reading |
| Commands.PromptAnswer | src/main/java/edu/ntnu/idi/bidata/util/command/Command.java:115-121 | a prompted answer is the stripped text of the line read, never empty and never the abort word |
| Commands.Command.constructor | src/main/java/edu/ntnu/idi/bidata/util/command/Command.java:56-98 | command word, subcommand and input string are copied verbatim from the user's input |
| Commands.Command.HasSubcommand | src/main/java/edu/ntnu/idi/bidata/util/command/Command.java:105-107 | true exactly when the subcommand is present |
| Commands.Command.ProcessCommand | src/main/java/edu/ntnu/idi/bidata/util/command/Command.java:135-150 | exactly one of: hand over the subcommand (when present) or print the help for the command's name |
| Commands.InstructionTopic | src/main/java/edu/ntnu/idi/bidata/util/command/Command.java:148-150 | the help topic is already lower case and names the same command again |
| Commands.Command.GetInputString | src/main/java/edu/ntnu/idi/bidata/util/command/Command.java:115-121 | returns and keeps what the prompt gives: the set input string without reading, or the collected line |
| Commands.GetInputStringTwice | src/main/java/edu/ntnu/idi/bidata/util/command/Command.java:115-121 | after an answered first call, a second call returns the same and the field holds it |
| Commands.RouteOf | src/main/java/dev/nheggoe/mealplanner/util/command/AddCommand.java:33-53 | no subcommand shows help; "storage" and "inventory" route to addStorage, "ingredient" to addIngredient, "recipe" to addRecipe, each exactly; any other subcommand is illegal |
| Commands.TypedSubcommandRoutes | src/main/java/dev/nheggoe/mealplanner/util/command/AddCommand.java:46-53 | a known subcommand typed in any case routes as its lower-case word |
| Commands.RoutedMeaning | src/main/java/dev/nheggoe/mealplanner/util/command/AddCommand.java:33-75 | without a subcommand only help is shown and nothing is read; a storage or ingredient is added exactly on its route when a name is had, under the argument if given, else the prompted line; an unknown subcommand is reported |
| Commands.AddCommand.PromptIfEmpty | src/main/java/dev/nheggoe/mealplanner/util/command/AddCommand.java:60-62 | prompts only when the argument is empty, keeping the answer as the argument |
| Commands.AddCommand.Execute | src/main/java/dev/nheggoe/mealplanner/util/command/AddCommand.java:33-75 | the effect, the argument and the read position afterwards are those the routing specification gives |

## Left out

- Console output (prompts, help text, status lines, the removed-ingredients report) is not modelled. Where the source prints a result, the model returns it instead (`Sweep`, `Dispatch`, `Effect`).
- Floating point: amounts are exact reals. Rounding is `Math.round(x * 100) / 100` on reals, so float representation error is not modelled.
- Number parsing covers a decimal subset:
  - integers: an optional sign and ASCII digits, in the 32-bit range;
  - floats: an optional sign, digits and an optional fraction, or a leading point.
  - Not modelled: exponents, `NaN`, `Infinity`, hexadecimal, the `f`/`d` suffixes, and Unicode digits.
  - Lines.ParseFloat: `Float.parseFloat` first trims every character up to U+0020, while the line has only been through `strip`. A line that still starts or ends with a control character that is not whitespace (U+0000–U+0008 or U+000E–U+001B), such as U+0007 followed by "5", reads as 5 in Java but is refused here as not a number.
- Text.ToLower, Text.EqualsIgnoreCase: `toLowerCase` and `equalsIgnoreCase` fold ASCII letters only, not the rest of Unicode.
- `Utility.createKey` is an arbitrary function passed to the storage. `findIngredient(name, date)` uses `toLowerCase` as written, and `Storage.AddMisroutes` shows what happens when the two differ.
- `Utility.createKey(Ingredient)`, which `addToList` and `getIngredientList(Ingredient)` use, is taken to be `createKey` of the ingredient's name, the key that `createKey(String)` gives in `findIngredient`, `isIngredientPresent`, `removeIngredient` and `isIngredientEnough`. `Utility` is not part of this model. `Storage.AddThenRemove` and `Storage.RemoveAppended` rest on this: if the two overloads gave different keys, removing a batch just added would look under another key.
- `CommandRegistry.findCommand` and `UnitRegistry.findUnit` are lookup tables of the enum names in lower case.
- Lines.CreateUnitInput: refuses an unknown unit word (UnknownUnit), on the assumption that `UnitInput`, which is not part of this model, never holds a null unit.
- Lines.ReadUnit: follows the code, which splits with limit 3 and uses the first two tokens, so a third token is ignored rather than refused. A unit line is meant to hold an amount and a unit word; the code does not check that nothing follows them.
- Lines.Retry / Scanner.InputScanner.CollectWith: `AbortException`, which is not part of this model, is taken not to be an `IllegalArgumentException`. So the collectValid* catch clauses never absorb the abort word, and it cancels each loop at once (`Lines.RetryCancels`, `Lines.AbortCancelsEveryLoop`). Were it such an exception, each loop would report it and read on.
- Scanner.InputScanner.CollectWith: the four Java loops spin for ever once the input has no lines left. The model ends them with `Exhausted`. The sentinels the loops start from (`null`, `-1`) become an `Option`.
- Ingredient objects are values, so aliasing between the map's lists and the `Ingredient` objects is not modelled. Nor is HashMap iteration order: the sweep is proved for any order of keys, and the expired batches are stated as a multiset.
- `Ingredient.java` is not part of this model. Its merge is modelled from its use in `mergeIngredient` and from the merge test. Its constructor validation is left out. Equality of batches is taken as structural: `List.remove` in `removeIngredient` is modelled with equality of `Ingredient` values (`Storage.IndexOf`, `Storage.RemoveFirst`), not with `Ingredient.equals`.
- The `Measurement` class keeps the ingredient type as a plain string; its constructor validation is not modelled.
- Presentation is not modelled: `getStorageString`, `getIngredientOverview`, `getStorageName`, and the message text of the exceptions.
- The `User`, `OutputHandler` and history stack of `Command.java` are not modelled. The `Command` constructor takes the parsed input and the scanner in place of the user.
- `Commands.Command.ProcessCommand` returns what `processCommand` would do; `processSubcommand` is abstract in the source.
- Commands.Command.constructor: the Java constructor ends by calling `processCommand()`, so building a command dispatches it. The model's constructor only copies the fields, and the dispatch is the separate `ProcessCommand`.
- The base `Command` class of the AddCommand package is not part of this model. Its `isArgumentEmpty` is taken as "no argument", and `setArgument` as prompting with `collectValidString`. `getValidString` of the older scanner is likewise taken as `collectValidString`.
- `InventoryManager`, `RecipeManager`, `HelpCommand` and `illegalCommand` are not part of this model. `Commands.AddCommand.Execute` returns the effect it asks of them (a storage created, an ingredient added, a recipe added, help, or an illegal combination). `addRecipe` and recipe building are left out.
- Commands.AddCommand.Execute: console reads made by `InventoryManager.createIngredient` and by `RecipeManager.constructRecipe` are not modelled, so the read position it ends at is the one after the command's own name prompt, not after those managers' own dialogues.
- `Units.Ratio` is written as a table of the literal factors. `Units.RatioOfMultipliers` ties it to `getMultiplier`.

## Findings

| source | as written | input that shows it | evidently intended | confidence | as-written member | corrected member |
|---|---|---|---|---|---|---|
| src/main/java/dev/nheggoe/mealplanner/user/inventory/IngredientStorage.java:230-239 | `isAmountEnough` converts the stored batches in place to the requirement's unit, with rounding. `isIngredientEnough` then checks later requirements against the rewritten store. | One batch of 1234 ml of milk, with the requirements 1 l then 1232 ml. The first rewrites the batch to 1.23 l and the second to 1230 ml: the query loses 4 ml from the store, and the answer is false though the store holds enough for each requirement taken alone. | Answer whether every requirement is covered by the store as it is, leaving the store unchanged. The two agree when no two requirements share a key (`Storage.CheckDistinctIsSufficient`). | not executed | Storage.CheckRewritesStore, Storage.IngredientStorage.IsIngredientEnough | Storage.Sufficient, Storage.IngredientStorage.IsIngredientSufficient |
