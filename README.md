# Synthea web service and reference data, modelled in Dafny

This project models two parts of Synthea, the synthetic patient generator.

**The web service.** It lets a client configure a generation request, start it, stop it and collect its results. Two front ends are modelled:

- the `Request` / `RequestService` / `SocketHandler` trio, driven over a WebSocket;
- the REST and STOMP `Controller`.

The model covers:

- how a configuration becomes generator options, and the errors that can arise;
- the file names derived from a request's UUID;
- the bounded queue of recent records;
- the JSON array written to disk and the ZIP archive that replaces it;
- the reply sent for each command in each request state;
- the sweep that deletes expired ZIP files.

Threads are modelled as sequential step methods on plain fields. The patient generator is an input sequence of fetch outcomes: a record, an interrupt or a failure. The file system is a path-to-file map held by a `FileSystem` object.

**The reference data.** This is the deterministic logic behind the world model:

- time series built from `year:value` strings;
- places, and the loaders that build them from CSV rows;
- state abbreviations;
- demographics tables and the loaders that read them from CSV, with their fixed column configurations;
- the two `Location` classes;
- the cost tables and the cost computation;
- the global attribute registry.

Random draws, double parsing and the contents of resource files are parameters of the model. Java exceptions become `Err` values named after the exception class. Java `null` becomes `None`.

Modules, one per file:

- `Wrappers` — `Option`, `Result`, exception names
- `JavaText` — the `String` methods used: case folding, split, join, integer parsing, 32- and 64-bit wrap-around
- `LinkedMaps` — insertion-ordered maps
- `CsvRows` — CSV rows and cells
- `TimeSeries` — `TimeSeriesUtils.java`
- `GeneratorConfig` — reading generator options and Synthea properties from a JSON configuration
- `ResultStream` — the result queue and the JSON array of records
- `FileStore` — the file system
- `ArtifactPaths` — output directories and per-request file names
- `Cleanup` — `CleanupService.java`
- `Webservice` — `Request.java`, `RequestService.java`, `SocketHandler.java`
- `WebController` — `Controller.java`
- `Places` — both `StateCityZipPlace` classes, `Place`, `PlaceLoader`, `StateCityZipPlaceFactory`
- `StateAbbreviations` — `StateAbbreviationsLoader.java`
- `Demographics` — `demographics/Demographics.java`
- `DemographicsLoading` — both `DemographicsLoader` classes
- `LoaderConfigs` — `DefaultDemographicsLoader` and `ACSFactFinderDemographicsLoader`
- `Locations` — both `Location` classes
- `Costs` — `Costs.java`
- `Engine` — `GlobalAttributes.java`

## Model

| member | source | states |
|---|---|---|
| JavaText.ToLower | src/main/java/org/mitre/synthea/world/geography/demographics/DemographicsLoader.java:104 | the lowered text has the same length and each character is the lowered character |
| JavaText.ToLowerIdempotent | src/main/java/org/mitre/synthea/world/geography/demographics/DemographicsLoader.java:104 | lowering twice is lowering once, so lower-cased keys are stable |
| JavaText.FindFrom | src/main/java/org/mitre/synthea/helpers/TimeSeriesUtils.java:136-139 | the first occurrence at or after the start, or none when there is no later occurrence |
| JavaText.LastIndexOf | src/main/java/org/mitre/synthea/world/geography/location/Location.java:237 | the index of the last occurrence, or -1 when the character does not occur |
| JavaText.Pieces | src/main/java/org/mitre/synthea/helpers/TimeSeriesUtils.java:136-139 | splitting always yields at least one piece |
| JavaText.DropTrailingEmpty | src/main/java/org/mitre/synthea/helpers/TimeSeriesUtils.java:136-139 | a prefix of the pieces that ends in a non-empty piece, with only empty pieces removed |
| JavaText.SplitPieces | src/main/java/org/mitre/synthea/helpers/TimeSeriesUtils.java:136-139 | `split` keeps the leading pieces, none containing the separator, and drops only empty pieces at the end; the whole text when the separator is absent, otherwise no empty last piece |
| JavaText.JoinPieces | src/main/java/org/mitre/synthea/helpers/TimeSeriesUtils.java:136-139 | joining the pieces with the separator gives the text back |
| JavaText.PiecesAvoidSeparator | src/main/java/org/mitre/synthea/helpers/TimeSeriesUtils.java:136-139 | no piece contains the separator |
| JavaText.JoinSnoc | src/main/java/org/mitre/synthea/helpers/TimeSeriesUtils.java:136-139 | joining with one more piece appends the separator and that piece |
| JavaText.FindFromFirst | src/main/java/org/mitre/synthea/helpers/TimeSeriesUtils.java:136-139 | an occurrence with none before it is the one found |
| JavaText.JoinHead | src/main/java/org/mitre/synthea/helpers/TimeSeriesUtils.java:136-139 | in a join, the first separator follows the first piece |
| JavaText.PiecesOfJoin | src/main/java/org/mitre/synthea/helpers/TimeSeriesUtils.java:136-139 | splitting a join of separator-free pieces at a one-character separator gives the pieces back |
| JavaText.DigitChar | src/main/java/org/mitre/synthea/world/geography/demographics/DemographicsLoader.java:92 | the digit character of a value below ten has that value |
| JavaText.ParseIntegral | src/main/java/org/mitre/synthea/helpers/TimeSeriesUtils.java:143 | an accepted number lies within the type's range |
| JavaText.ParseInt | src/main/java/org/mitre/synthea/world/geography/demographics/Demographics.java:53-54 | an accepted number is a 32-bit int |
| JavaText.ParseLong | src/main/java/org/mitre/synthea/world/geography/demographics/Demographics.java:53-54 | an accepted number is a 64-bit long |
| JavaText.Wrap32 | webservice/src/main/java/org/mitre/synthea/webservice/CleanupService.java:51 | a 32-bit value congruent to the exact one modulo 2 to the 32 |
| JavaText.Wrap64 | src/main/java/org/mitre/synthea/world/geography/demographics/DemographicsLoader.java:81 | a 64-bit value congruent to the exact one modulo 2 to the 64 |
| JavaText.NatToString | src/main/java/org/mitre/synthea/world/geography/demographics/DemographicsLoader.java:92 | a non-empty string of digits |
| JavaText.DigitsValueOfNatToString | src/main/java/org/mitre/synthea/world/geography/demographics/DemographicsLoader.java:92 | reading the printed digits gives the number back |
| JavaText.ParseIntOfNatToString | src/main/java/org/mitre/synthea/world/geography/demographics/DemographicsLoader.java:92 | parsing a printed int gives it back |
| JavaText.NatToStringInjective | src/main/java/org/mitre/synthea/world/geography/demographics/DemographicsLoader.java:92 | different numbers print differently, so the generated column names never collide |
| JavaText.Truncate | src/main/java/org/mitre/synthea/world/geography/location/Location.java:186 | the integer part, rounding toward zero |
| JavaText.LongValue | src/main/java/org/mitre/synthea/world/geography/demographics/DemographicsLoader.java:81 | NaN gives 0, an in-range value its integer part, and the result is always a long |
| JavaText.Times | src/main/java/org/mitre/synthea/world/concepts/Costs.java:219 | the product is NaN exactly when a factor is |
| TimeSeries.Member | src/main/java/org/mitre/synthea/helpers/TimeSeriesUtils.java:64-65 | a non-empty key set has a member |
| TimeSeries.HasLeast | src/main/java/org/mitre/synthea/helpers/TimeSeriesUtils.java:64-65 | a non-empty key set has a least key |
| TimeSeries.HasGreatest | src/main/java/org/mitre/synthea/helpers/TimeSeriesUtils.java:100-101 | a non-empty key set has a greatest key |
| TimeSeries.First | src/main/java/org/mitre/synthea/helpers/TimeSeriesUtils.java:65 | the least key |
| TimeSeries.Last | src/main/java/org/mitre/synthea/helpers/TimeSeriesUtils.java:100-109 | the greatest key |
| TimeSeries.Floor | src/main/java/org/mitre/synthea/helpers/TimeSeriesUtils.java:68 | the greatest key at or below the year |
| TimeSeries.Ceiling | src/main/java/org/mitre/synthea/helpers/TimeSeriesUtils.java:101 | the least key at or above the year |
| TimeSeries.FloorUnique | src/main/java/org/mitre/synthea/helpers/TimeSeriesUtils.java:68 | any key that is a floor of the year is the floor |
| TimeSeries.CeilingUnique | src/main/java/org/mitre/synthea/helpers/TimeSeriesUtils.java:101 | any key that is a ceiling of the year is the ceiling |
| TimeSeries.FirstKey | src/main/java/org/mitre/synthea/helpers/TimeSeriesUtils.java:64-65 | the loop finds the least key |
| TimeSeries.FloorKey | src/main/java/org/mitre/synthea/helpers/TimeSeriesUtils.java:68 | the greatest key at or below the year, and none exactly when every key is above it |
| TimeSeries.CeilingKey | src/main/java/org/mitre/synthea/helpers/TimeSeriesUtils.java:101-102 | the least key at or above the year, and none exactly when every key is below it |
| TimeSeries.ParsePoint | src/main/java/org/mitre/synthea/helpers/TimeSeriesUtils.java:139-143 | an item that does not split into two parts is an IllegalArgumentException; an accepted item's year is its parsed first part |
| TimeSeries.ErrorPersists | src/main/java/org/mitre/synthea/helpers/TimeSeriesUtils.java:138-145 | once an item throws, the whole parse fails with that exception |
| TimeSeries.StringToPoints | src/main/java/org/mitre/synthea/helpers/TimeSeriesUtils.java:135-147 | the loop computes the map the comma-separated items denote |
| TimeSeries.PointsKeys | src/main/java/org/mitre/synthea/helpers/TimeSeriesUtils.java:135-147 | the parsed map holds the year of every item and no other year |
| TimeSeries.LastValueWins | src/main/java/org/mitre/synthea/helpers/TimeSeriesUtils.java:143 | a repeated year holds the value of its last item |
| TimeSeries.EmptyTextRejected | src/main/java/org/mitre/synthea/helpers/TimeSeriesUtils.java:136-141 | the empty text is rejected with IllegalArgumentException |
| TimeSeries.ConstantSeries | src/main/java/org/mitre/synthea/helpers/TimeSeriesUtils.java:43-52 | one point per year from the start up to the end, at least one, each holding the value |
| TimeSeries.StepSeries | src/main/java/org/mitre/synthea/helpers/TimeSeriesUtils.java:63-71 | an empty map throws NoSuchElementException; otherwise one point per year from the first key to the end, each holding the floor key's value |
| TimeSeries.StepAtKey | src/main/java/org/mitre/synthea/helpers/TimeSeriesUtils.java:63-71 | at a key year the step series holds that key's value |
| TimeSeries.StepBetweenKeys | src/main/java/org/mitre/synthea/helpers/TimeSeriesUtils.java:63-71 | between keys the step series keeps the previous key's value |
| TimeSeries.RampAsWrittenNaNAtKeys | src/main/java/org/mitre/synthea/helpers/TimeSeriesUtils.java:103-106 | as written, every key year up to the last key gets NaN |
| TimeSeries.PiecewiseHitsKeys | src/main/java/org/mitre/synthea/helpers/TimeSeriesUtils.java:95-112 | the corrected series passes through every key's value |
| TimeSeries.PiecewiseBetweenKeys | src/main/java/org/mitre/synthea/helpers/TimeSeriesUtils.java:99-106 | between neighbouring keys the value is the linear interpolation |
| TimeSeries.PiecewiseAfterLastKey | src/main/java/org/mitre/synthea/helpers/TimeSeriesUtils.java:107-109 | after the last key the last key's value holds |
| TimeSeries.PiecewiseSeries | src/main/java/org/mitre/synthea/helpers/TimeSeriesUtils.java:95-112 | an empty map throws NoSuchElementException; otherwise the step series' years, each holding the corrected piece-wise value |
| TimeSeries.MakeSeries | src/main/java/org/mitre/synthea/helpers/TimeSeriesUtils.java:23-32 | "step" and "piecewise" parse the text and build that series; it succeeds iff the type is known and the text parses to at least one point; a parse error propagates, text with no point (",") is a NoSuchElementException, any other type an IllegalArgumentException; a step series holds the floor key's value at each year, a piecewise one PiecewiseValue |
| GeneratorConfig.GetLong | webservice/src/main/java/org/mitre/synthea/webservice/Request.java:114-116 | `getLong` accepts exactly numbers and numeric strings, yields a value within the signed 64-bit range (a fractional number rounded toward zero and clamped), or throws JSONException |
| GeneratorConfig.GetInt | webservice/src/main/java/org/mitre/synthea/webservice/Request.java:117-119 | `getInt` accepts exactly numbers and numeric strings, yields a value within the signed 32-bit range (a fractional number rounded toward zero and clamped), or throws JSONException |
| JavaText.NarrowReal | webservice/src/main/java/org/mitre/synthea/webservice/Request.java:117-119 | a double narrowed to an integer type lies in its range; in range it is rounded toward zero (within one of the value, on the side of zero); beyond the range it is the nearest bound |
| GeneratorConfig.FractionalNumbersTruncate | webservice/src/main/java/org/mitre/synthea/webservice/Request.java:117-119 | 2.7 reads as 2 and -2.7 as -2; 1e10 saturates at the `int` maximum where the integral 10000000000 wraps |
| GeneratorConfig.GetString | webservice/src/main/java/org/mitre/synthea/webservice/Request.java:120-122 | `getString` succeeds exactly for a JSON string and returns its text |
| GeneratorConfig.OptionsFrom | webservice/src/main/java/org/mitre/synthea/webservice/Request.java:102-143 | the options a configuration denotes; the only failure is a JSONException |
| GeneratorConfig.Restrict | webservice/src/main/java/org/mitre/synthea/webservice/Request.java:108-110 | the keys visited so far: exactly the configuration's keys inside the given set, with their values |
| GeneratorConfig.OptionsIgnoreOtherKeys | webservice/src/main/java/org/mitre/synthea/webservice/Request.java:135-138 | keys other than seed, population, gender, minAge, maxAge, state and city do not affect the options |
| GeneratorConfig.OptionsOfUnrelatedKeys | webservice/src/main/java/org/mitre/synthea/webservice/Request.java:107-142 | a configuration without generator keys yields the default options |
| GeneratorConfig.ApplyKey | webservice/src/main/java/org/mitre/synthea/webservice/Request.java:113-139 | one case of the switch on the key; it can fail only with a JSONException |
| GeneratorConfig.ApplyKeyStep | webservice/src/main/java/org/mitre/synthea/webservice/Request.java:109-140 | visiting one more generator key applies its switch case to the options read so far; a failing case makes the whole read fail |
| GeneratorConfig.OptionsErrMonotone | webservice/src/main/java/org/mitre/synthea/webservice/Request.java:109-140 | a failure among some keys is a failure of the whole configuration, whatever the visiting order |
| GeneratorConfig.ApplyKeyExtends | webservice/src/main/java/org/mitre/synthea/webservice/Request.java:109-140 | the loop invariant for any visiting order: after each key, the options equal those of the keys visited so far |
| GeneratorConfig.ReadKey | webservice/src/main/java/org/mitre/synthea/webservice/Request.java:110-139 | one iteration of the loop keeps that invariant, or reports the JSONException the whole configuration raises |
| GeneratorConfig.ReadOptions | webservice/src/main/java/org/mitre/synthea/webservice/Request.java:107-142 | the loop over `names()` computes exactly the options the configuration denotes, whatever the key order |
| GeneratorConfig.ConfigureGeneratorOptions | webservice/src/main/java/org/mitre/synthea/webservice/Request.java:102-143 | null gives null; otherwise the options or the JSONException (the corrected version, see Findings) |
| GeneratorConfig.ConfigureGeneratorOptionsAsWritten | webservice/src/main/java/org/mitre/synthea/webservice/Request.java:102-143 | as written: null gives null, the empty object and only it throws NullPointerException, any other failure is a JSONException, and a result is the options the configuration denotes |
| GeneratorConfig.EmptyConfigurationThrows | webservice/src/main/java/org/mitre/synthea/webservice/Request.java:108-109 | as written, `{}` throws NullPointerException because `names()` is null; the corrected version yields the defaults |
| GeneratorConfig.AsWrittenAgreesOnNonEmpty | webservice/src/main/java/org/mitre/synthea/webservice/Request.java:102-143 | for null or a non-empty configuration, the code as written and the corrected version agree |
| GeneratorConfig.SyntheaConfig.Set | webservice/src/main/java/org/mitre/synthea/webservice/Request.java:75 | `Config.set` maps the name to the value and changes nothing else |
| GeneratorConfig.Requested | webservice/src/main/java/org/mitre/synthea/webservice/RequestService.java:264-284 | the keys copied into Synthea's configuration: present, not skipped, and on the whitelist |
| GeneratorConfig.Settings | webservice/src/main/java/org/mitre/synthea/webservice/RequestService.java:276-281 | the properties set: the same keys, each mapped to its JSON string |
| GeneratorConfig.CopiedStep | webservice/src/main/java/org/mitre/synthea/webservice/RequestService.java:261-287 | visiting one key copies it exactly when it is requested; other keys leave the copy unchanged |
| GeneratorConfig.CopiedAreRequested | webservice/src/main/java/org/mitre/synthea/webservice/RequestService.java:261-287 | everything copied is requested and carries its JSON string |
| GeneratorConfig.CopiedAll | webservice/src/main/java/org/mitre/synthea/webservice/RequestService.java:261-287 | after all keys are visited, the copy is the full set of requested settings |
| GeneratorConfig.UpdateSyntheaConfigAsWritten | webservice/src/main/java/org/mitre/synthea/webservice/RequestService.java:257-259 | as written: an empty configuration throws NullPointerException and copies nothing; any other behaves as the corrected method |
| GeneratorConfig.UpdateSyntheaConfig | webservice/src/main/java/org/mitre/synthea/webservice/Request.java:149-180 | succeeds iff every requested value is a string, and then adds exactly the requested settings; existing properties are never lost |
| ArtifactPaths.UuidHasNoSeparator | webservice/src/main/java/org/mitre/synthea/webservice/RequestService.java:35 | a string matching the UUID pattern contains no path separator |
| ArtifactPaths.OutputBase | webservice/src/main/java/org/mitre/synthea/webservice/RequestService.java:56-61 | the output prefix as intended: empty without a base directory, else the base directory with one trailing separator |
| ArtifactPaths.OutputBaseAgrees | webservice/src/main/java/org/mitre/synthea/webservice/RequestService.java:56-61 | the code as written agrees with the intended prefix unless the base directory is empty or already ends with a separator |
| ArtifactPaths.OutputBaseAsWrittenDropsBase | webservice/src/main/java/org/mitre/synthea/webservice/Controller.java:99-104 | as written, "output/" becomes "" and "" becomes "/" |
| ArtifactPaths.OutputDirs | webservice/src/main/java/org/mitre/synthea/webservice/RequestService.java:63-70 | the ZIP and CSV directories are the prefix followed by "zip" and "csv" |
| ArtifactPaths.FileObject | webservice/src/main/java/org/mitre/synthea/webservice/RequestService.java:181-200 | a file exists iff the UUID is valid and (the extension is zip or the type is fhir or csv); ZIP and fhir files go to the ZIP directory, csv files to the CSV directory |
| ArtifactPaths.CsvFileObject | webservice/src/main/java/org/mitre/synthea/webservice/RequestService.java:169-175 | a CSV file exists exactly for a valid UUID |
| ArtifactPaths.FileObjectInjective | webservice/src/main/java/org/mitre/synthea/webservice/RequestService.java:181-200 | different requests never share a result file |
| ArtifactPaths.ZipFileObject | webservice/src/main/java/org/mitre/synthea/webservice/RequestService.java:145-151 | a ZIP file exists iff the UUID is valid, and it lies in the ZIP directory whatever its type |
| ArtifactPaths.JsonFileObject | webservice/src/main/java/org/mitre/synthea/webservice/RequestService.java:161-167 | a JSON file exists iff the UUID is valid, and it lies in the ZIP directory |
| ArtifactPaths.JsonFileIsNotZipFile | webservice/src/main/java/org/mitre/synthea/webservice/RequestService.java:145-163 | a request's JSON file and its ZIP file are different, and only the ZIP file ends in ".zip" |
| ArtifactPaths.CsvFileObjectInjective | webservice/src/main/java/org/mitre/synthea/webservice/RequestService.java:169-175 | distinct (request, file name) pairs give distinct CSV paths |
| ArtifactPaths.ControllerZipFile | webservice/src/main/java/org/mitre/synthea/webservice/Controller.java:364-366 | the controller's archive path ends in ".zip" |
| Cleanup.IsExpiredAsWritten | webservice/src/main/java/org/mitre/synthea/webservice/CleanupService.java:51 | as written: agrees with the intended test when the limit in milliseconds fits in an `int`; any file at least 2^31 - 1 ms old is expired and none with a negative age below -2^31 is |
| Cleanup.ExpiryAgreesWithoutOverflow | webservice/src/main/java/org/mitre/synthea/webservice/CleanupService.java:51 | the expiry test as written is the intended one whenever the limit in milliseconds fits in an `int` |
| Cleanup.ExpiryOverflows | webservice/src/main/java/org/mitre/synthea/webservice/CleanupService.java:51 | with a limit of 2147484 s the `int` product wraps negative and a file created now counts as expired |
| Cleanup.DefaultLimitIsOneDay | webservice/src/main/java/org/mitre/synthea/webservice/CleanupService.java:26-27 | with the default limit, a file expires exactly when it is 86400000 ms old |
| Cleanup.Swept | webservice/src/main/java/org/mitre/synthea/webservice/CleanupService.java:36-58 | after a sweep, a file remains iff it was not listed, or not expired, or failed; surviving files are unchanged |
| Cleanup.CheckForExpiredFile | webservice/src/main/java/org/mitre/synthea/webservice/CleanupService.java:47-58 | deletes the file exactly when it is expired and no I/O error occurs |
| Cleanup.VisitOne | webservice/src/main/java/org/mitre/synthea/webservice/CleanupService.java:38 | visiting one listed file deletes it exactly when it is doomed |
| Cleanup.VisitedAll | webservice/src/main/java/org/mitre/synthea/webservice/CleanupService.java:38 | once every listed file is visited, the result is the sweep, whatever the listing order |
| Cleanup.DeleteExpiredZipFiles | webservice/src/main/java/org/mitre/synthea/webservice/CleanupService.java:36-42 | a failed listing changes nothing; otherwise the files become the sweep |
| Cleanup.ZipFileIsSwept | webservice/src/main/java/org/mitre/synthea/webservice/CleanupService.java:37 | a request's ZIP archive is listed by the sweep; its JSON file is not |
| Cleanup.NameAvoidsSeparator | webservice/src/main/java/org/mitre/synthea/webservice/RequestService.java:181-200 | a file name built from separator-free parts has no separator |
| FileStore.Rewrite | webservice/src/main/java/org/mitre/synthea/webservice/Request.java:247-257 | rewriting the JSON file leaves only the last write |
| FileStore.WriteThenDelete | webservice/src/main/java/org/mitre/synthea/webservice/Request.java:290-336 | writing the archive then deleting the JSON file equals the archive without the JSON file |
| FileStore.FileSystem.Append | webservice/src/main/java/org/mitre/synthea/webservice/Request.java:198-199 | appending keeps a file's creation time and extends its text |
| FileStore.FileSystem.Put | webservice/src/main/java/org/mitre/synthea/webservice/Request.java:247-257 | writing replaces the content and keeps an existing file's creation time |
| FileStore.FileSystem.Delete | webservice/src/main/java/org/mitre/synthea/webservice/Request.java:335 | deleting removes exactly that path |
| ResultStream.Persons | webservice/src/main/java/org/mitre/synthea/webservice/Request.java:226-227 | one generator fetch per record produced |
| ResultStream.PersonsSnoc | webservice/src/main/java/org/mitre/synthea/webservice/Request.java:226-244 | a further successful fetch extends the records produced |
| ResultStream.Recent | webservice/src/main/java/org/mitre/synthea/webservice/Request.java:236-244 | the queue keeps at most the given number of records |
| ResultStream.Offer | webservice/src/main/java/org/mitre/synthea/webservice/Request.java:236-244 | adding a record keeps the queue within 1000 and puts the record last; below the bound it is a plain append |
| ResultStream.OfferKeepsRecent | webservice/src/main/java/org/mitre/synthea/webservice/Request.java:40 | offering a record to the most recent 1000 gives the most recent 1000 including it |
| ResultStream.OfferKeepsRecentAfter | webservice/src/main/java/org/mitre/synthea/webservice/Request.java:236-244 | the same, after earlier drains and records |
| ResultStream.OfferIsTail | webservice/src/main/java/org/mitre/synthea/webservice/Request.java:236-244 | an offer never reorders or invents records: the queue is a tail of the old queue plus the record |
| ResultStream.RecentIsTail | webservice/src/main/java/org/mitre/synthea/webservice/Request.java:236-244 | the kept records are a tail of all records |
| ResultStream.OfferKeepsSuffix | webservice/src/main/java/org/mitre/synthea/webservice/Request.java:236-244 | a queue that is a tail of what was produced stays one after each offer |
| ResultStream.BodySnoc | webservice/src/main/java/org/mitre/synthea/webservice/Request.java:247-257 | each record extends the array body by its comma, a newline and the record |
| ResultStream.AppendRecord | webservice/src/main/java/org/mitre/synthea/webservice/Request.java:247-257 | writing one more record after a prefix gives the body of all records |
| ResultStream.Lines | webservice/src/main/java/org/mitre/synthea/webservice/Request.java:250-251 | each record is preceded by a newline |
| ResultStream.BodyIsJoin | webservice/src/main/java/org/mitre/synthea/webservice/Request.java:198-269 | the JSON array body is the records' lines joined with commas |
| ResultStream.LineAvoidsComma | webservice/src/main/java/org/mitre/synthea/webservice/Request.java:250-251 | a record without a comma gives a line without one |
| ResultStream.BodyRecoversRecords | webservice/src/main/java/org/mitre/synthea/webservice/Request.java:198-269 | splitting the written body on commas recovers every record's line when no record contains a comma |
| Webservice.RecordMessages | webservice/src/main/java/org/mitre/synthea/webservice/Request.java:230 | one message per record, in order |
| Webservice.Notify | webservice/src/main/java/org/mitre/synthea/webservice/SocketHandler.java:158-165 | a message for a UUID goes to its mapped session, or nowhere when no session is mapped |
| Webservice.NotifyAppend | webservice/src/main/java/org/mitre/synthea/webservice/SocketHandler.java:158-165 | notifying two batches in turn equals notifying their concatenation |
| Webservice.NotifyRecordsSnoc | webservice/src/main/java/org/mitre/synthea/webservice/Request.java:230 | one more record adds exactly its message to what the client receives |
| Webservice.Request.constructor | webservice/src/main/java/org/mitre/synthea/webservice/Request.java:61-70 | a new request is idle, unflagged, with an empty queue and its own JSON and ZIP paths |
| Webservice.Request.Configure | webservice/src/main/java/org/mitre/synthea/webservice/Request.java:72-97 | always sets exporter.webclient; succeeds iff the configuration is present and its options read; then stores the configuration with the seed added; null throws NullPointerException, bad values JSONException |
| Webservice.Request.Start | webservice/src/main/java/org/mitre/synthea/webservice/Request.java:356-360 | marks the request started and launches collection; its flags, queue, records, configuration and options are otherwise unchanged (`StartedOnly`) |
| Webservice.Request.Stop | webservice/src/main/java/org/mitre/synthea/webservice/Request.java:374-376 | raises the stop flag; everything else the request holds is unchanged (`StoppedOnly`) |
| Webservice.Request.CollectorOpen | webservice/src/main/java/org/mitre/synthea/webservice/Request.java:193-199 | opens the JSON file for appending and writes "[" after any earlier text |
| Webservice.Request.CollectorHalt | webservice/src/main/java/org/mitre/synthea/webservice/Request.java:203-224 | on a stop: deletes the JSON and ZIP files and deregisters the request, without finishing it |
| Webservice.Request.CollectorAbort | webservice/src/main/java/org/mitre/synthea/webservice/Request.java:258-266 | on an exception: deregisters the request, which stays unfinished |
| Webservice.Request.WriteRecord | webservice/src/main/java/org/mitre/synthea/webservice/Request.java:247-257 | the JSON file holds "[" and the body of every record produced so far |
| Webservice.Request.Enqueue | webservice/src/main/java/org/mitre/synthea/webservice/Request.java:236-244 | the record is produced and offered to the bounded queue |
| Webservice.Request.Keep | webservice/src/main/java/org/mitre/synthea/webservice/Request.java:236-257 | queues and writes the record |
| Webservice.Request.CollectorTake | webservice/src/main/java/org/mitre/synthea/webservice/Request.java:226-257 | sends the record to the client, queues it and writes it |
| Webservice.Request.CollectorStep | webservice/src/main/java/org/mitre/synthea/webservice/Request.java:201-266 | one loop iteration: a stop halts; a record is sent, queued and written; an interrupt or failure aborts |
| Webservice.Request.CloseResults | webservice/src/main/java/org/mitre/synthea/webservice/Request.java:269 | closes the array: the file holds the prefix and the JSON array of all records |
| Webservice.Request.ArchiveResults | webservice/src/main/java/org/mitre/synthea/webservice/Request.java:290-336 | writes the ZIP archive of configuration and results, then deletes the JSON file |
| Webservice.Request.CollectorFinish | webservice/src/main/java/org/mitre/synthea/webservice/Request.java:269-336 | after the loop: finished, "Completed" sent, archive written, JSON file gone |
| Webservice.Request.CollectOne | webservice/src/main/java/org/mitre/synthea/webservice/Request.java:226-257 | keeps the collector invariant while one more record is produced |
| Webservice.Request.CollectRecords | webservice/src/main/java/org/mitre/synthea/webservice/Request.java:201-267 | the loop produces the generator's records in order until the population is reached or a fetch fails, keeping queue, file and messages in step |
| Webservice.Request.RunCollector | webservice/src/main/java/org/mitre/synthea/webservice/Request.java:185-339 | the whole result thread: completes iff the full population is produced, leaving the recent records queued, the archive written and every record plus "Completed" sent; otherwise the request is deregistered unfinished |
| Webservice.Request.Drain | webservice/src/main/java/org/mitre/synthea/webservice/RequestService.java:219-243 | draining returns the queued records as a JSON array, oldest first, and empties the queue |
| Webservice.RequestService.constructor | webservice/src/main/java/org/mitre/synthea/webservice/RequestService.java:53-95 | starts with no requests and the output directories derived from the base directory |
| Webservice.RequestService.GetRequest | webservice/src/main/java/org/mitre/synthea/webservice/RequestService.java:130-132 | returns the registered request, or null when none is registered |
| Webservice.RequestService.RemoveRequest | webservice/src/main/java/org/mitre/synthea/webservice/RequestService.java:137-139 | deregisters exactly that UUID |
| Webservice.RequestService.CreateRequest | webservice/src/main/java/org/mitre/synthea/webservice/RequestService.java:104-125 | unparsable text gives null; missing text or bad options throw; otherwise a fresh configured request is registered under the new UUID |
| Webservice.RequestService.GetCurrentResults | webservice/src/main/java/org/mitre/synthea/webservice/RequestService.java:206-245 | null for an unknown request, "[]" for an empty queue, else the drained JSON array; a finished request is deregistered once drained; other requests are untouched |
| Webservice.RequestService.SendMessage | webservice/src/main/java/org/mitre/synthea/webservice/RequestService.java:250-252 | forwards the message to the request's session |
| Webservice.RequestService.UpdateSyntheaConfig | webservice/src/main/java/org/mitre/synthea/webservice/RequestService.java:257-288 | copies whitelisted non-generator string settings into the configuration; succeeds iff all of them are strings |
| Webservice.StartDecision | webservice/src/main/java/org/mitre/synthea/webservice/SocketHandler.java:87-115 | starts exactly an existing request that is neither started nor finished; otherwise replies not found, finished or already running |
| Webservice.StopDecision | webservice/src/main/java/org/mitre/synthea/webservice/SocketHandler.java:116-147 | stops exactly a started, unfinished, unstopped request; otherwise replies not found, not started, finished or already stopped |
| Webservice.UpdateDecision | webservice/src/main/java/org/mitre/synthea/webservice/SocketHandler.java:64-86 | an update never acts on the request; it confirms only for a live request with a configuration |
| Webservice.StringMember | webservice/src/main/java/org/mitre/synthea/webservice/SocketHandler.java:51-52 | a string-valued member is read exactly when present as a string |
| Webservice.WithoutSession | webservice/src/main/java/org/mitre/synthea/webservice/SocketHandler.java:35-45 | after a close, no UUID stays mapped to the closed session, and the other mappings are kept |
| Webservice.RemoveFirstMappingLeavesOne | webservice/src/main/java/org/mitre/synthea/webservice/SocketHandler.java:44 | as written, a session mapped under two UUIDs keeps one mapping after closing |
| Webservice.RemoveFirstMappingAgrees | webservice/src/main/java/org/mitre/synthea/webservice/SocketHandler.java:44 | when a session is mapped under at most one UUID, the code as written matches the intended removal |
| Webservice.SocketHandler.constructor | webservice/src/main/java/org/mitre/synthea/webservice/SocketHandler.java:28-31 | starts with no sessions and nothing sent |
| Webservice.SocketHandler.Lookup | webservice/src/main/java/org/mitre/synthea/webservice/RequestService.java:130-132 | a snapshot exists exactly for a registered request |
| Webservice.SocketHandler.SendMessage | webservice/src/main/java/org/mitre/synthea/webservice/SocketHandler.java:158-175 | sends the message to the UUID's session, if one is mapped |
| Webservice.SocketHandler.AfterConnectionClosed | webservice/src/main/java/org/mitre/synthea/webservice/SocketHandler.java:35-45 | drops every mapping to the closed session; an abnormal close is recorded |
| Webservice.SocketHandler.Reply | webservice/src/main/java/org/mitre/synthea/webservice/SocketHandler.java:93-113 | replies to the sender or to the mapped session; a missing mapping throws NullPointerException |
| Webservice.SocketHandler.HandleConfigure | webservice/src/main/java/org/mitre/synthea/webservice/SocketHandler.java:53-63 | a good configuration registers a fresh request, maps the session and replies with the configuration; otherwise an error reply or an exception |
| Webservice.SocketHandler.HandleStart | webservice/src/main/java/org/mitre/synthea/webservice/SocketHandler.java:87-115 | follows the start decision, replying on the mapped session; without a UUID it replies "UUID required"; a started request changes only its started flag and phase, and any other outcome leaves the request unchanged |
| Webservice.SocketHandler.HandleStop | webservice/src/main/java/org/mitre/synthea/webservice/SocketHandler.java:116-147 | follows the stop decision, replying on the mapped session; without a UUID it replies "UUID required"; a stopped request changes only its stop flag, and any other outcome leaves the request unchanged |
| Webservice.SocketHandler.HandleUpdateRequest | webservice/src/main/java/org/mitre/synthea/webservice/SocketHandler.java:64-86 | follows the update decision; without a UUID it replies "UUID missing" |
| Webservice.SocketHandler.HandleTextMessage | webservice/src/main/java/org/mitre/synthea/webservice/SocketHandler.java:48-156 | an unparsable message changes nothing; "configure", "update-request", "start" and "stop" have the outcome, replies, session map and request effects their handlers state, including that a started or stopped request changes only its flag; every request not named by a "start" or "stop" is unchanged; an unknown operation gets "Unsupported operation" |
| WebController.Publications | webservice/src/main/java/org/mitre/synthea/webservice/Controller.java:313 | one publication to "/json/" + UUID per record, in order |
| WebController.PublicationsSnoc | webservice/src/main/java/org/mitre/synthea/webservice/Controller.java:313 | one more record adds exactly its publication |
| WebController.Taken | webservice/src/main/java/org/mitre/synthea/webservice/Controller.java:291-321 | the records a result thread takes: a prefix of the generator's records, at most the population, stopping only at the population or at a failed fetch |
| WebController.TakenIs | webservice/src/main/java/org/mitre/synthea/webservice/Controller.java:291-321 | any record sequence meeting those conditions is exactly what is taken |
| WebController.Controller.constructor | webservice/src/main/java/org/mitre/synthea/webservice/Controller.java:96-110 | starts with no threads, generators, queues or flags, and with the ZIP directory derived from the base directory |
| WebController.Controller.CleanupAll | webservice/src/main/java/org/mitre/synthea/webservice/Controller.java:138-145 | removes the UUID from every registry and leaves the other entries |
| WebController.Controller.UpdateSyntheaConfigAsWritten | webservice/src/main/java/org/mitre/synthea/webservice/Controller.java:198-233 | as written: an empty configuration throws NullPointerException before the request is marked; any other marks exporter.webclient |
| WebController.Controller.MarkWebClient | webservice/src/main/java/org/mitre/synthea/webservice/Controller.java:232 | sets exporter.webclient to true |
| WebController.Controller.GenerateResults | webservice/src/main/java/org/mitre/synthea/webservice/Controller.java:241-359 | a missing body throws, unparsable JSON gives 400, bad options throw JSONException and change nothing; otherwise replies with the UUID, registers both threads with an empty queue and records the seed |
| WebController.Controller.Deliver | webservice/src/main/java/org/mitre/synthea/webservice/Controller.java:296-313 | queues and publishes one record, keeping the stream invariant |
| WebController.Controller.Archived | webservice/src/main/java/org/mitre/synthea/webservice/Controller.java:326-352 | retires the generation thread and writes the ZIP of configuration and records |
| WebController.Controller.RestCollect | webservice/src/main/java/org/mitre/synthea/webservice/Controller.java:284-354 | publishes every taken record; on completion queues the recent records and writes the archive; an interrupt deregisters the request; a failure keeps what was queued |
| WebController.Controller.GetResultsZip | webservice/src/main/java/org/mitre/synthea/webservice/Controller.java:377-420 | 400 without a UUID; 202 while the result thread runs and 404 otherwise when no archive exists; 500 on a read error; else downloads the archive, deletes it and retires the request |
| WebController.Controller.DrainQueue | webservice/src/main/java/org/mitre/synthea/webservice/Controller.java:429-475 | returns the queued records as a JSON array and empties the queue |
| WebController.Controller.GetResultsJson | webservice/src/main/java/org/mitre/synthea/webservice/Controller.java:429-475 | 400 without a UUID, 404 for an unknown request, "[]" for an empty queue; else the drained array, retiring the request once generation has ended |
| WebController.Controller.DeleteRequest | webservice/src/main/java/org/mitre/synthea/webservice/Controller.java:486-530 | 400 without a UUID, 404 for an unknown request, 500 when a thread cannot be stopped; else deregisters it and deletes its archive |
| WebController.Controller.DeleteExpiredZipFiles | webservice/src/main/java/org/mitre/synthea/webservice/Controller.java:535-558 | a failed listing changes nothing; otherwise the ZIP directory is swept with the controller's limit |
| WebController.Controller.WebSocketConfig | webservice/src/main/java/org/mitre/synthea/webservice/Controller.java:566-597 | a missing body or bad JSON fails and changes nothing; otherwise registers the generator and replies with the configuration and seed |
| WebController.Controller.WebSocketStart | webservice/src/main/java/org/mitre/synthea/webservice/Controller.java:604-674 | "Started" exactly for a known request without a result thread, "Restarted" exactly for a paused one, "Already started" otherwise; errors without a UUID or for an unknown request |
| WebController.Controller.WebSocketPause | webservice/src/main/java/org/mitre/synthea/webservice/Controller.java:681-705 | "Paused" exactly for a running, unpaused request, and only then is the pause flag raised |
| WebController.Controller.WebSocketStop | webservice/src/main/java/org/mitre/synthea/webservice/Controller.java:712-736 | "Stopped" exactly for a running, unstopped request, and only then is the stop flag raised |
| WebController.Controller.WsCollectorStep | webservice/src/main/java/org/mitre/synthea/webservice/Controller.java:622-654 | one iteration of the WebSocket thread: completion publishes "Completed"; a pause waits; a stop or interrupt deregisters; a record is published |
| Places.PlaceOfRow | src/main/java/org/mitre/synthea/world/geography/place/Place.java:33-41 | the text fields come from USPS, ST, NAME and ZCTA5; latitude is parsed before longitude and a failure of either propagates; the coordinate is stored longitude first |
| Places.StateCityZipPlace | src/main/java/org/mitre/synthea/world/geography/StateCityZipPlace.java:23-31 | the six values are stored unchanged, latitude on the first axis |
| Places.SameState | src/main/java/org/mitre/synthea/world/geography/place/Place.java:48-51 | true iff the state name or, failing that, the abbreviation equals the text ignoring case; comparing a null field throws |
| Places.SameStateIgnoresCase | src/main/java/org/mitre/synthea/world/geography/StateCityZipPlace.java:38-41 | spellings that differ only in case give the same answer |
| Places.SameStateOwnNames | src/main/java/org/mitre/synthea/world/geography/place/StateCityZipPlace.java:40-43 | a place is in the state it names, by name or abbreviation, in any case |
| Places.MakeMapForPerson | src/main/java/org/mitre/synthea/world/geography/place/StateCityZipPlace.java:65-71 | a map with exactly CITY and STATE, holding the place's name and state |
| Places.PlaceFromRow | src/main/java/org/mitre/synthea/world/geography/PlaceLoader.java:48-56 | the fields come from the configured headers; latitude and longitude are parsed and passed in that order; a parse failure propagates |
| Places.RowConstructorSwapsAxes | src/main/java/org/mitre/synthea/world/geography/StateCityZipPlaceFactory.java:27-35 | with the default headers, the factory and place/Place's row constructor succeed together and agree on the text fields, but store the two axes in opposite order |
| CsvRows.Cell | src/main/java/org/mitre/synthea/world/geography/PlaceLoader.java:49-52 | a cell exists exactly when the row has the header |
| CsvRows.ParseCell | src/main/java/org/mitre/synthea/world/geography/PlaceLoader.java:53-55 | a missing cell throws NullPointerException, bad text NumberFormatException; else the parsed value |
| LinkedMaps.Keys | src/main/java/org/mitre/synthea/world/geography/StateAbbreviationsLoader.java:62-74 | the keys in insertion order |
| LinkedMaps.Get | src/main/java/org/mitre/synthea/world/geography/StateAbbreviationsLoader.java:62-74 | a value exists exactly for a present key and is the one stored under it |
| LinkedMaps.Put | src/main/java/org/mitre/synthea/world/geography/StateAbbreviationsLoader.java:71 | `put` stores the value; a new key goes last, an existing key keeps its position; other keys are unaffected |
| LinkedMaps.LastValue | src/main/java/org/mitre/synthea/world/geography/StateAbbreviationsLoader.java:62-74 | the value of the last entry with the key, or none when no entry has it |
| LinkedMaps.FirstOccurrences | src/main/java/org/mitre/synthea/world/geography/StateAbbreviationsLoader.java:62-74 | the same elements, each at its first position |
| LinkedMaps.PutAllGet | src/main/java/org/mitre/synthea/world/geography/StateAbbreviationsLoader.java:62-74 | after putting a sequence of entries, each key holds its last value |
| LinkedMaps.PutAllKeys | src/main/java/org/mitre/synthea/world/geography/StateAbbreviationsLoader.java:62-74 | after putting a sequence of entries, the keys are in order of first appearance |
| LinkedMaps.FirstOccurrencesDistinct | src/main/java/org/mitre/synthea/world/geography/StateAbbreviationsLoader.java:62-74 | distinct keys keep their order |
| LinkedMaps.GetOrDefault | src/main/java/org/mitre/synthea/world/concepts/Costs.java:162-186 | the stored value, or the default for a missing key |
| StateAbbreviations.Entries | src/main/java/org/mitre/synthea/world/geography/StateAbbreviationsLoader.java:67-71 | one (state, abbreviation) entry per line, from the configured headers |
| StateAbbreviations.LoadAbbrsFromCsv | src/main/java/org/mitre/synthea/world/geography/StateAbbreviationsLoader.java:62-74 | the loop builds the table of one `put` per line |
| StateAbbreviations.LoadAbbreviations | src/main/java/org/mitre/synthea/world/geography/StateAbbreviationsLoader.java:42-60 | the zip-code file with USPS and ST is tried first; then the default file with State and Abbreviation; null when both fail |
| StateAbbreviations.LastLineWins | src/main/java/org/mitre/synthea/world/geography/StateAbbreviationsLoader.java:62-74 | a state's abbreviation is the one on its last line |
| StateAbbreviations.FirstLineKeepsPosition | src/main/java/org/mitre/synthea/world/geography/StateAbbreviationsLoader.java:62-74 | states are ordered by their first line |
| Demographics.RangeOf | src/main/java/org/mitre/synthea/world/geography/demographics/Demographics.java:51-54 | a label "low..high" reads iff it splits into at least two integers, and yields them |
| Demographics.InclusivePick | src/main/java/org/mitre/synthea/world/geography/demographics/Demographics.java:56-58 | the pick is an `int`; it never fails when high - low + 1 fits, and a non-positive bound is an IllegalArgumentException |
| Demographics.InclusivePickInRange | src/main/java/org/mitre/synthea/world/geography/demographics/Demographics.java:56-58 | without overflow, the pick lies in [low, high], both ends included |
| Demographics.AgeInDrawnRange | src/main/java/org/mitre/synthea/world/geography/demographics/Demographics.java:38-59 | an age comes from a drawn range of the distribution and lies in it |
| Demographics.IncomeInDrawnBracket | src/main/java/org/mitre/synthea/world/geography/demographics/Demographics.java:250-276 | an income lies in the drawn bracket, in thousands |
| Demographics.Demographics.constructor | src/main/java/org/mitre/synthea/world/geography/demographics/Demographics.java:26-36 | a new record holds its tables and no distribution yet |
| Demographics.Demographics.PickAge | src/main/java/org/mitre/synthea/world/geography/demographics/Demographics.java:38-59 | builds the age distribution once and draws an age from it; nothing else changes |
| Demographics.Demographics.PickGender | src/main/java/org/mitre/synthea/world/geography/demographics/Demographics.java:61-72 | builds the gender distribution once and returns the drawn label |
| Demographics.Demographics.PickRace | src/main/java/org/mitre/synthea/world/geography/demographics/Demographics.java:74-87 | builds the race distribution once and returns the drawn label |
| Demographics.Demographics.PickIncome | src/main/java/org/mitre/synthea/world/geography/demographics/Demographics.java:250-276 | builds the income distribution once, without "mean" and "median", and draws from it |
| Demographics.Demographics.PickEducation | src/main/java/org/mitre/synthea/world/geography/demographics/Demographics.java:297-304 | builds the education distribution once and returns the drawn label |
| Demographics.IncomeDrawIsBracket | src/main/java/org/mitre/synthea/world/geography/demographics/Demographics.java:253-256 | an income draw is never the mean or median entry |
| Demographics.EthnicityFromRace | src/main/java/org/mitre/synthea/world/geography/demographics/Demographics.java:89-130 | "native" gives american_indian, an unknown race gives arab, the others draw from their table |
| Demographics.LanguageFromEthnicity | src/main/java/org/mitre/synthea/world/geography/demographics/Demographics.java:132-248 | English-speaking and unknown ethnicities give english; the others draw from their table |
| Demographics.EthnicityIsKnown | src/main/java/org/mitre/synthea/world/geography/demographics/Demographics.java:89-130 | every ethnicity produced is a known one |
| Demographics.EveryEthnicityHasLanguages | src/main/java/org/mitre/synthea/world/geography/demographics/Demographics.java:132-248 | every known ethnicity is English-speaking or has a language table |
| Demographics.WhiteEthnicitiesHaveLanguages | src/main/java/org/mitre/synthea/world/geography/demographics/Demographics.java:132-248 | the same for the white ethnicities |
| Demographics.HispanicEthnicitiesHaveLanguages | src/main/java/org/mitre/synthea/world/geography/demographics/Demographics.java:132-248 | every hispanic ethnicity has a language table |
| Demographics.BlackEthnicitiesHaveLanguages | src/main/java/org/mitre/synthea/world/geography/demographics/Demographics.java:132-248 | every black ethnicity has a language table |
| Demographics.AsianEthnicitiesHaveLanguages | src/main/java/org/mitre/synthea/world/geography/demographics/Demographics.java:132-248 | every asian ethnicity has a language table |
| Demographics.LanguageIsKnown | src/main/java/org/mitre/synthea/world/geography/demographics/Demographics.java:132-248 | every language produced is a known one |
| Demographics.IncomeLevel | src/main/java/org/mitre/synthea/world/geography/demographics/Demographics.java:278-295 | 1.0 at or above the high income, 0.0 at or below poverty, strictly between otherwise |
| Demographics.EducationLevel | src/main/java/org/mitre/synthea/world/geography/demographics/Demographics.java:306-336 | an unknown level gives 0.0 |
| Demographics.EducationLevelDefaultsInUnit | src/main/java/org/mitre/synthea/world/geography/demographics/Demographics.java:306-336 | with the default ranges, every level lies in [0, 1) |
| Demographics.SocioeconomicCategory | src/main/java/org/mitre/synthea/world/geography/demographics/Demographics.java:354-367 | High iff the score reaches the high threshold, Middle iff it reaches only the middle one, Low otherwise |
| DemographicsLoading.AgeColumns | src/main/java/org/mitre/synthea/world/geography/demographics/DemographicsLoader.java:90-95 | age group k is read from the column named k + 1 |
| DemographicsLoading.LowerColumns | src/main/java/org/mitre/synthea/world/geography/demographics/DemographicsLoader.java:101-105 | each race column is stored under its lower-cased name |
| DemographicsLoading.SameColumns | src/main/java/org/mitre/synthea/world/geography/demographics/DemographicsLoader.java:107-116 | each income column is stored under its own name |
| DemographicsLoading.ErrorPersists | src/main/java/org/mitre/synthea/world/geography/demographics/DemographicsLoader.java:90-127 | the first failing column's exception ends the line |
| DemographicsLoading.FrequenciesOk | src/main/java/org/mitre/synthea/world/geography/demographics/DemographicsLoader.java:90-127 | a table loop succeeds iff every column reads, and otherwise fails with the first failing column's exception |
| DemographicsLoading.FrequenciesKeys | src/main/java/org/mitre/synthea/world/geography/demographics/DemographicsLoader.java:90-127 | a loaded table has exactly the configured keys |
| DemographicsLoading.FrequenciesLastWins | src/main/java/org/mitre/synthea/world/geography/demographics/DemographicsLoader.java:90-127 | a key holds the value of its last column |
| DemographicsLoading.FillFrequencies | src/main/java/org/mitre/synthea/world/geography/demographics/DemographicsLoader.java:107-116 | the loop computes the table the columns denote, an empty cell giving the placeholder 0.01 where allowed |
| DemographicsLoading.GenderOf | src/main/java/org/mitre/synthea/world/geography/demographics/DemographicsLoader.java:97-99 | male and female come from the first two sex columns; with fewer than two, IndexOutOfBoundsException after the first read |
| DemographicsLoading.CsvLineToDemographics | src/main/java/org/mitre/synthea/world/geography/demographics/DemographicsLoader.java:78-130 | the loops compute the profile the line denotes, table by table, in the source's order of failure |
| DemographicsLoading.ProfileShape | src/main/java/org/mitre/synthea/world/geography/demographics/DemographicsLoader.java:78-130 | a loaded profile holds the truncated population, the city, state and county cells, and tables with exactly the configured keys |
| DemographicsLoading.AgeColumnKeys | src/main/java/org/mitre/synthea/world/geography/demographics/DemographicsLoader.java:90-95 | the age table's keys are the configured age groups |
| DemographicsLoading.LowerColumnKeys | src/main/java/org/mitre/synthea/world/geography/demographics/DemographicsLoader.java:101-105 | the race and education keys are the lower-cased headers |
| DemographicsLoading.SameColumnKeys | src/main/java/org/mitre/synthea/world/geography/demographics/DemographicsLoader.java:107-116 | the income keys are the headers themselves |
| DemographicsLoading.AgeGroupReadsNumberedColumn | src/main/java/org/mitre/synthea/world/geography/demographics/DemographicsLoader.java:90-95 | age group k holds the value of column k + 1 |
| DemographicsLoading.EmptyCellIsPlaceholder | src/main/java/org/mitre/synthea/world/geography/demographics/DemographicsLoader.java:107-116 | an empty income cell is stored as 0.01; any other cell is parsed |
| DemographicsLoading.MissingRaceColumnFails | src/main/java/org/mitre/synthea/world/geography/demographics/DemographicsLoader.java:101-105 | a missing race column makes the line fail |
| DemographicsLoading.GeographyLoaderReadsTotals | src/main/java/org/mitre/synthea/world/geography/DemographicsLoader.java:40-42 | the older loader reads gender from TOT_MALE and TOT_FEMALE |
| DemographicsLoading.TableFrom | src/main/java/org/mitre/synthea/world/geography/demographics/DemographicsLoader.java:63-73 | every entry of the table is for the wanted state ignoring case; lines of no matching state give an empty table |
| DemographicsLoading.TableErrorPersists | src/main/java/org/mitre/synthea/world/geography/demographics/DemographicsLoader.java:63-73 | a failing line ends the load with its exception |
| DemographicsLoading.Load | src/main/java/org/mitre/synthea/world/geography/demographics/DemographicsLoader.java:42-76 | an unreadable file gives null, a null state an empty table; otherwise the table of the lines whose state matches ignoring case |
| DemographicsLoading.TableEntriesFromLines | src/main/java/org/mitre/synthea/world/geography/demographics/DemographicsLoader.java:63-73 | every entry comes from a line of the wanted state, under that line's state and city |
| DemographicsLoading.TableHasEveryLine | src/main/java/org/mitre/synthea/world/geography/demographics/DemographicsLoader.java:63-73 | every line of the wanted state has an entry |
| DemographicsLoading.TableEntryNamesItsCity | src/main/java/org/mitre/synthea/world/geography/demographics/DemographicsLoader.java:63-73 | an entry's profile names the city and state it is stored under, which matches the wanted state |
| LoaderConfigs.ParseDigits | src/main/java/org/mitre/synthea/world/geography/demographics/Demographics.java:53 | `Integer.parseInt` reads a non-empty digit string that fits in an `int` |
| LoaderConfigs.SplitDigits | src/main/java/org/mitre/synthea/world/geography/demographics/Demographics.java:51 | a label "a..b" of digits splits into a and b |
| LoaderConfigs.RangeOfDigits | src/main/java/org/mitre/synthea/world/geography/demographics/Demographics.java:51-54 | such a label reads as the two numbers |
| LoaderConfigs.RangeOfNats | src/main/java/org/mitre/synthea/world/geography/demographics/Demographics.java:51-54 | a label written from two numbers reads back as them |
| LoaderConfigs.DefaultAgeGroupsTile | src/main/java/org/mitre/synthea/world/geography/demographics/DefaultDemographicsLoader.java:26-28 | default age group k covers ages 5k to 5k + 4 |
| LoaderConfigs.OldestAgeGroup | src/main/java/org/mitre/synthea/world/geography/demographics/DefaultDemographicsLoader.java:26-28 | the last default age group covers 85 to 110 |
| LoaderConfigs.DefaultIncomeBracket | src/main/java/org/mitre/synthea/world/geography/demographics/DefaultDemographicsLoader.java:32-33 | each default income bracket after the first starts where the previous one ends |
| LoaderConfigs.PoorestIncomeBracket | src/main/java/org/mitre/synthea/world/geography/demographics/DefaultDemographicsLoader.java:32-33 | the first default income bracket, "00..10", reads as 0 to 10 |
| LoaderConfigs.AcsAgeGroupsTile | src/main/java/org/mitre/synthea/world/geography/ACSFactFinderDemographicsLoader.java:23-24 | the ACS age groups tile the adult ages without gaps |
| LoaderConfigs.AcsPoorerIncomeBracket | src/main/java/org/mitre/synthea/world/geography/ACSFactFinderDemographicsLoader.java:28 | the first ACS income bracket reads as 0 to 11 |
| LoaderConfigs.AcsRicherIncomeBracket | src/main/java/org/mitre/synthea/world/geography/ACSFactFinderDemographicsLoader.java:28 | the second ACS income bracket reads as 11 to 999 |
| LoaderConfigs.DefaultAgeGroupsWithin | src/main/java/org/mitre/synthea/world/geography/demographics/DefaultDemographicsLoader.java:26-28 | every default age group reads and lies within 0 to 110 |
| LoaderConfigs.DefaultIncomesWithin | src/main/java/org/mitre/synthea/world/geography/demographics/DefaultDemographicsLoader.java:32-33 | every default income bracket reads and lies within 0 to 999 |
| LoaderConfigs.DefaultIncomeEndsAscend | src/main/java/org/mitre/synthea/world/geography/demographics/DefaultDemographicsLoader.java:32-33 | the default bracket ends increase strictly |
| LoaderConfigs.AcsAgeGroupsWithin | src/main/java/org/mitre/synthea/world/geography/ACSFactFinderDemographicsLoader.java:23-24 | every ACS age group reads and lies within 18 to 110 |
| LoaderConfigs.AcsIncomesWithin | src/main/java/org/mitre/synthea/world/geography/ACSFactFinderDemographicsLoader.java:28 | every ACS income bracket reads and lies within 0 to 999 |
| LoaderConfigs.LoadedAgeWithin | src/main/java/org/mitre/synthea/world/geography/demographics/Demographics.java:38-59 | an age drawn from a loaded profile lies within the bounds of the configured age groups |
| LoaderConfigs.AgeWithin | src/main/java/org/mitre/synthea/world/geography/demographics/Demographics.java:38-59 | an age drawn from a table keyed by such groups lies within their bounds |
| LoaderConfigs.LoadedIncomeWithin | src/main/java/org/mitre/synthea/world/geography/demographics/Demographics.java:250-276 | an income drawn from a loaded profile lies within the configured brackets, in thousands |
| LoaderConfigs.ConfiguredPicksWithin | src/main/java/org/mitre/synthea/world/geography/demographics/DefaultDemographicsLoader.java:17-48 | with either fixed configuration, ages lie in 0 to 110 (18 to 110 for ACS) and incomes in 0 to 999000 |
| Locations.CityPopulations | src/main/java/org/mitre/synthea/world/geography/location/Location.java:94-102 | one (city, population) pair per demographics entry, the city named inside the entry |
| Locations.CumulativeStep | src/main/java/org/mitre/synthea/world/geography/location/Location.java:94-102 | the running total grows by each entry's population |
| Locations.RowMap | src/main/java/org/mitre/synthea/world/geography/location/Location.java:84-92 | the row's city map knows exactly the row's cities, with their demographics |
| Locations.LineOutcome | src/main/java/org/mitre/synthea/world/geography/location/Location.java:111-135 | a zip-code line contributes its place iff the place is in the state; a line whose place cannot be built or compared throws |
| Locations.KeptErrorPersists | src/main/java/org/mitre/synthea/world/geography/location/Location.java:111-135 | the first failing zip-code line ends the loop with its exception |
| Locations.KeptPlacesOk | src/main/java/org/mitre/synthea/world/geography/location/Location.java:111-135 | the zip-code loop succeeds exactly when no line throws |
| Locations.KeptPlacesMembers | src/main/java/org/mitre/synthea/world/geography/location/Location.java:111-135 | the loop keeps exactly the places of the lines in the state |
| Locations.Group | src/main/java/org/mitre/synthea/world/geography/location/Location.java:124-133 | the places of one name, in line order |
| Locations.GroupsOfSnoc | src/main/java/org/mitre/synthea/world/geography/location/Location.java:124-133 | each kept place is appended to the group of its name, creating the group if needed |
| Locations.GroupsOfFilters | src/main/java/org/mitre/synthea/world/geography/location/Location.java:111-135 | the zip table has a group for exactly the names that occur, each holding that name's places in line order |
| Locations.Constructed | src/main/java/org/mitre/synthea/world/geography/location/Location.java:80-136 | every failure of the constructor surfaces as ExceptionInInitializerError |
| Locations.TallyPopulation | src/main/java/org/mitre/synthea/world/geography/location/Location.java:94-102 | the first loop computes the total population and the insertion-ordered population table |
| Locations.GroupZipCodes | src/main/java/org/mitre/synthea/world/geography/location/Location.java:111-135 | the second loop computes the grouping of the state's places, or the first line's exception |
| Locations.Build | src/main/java/org/mitre/synthea/world/geography/location/Location.java:80-136 | the constructor yields the location its inputs denote |
| Locations.BuiltLocationOk | src/main/java/org/mitre/synthea/world/geography/location/Location.java:80-136 | construction succeeds iff the row loaded, names the configured city, and the zip file was read without a failing line |
| Locations.BuiltLocationFields | src/main/java/org/mitre/synthea/world/geography/location/Location.java:80-136 | a built location keeps the city, knows every city of the row, totals every population and groups the state's places by name |
| Locations.ZipCode | src/main/java/org/mitre/synthea/world/geography/location/Location.java:146-159 | the exact name, else the name plus " Town"; a missing or empty group gives "00000", else the first postal code |
| Locations.ZipCodeOfFirstLine | src/main/java/org/mitre/synthea/world/geography/Location.java:113-126 | for a built location, the zip code is the postal code of the state's first line of that name |
| Locations.Population | src/main/java/org/mitre/synthea/world/geography/location/Location.java:161-163 | 0 for an unknown city, else its population |
| Locations.PopulationOfEachCity | src/main/java/org/mitre/synthea/world/geography/Location.java:128-130 | for distinct cities, each has its own entry's population |
| Locations.TargetInRange | src/main/java/org/mitre/synthea/world/geography/location/Location.java:185-198 | the random target lies in [0, total) |
| Locations.PickCity | src/main/java/org/mitre/synthea/world/geography/location/Location.java:185-198 | a pick is the name of one of the cities, the first one when the target is below its population; the only failure is RuntimeException |
| Locations.PickCityFirstExceeding | src/main/java/org/mitre/synthea/world/geography/location/Location.java:185-198 | the pick is the first city whose cumulative population exceeds the target; it throws exactly when none does |
| Locations.RandomCityName | src/main/java/org/mitre/synthea/world/geography/location/Location.java:185-198 | the subtraction loop computes that population-weighted pick |
| Locations.RandomCityNameSucceeds | src/main/java/org/mitre/synthea/world/geography/Location.java:152-165 | for a built location whose entries name different cities and whose total is positive, the weighted pick always returns a city of the row; a loaded row names each entry after its own key, so its entries name different cities |
| Locations.PutAllFresh | src/main/java/org/mitre/synthea/world/geography/location/Location.java:94-102 | distinct cities keep their row order in the population table |
| Locations.CityProfile | src/main/java/org/mitre/synthea/world/geography/location/Location.java:172-178 | the demographics of a known city name, null otherwise |
| Locations.RandomCity | src/main/java/org/mitre/synthea/world/geography/location/Location.java:172-178 | the configured city's demographics if set, else those of the weighted pick |
| Locations.RandomCityHasDemographics | src/main/java/org/mitre/synthea/world/geography/Location.java:139-145 | a configured city and every city the pick can return have demographics |
| Locations.Candidates | src/main/java/org/mitre/synthea/world/geography/location/Location.java:210-257 | the name is tried first, then the suffixed names and the name without its last word |
| Locations.FirstPresent | src/main/java/org/mitre/synthea/world/geography/location/Location.java:210-257 | the first candidate name the zip table knows |
| Locations.ZipsFor | src/main/java/org/mitre/synthea/world/geography/location/Location.java:210-257 | the group chosen by the fallback chain is one of the table's groups; none known throws |
| Locations.ZipsForFirstCandidate | src/main/java/org/mitre/synthea/world/geography/location/Location.java:210-257 | the chain of fallbacks picks the first known candidate; a null name throws NullPointerException, no match RuntimeException |
| Locations.AssignPoint | src/main/java/org/mitre/synthea/world/geography/location/Location.java:210-257 | without a name, an empty table is an IllegalArgumentException; an assigned point is a member of one of the table's groups; the key draw and the place draw are independent |
| Locations.AssignedPointFromPlaces | src/main/java/org/mitre/synthea/world/geography/location/Location.java:210-257 | an assigned point is the coordinate of one of the places the table was built from |
| Locations.AssignedPointInState | src/main/java/org/mitre/synthea/world/geography/Location.java:177-224 | for a built location, an assigned point comes from a zip-code line in the state |
| Locations.AssignPointSucceeds | src/main/java/org/mitre/synthea/world/geography/location/Location.java:210-257 | assignment never fails for a known name, or for no name and a non-empty table |
| Locations.Abbreviation | src/main/java/org/mitre/synthea/world/geography/location/Location.java:264-266 | the stored abbreviation, null for an unknown state; an unloaded table throws |
| Locations.IndexOf | src/main/java/org/mitre/synthea/world/geography/location/Location.java:275-284 | the state's position among the keys, or the number of keys when it is absent |
| Locations.GetIndex | src/main/java/org/mitre/synthea/world/geography/location/Location.java:275-284 | the loop counts the keys before the state |
| Locations.IndexIdentifiesState | src/main/java/org/mitre/synthea/world/geography/location/Location.java:275-284 | different states present in the table get different indices |
| Locations.NameFor | src/main/java/org/mitre/synthea/world/geography/location/Location.java:291-298 | the reverse lookup returns only states of the table whose abbreviation matches; null (with no null state) means none matches; it fails only with NullPointerException |
| Locations.StateName | src/main/java/org/mitre/synthea/world/geography/location/Location.java:291-298 | a table that failed to load throws; a returned state has an abbreviation equal to the given one ignoring case; null (with no null state) means every state has an abbreviation and none matches |
| Locations.GetStateName | src/main/java/org/mitre/synthea/world/geography/location/Location.java:291-298 | the loop returns the first state whose abbreviation matches ignoring case |
| Locations.GetOwnEntry | src/main/java/org/mitre/synthea/world/geography/location/Location.java:291-298 | in a table without repeated keys, a key finds its own entry |
| Locations.NameForReaches | src/main/java/org/mitre/synthea/world/geography/location/Location.java:291-298 | the reverse lookup stops at the first matching state |
| Locations.NameForSkips | src/main/java/org/mitre/synthea/world/geography/location/Location.java:291-298 | the reverse lookup passes states whose abbreviation differs |
| Locations.StateNameInvertsAbbreviation | src/main/java/org/mitre/synthea/world/geography/Location.java:231-247 | the state name of a state's abbreviation is that state, when abbreviations are distinct ignoring case |
| Locations.TableKeysDistinct | src/main/java/org/mitre/synthea/world/geography/location/Location.java:264-266 | a loaded abbreviation table has no repeated keys |
| Locations.FirstOccurrencesUnique | src/main/java/org/mitre/synthea/world/geography/location/Location.java:264-266 | first occurrences are pairwise distinct |
| Locations.LoadTimezones | src/main/java/org/mitre/synthea/world/geography/location/Location.java:300-318 | STATE to TIMEZONE for every line; an unreadable file leaves the table empty |
| Locations.TimezoneByState | src/main/java/org/mitre/synthea/world/geography/location/Location.java:326-328 | the state's time zone, or null for a state without one |
| Locations.TimezoneFromLastLine | src/main/java/org/mitre/synthea/world/geography/location/Location.java:300-328 | a state's time zone is the one on its last line |
| Costs.FillErrorPersists | src/main/java/org/mitre/synthea/world/concepts/Costs.java:75-133 | the first line that throws ends a parse loop with its exception |
| Costs.FillOk | src/main/java/org/mitre/synthea/world/concepts/Costs.java:75-133 | a parse loop succeeds iff no line throws, and otherwise fails with the first failing line's exception |
| Costs.FillKeys | src/main/java/org/mitre/synthea/world/concepts/Costs.java:75-133 | a parsed table has exactly the keys of the lines that put an entry |
| Costs.FillLastWins | src/main/java/org/mitre/synthea/world/concepts/Costs.java:75-133 | a key holds the value of the last line that puts it |
| Costs.Caught | src/main/java/org/mitre/synthea/world/concepts/Costs.java:87-98 | a NumberFormatException on a cost line is caught and the line is skipped; any other exception escapes |
| Costs.CostLine | src/main/java/org/mitre/synthea/world/concepts/Costs.java:80-100 | a line puts its code exactly when MIN, MODE and MAX all parse; a missing cell throws NullPointerException |
| Costs.CostOutcomes | src/main/java/org/mitre/synthea/world/concepts/Costs.java:80-100 | one outcome per cost line, in order |
| Costs.ParseCsvToMap | src/main/java/org/mitre/synthea/world/concepts/Costs.java:75-106 | the loop computes the table the file denotes |
| Costs.CostFileOk | src/main/java/org/mitre/synthea/world/concepts/Costs.java:75-106 | a cost file loads iff it was read and no line has a missing price cell |
| Costs.PricedCodes | src/main/java/org/mitre/synthea/world/concepts/Costs.java:75-106 | a code is in the table iff some line prices it |
| Costs.LastPricedLineWins | src/main/java/org/mitre/synthea/world/concepts/Costs.java:75-106 | a code holds the prices of its last priced line |
| Costs.FactorLine | src/main/java/org/mitre/synthea/world/concepts/Costs.java:114-128 | a factor line puts its key exactly when ADJ_FACTOR parses; a malformed number becomes RuntimeException, a missing one NullPointerException |
| Costs.FactorOutcomes | src/main/java/org/mitre/synthea/world/concepts/Costs.java:114-128 | one outcome per factor line, in order |
| Costs.ParseAdjustmentFactors | src/main/java/org/mitre/synthea/world/concepts/Costs.java:108-133 | the loop computes the factor table the file denotes |
| Costs.FactorFileOk | src/main/java/org/mitre/synthea/world/concepts/Costs.java:108-133 | a factor file loads iff it was read and every factor parses |
| Costs.FactorFileKeys | src/main/java/org/mitre/synthea/world/concepts/Costs.java:108-133 | the factor table's keys are exactly the lines' keys |
| Costs.LastFactorLineWins | src/main/java/org/mitre/synthea/world/concepts/Costs.java:108-133 | a key holds the factor of its last line |
| Costs.CostTablesFrom | src/main/java/org/mitre/synthea/world/concepts/Costs.java:25-41 | the four tables load together or the class fails to initialise |
| Costs.Loaded | src/main/java/org/mitre/synthea/world/concepts/Costs.java:54-73 | a factor table is kept exactly when it loaded |
| Costs.AdjustmentFactors.constructor | src/main/java/org/mitre/synthea/world/concepts/Costs.java:43-45 | no factor table is loaded initially |
| Costs.AdjustmentFactors.LoadCostData | src/main/java/org/mitre/synthea/world/concepts/Costs.java:54-73 | each factor table is the file's table when it loads, and null when a line fails |
| Costs.MalformedZipFileFallsBack | src/main/java/org/mitre/synthea/world/concepts/Costs.java:54-73 | one malformed zip factor leaves the zip table unloaded without failing initialisation |
| Costs.BaseCost | src/main/java/org/mitre/synthea/world/concepts/Costs.java:162-186 | a missing first code throws; a code in the table gives its chosen price, any other code the type's default |
| Costs.LocationAdjustment | src/main/java/org/mitre/synthea/world/concepts/Costs.java:188-217 | 1.0 by default; the state factor when the state's abbreviation is in the table; the zip factor overrides it when the zip is listed; a patient with a state throws NullPointerException exactly when the abbreviation table or the state table is not loaded |
| Costs.CalculateCost | src/main/java/org/mitre/synthea/world/concepts/Costs.java:157-220 | 0 for an entry without a cost; otherwise base cost times location adjustment, or the first exception |
| Costs.UnpricedCodeCostsDefault | src/main/java/org/mitre/synthea/world/concepts/Costs.java:157-220 | a code no line prices costs the type's default times the adjustment |
| Engine.GlobalAttributes.constructor | src/main/java/org/mitre/synthea/engine/GlobalAttributes.java:31-34 | a fresh registry has no constants and no time-based attributes |
| Engine.GlobalAttributes.GetAttrsAtTime | src/main/java/org/mitre/synthea/engine/GlobalAttributes.java:55-61 | a new map with exactly the time-based attributes' keys, each at its value for the year; a missing year throws; neither field changes |
| Engine.Singleton.constructor | src/main/java/org/mitre/synthea/engine/GlobalAttributes.java:29 | no instance yet |
| Engine.Singleton.Attrs | src/main/java/org/mitre/synthea/engine/GlobalAttributes.java:41-46 | creates the instance once, then always returns the same one |
| Engine.Singleton.AttrsTwice | src/main/java/org/mitre/synthea/engine/GlobalAttributes.java:41-46 | two calls return the same instance |

## Left out

- Threads, `synchronized` blocks, the 200 ms sleep between records, the one-second pause poll and thread interrupts: each thread is a sequence of step methods, and an interrupt is one of the fetch outcomes.
- The patient generator, the exporters and the JSON form of a patient record: a record is an opaque string supplied by the fetch outcomes.
- The bytes of a ZIP archive: an archive is a value listing the entries it holds.
- Spring, WebSocket and HTTP plumbing, `WebSocketConfig.java`, the REST client, the browser UI and the helper scripts: they only carry messages to the modelled handlers.
- The static `Config` class: its properties are a map passed in, or held by `GeneratorConfig.SyntheaConfig`.
- Reading resource files and the option whitelist file: their contents are parameters.
- `Random`: every draw is a parameter function with the range the Java call guarantees.
- `Double.parseDouble` and IEEE arithmetic: a double is a real or NaN, parsing is a parameter, and infinities and rounding are not modelled.
- `triangularDistribution` and `CostData.chooseCost`: the cost drawn from a price range is the parameter `chosen`.
- `socioeconomicScore` and the other weighted draws of `Demographics`: only the tables, the categories and the ranges they draw from are modelled.
- Unicode case folding: `JavaText.ToLower` and `equalsIgnoreCase` act on ASCII letters only.
- `HashMap` iteration order: where the source iterates a hash map, the order is a parameter or the result is stated as a set or a map.
- Overflow of the `long` population sums in the `Location` classes: sums are unbounded integers.
- The person attribute map written by `assignPoint`: the model returns the coordinate that would be stored.
- `getLatLon` returns the stored point object, so callers can alias it; the model returns a value.
- The six-argument `Place` built by `PlaceLoader` is modelled as the `StateCityZipPlace` value with latitude and longitude.
- The loader constructors that pass seven arguments to a six-argument superclass constructor: the model uses each loader's fixed options.
- `SocketHandler` calls `createRequest(str, true)` and `request.updateConfig(...)`, which `RequestService` and `Request` do not define: the first is modelled as `createRequest(str)`; the second only decides the reply (`Webservice.UpdateDecision`).
- The one-argument `getZipFileObject(uuid)` called by `Request` is taken to name the `fhir` archive.
- The call from `Request.configure` to `updateSyntheaConfig` is commented out in the source; the method itself is modelled (`GeneratorConfig.UpdateSyntheaConfig`) but no request operation calls it.
- The conversion of an instant to a calendar year in `getAttrsAtTime`: the year is the parameter.
- Global attributes holding `null` or non-numeric values: only numeric values and `null` items are modelled.
- Webservice.Request.CollectorOpen: the file system never fails, so the IOException caught at the end of the result thread (after which the request is still marked finished and "Completed" is still sent) is not modelled.
- Webservice.Request.WriteRecord: a write that fails is not modelled; in the source it removes the request after the record has already been sent and queued.
- GeneratorConfig.GetInt: a fractional JSON number is taken as the exact decimal value, as org.json versions that read it as a `Double` do; the rounding of the text to a double, and versions that read it as a `BigDecimal` (whose narrowing wraps), are not modelled.
- GeneratorConfig.GetLong: as GeneratorConfig.GetInt; an integral number beyond 64 bits is narrowed by wrap-around.
- TimeSeries.ConstantSeries: years are unbounded integers. The library's `Year` accepts only -9999..9999, and its `next()` is null after 9999. So the source throws IllegalArgumentException for a start outside that range and NullPointerException once the loop passes 9999; the model returns points instead.
- TimeSeries.StepSeries: years are unbounded integers; the IllegalArgumentException that `new Year(i)` throws for a year outside -9999..9999 is not modelled.
- TimeSeries.PiecewiseSeries: years are unbounded integers; the IllegalArgumentException that `new Year(i)` throws for a year outside -9999..9999 is not modelled.
- TimeSeries.MakeSeries: inherits the unbounded years of TimeSeries.StepSeries and TimeSeries.PiecewiseSeries; the `Year` range error is not modelled.
- ArtifactPaths.OutputDirs: the directories stay relative paths; the source makes them absolute through `new File(...).toURI()`, which depends on the working directory.
- Cleanup.DeleteExpiredZipFiles: one `now` serves the whole sweep; the source reads the clock again for each file, so a file that expires during the sweep may also be deleted there.
- WebController.Controller.DeleteExpiredZipFiles: one `now` serves the whole sweep, as in Cleanup.DeleteExpiredZipFiles.
- JavaText.ToLower: ASCII letters only, as above.
- JavaText.Times: states only when the product is NaN; finite products are exact.
- JavaText.ParseIntegral: states the accepted range, not which texts are accepted; `ParseIntOfNatToString` gives the round trip.
- JavaText.Pieces: states only that there is at least one piece; `JoinPieces`, `PiecesAvoidSeparator` and `PiecesOfJoin` pin the pieces down.

## Findings

| source | as written | input that shows it | evidently intended | confidence | as-written member | corrected member |
|---|---|---|---|---|---|---|
| src/main/java/org/mitre/synthea/helpers/TimeSeriesUtils.java:103-106 | at a key year the floor and ceiling entries coincide, so the slope is 0.0/0 and the point is NaN | steps `{2000: 1.0, 2010: 2.0}`: year 2000 gets NaN | the series passes through each key's own value | high, not executed | TimeSeries.RampAsWrittenNaNAtKeys | TimeSeries.PiecewiseHitsKeys |
| webservice/src/main/java/org/mitre/synthea/webservice/Request.java:108-109 | `configuration.names()` is null for an empty object, and `names.length()` throws NullPointerException | the configuration `{}` | an empty configuration gives the default options | high, not executed | GeneratorConfig.EmptyConfigurationThrows | GeneratorConfig.ConfigureGeneratorOptions |
| webservice/src/main/java/org/mitre/synthea/webservice/Controller.java:158-159 | the Controller's copy of `configureGeneratorOptions` also calls `names().length()` | the body `{}` for `/generate` or `/configure` | an empty configuration gives the default options | high, not executed | GeneratorConfig.EmptyConfigurationThrows | GeneratorConfig.ConfigureGeneratorOptions |
| webservice/src/main/java/org/mitre/synthea/webservice/Controller.java:199-200 | the Controller's `updateSyntheaConfig` dereferences `names()` of an empty object | the body `{}` (reached only once the line 158 throw is corrected) | the request is still marked as a web-client request | high, not executed | WebController.Controller.UpdateSyntheaConfigAsWritten | WebController.Controller.MarkWebClient |
| webservice/src/main/java/org/mitre/synthea/webservice/RequestService.java:258-259 | the static `updateSyntheaConfig` dereferences `names()` of an empty object | the configuration `{}` | an empty configuration copies no setting | high, not executed | GeneratorConfig.UpdateSyntheaConfigAsWritten | GeneratorConfig.UpdateSyntheaConfig |
| webservice/src/main/java/org/mitre/synthea/webservice/Request.java:151-152 | the request's own `updateSyntheaConfig` dereferences `names()` of an empty object (the method is not called) | the configuration `{}` | an empty configuration copies no setting | high, not executed | GeneratorConfig.UpdateSyntheaConfigAsWritten | GeneratorConfig.UpdateSyntheaConfig |
| webservice/src/main/java/org/mitre/synthea/webservice/RequestService.java:56-61 | a base directory that already ends with the separator is replaced by the empty string, and an empty one becomes the separator | `output/` gives the empty string, and the empty string gives `/` | the separator is appended only when missing and the base is otherwise kept | high, not executed | ArtifactPaths.OutputBaseAsWrittenDropsBase | ArtifactPaths.OutputBase |
| webservice/src/main/java/org/mitre/synthea/webservice/CleanupService.java:51 | `maxAgeSeconds * 1000` is an `int` product and wraps past 2^31 - 1 | a maximum age of 2147484 seconds wraps to a negative limit, so every file counts as expired | the age limit in milliseconds, computed without overflow | medium, not executed | Cleanup.ExpiryOverflows | Cleanup.ExpiryAgreesWithoutOverflow |
| webservice/src/main/java/org/mitre/synthea/webservice/Controller.java:539 | the Controller's `checkForExpiredFile` computes the same `maxAgeSeconds * 1000` in `int` | a `zip.maxAgeSeconds` of 2147484 makes every ZIP file expired at once | the age limit in milliseconds, computed without overflow | medium, not executed | Cleanup.ExpiryOverflows | WebController.Controller.DeleteExpiredZipFiles |
| webservice/src/main/java/org/mitre/synthea/webservice/SocketHandler.java:44 | `sessions.values().remove(session)` removes only one mapping to the closed session | a session that started two requests keeps one of them after it closes | every request of the closed session is forgotten | medium, not executed | Webservice.RemoveFirstMappingLeavesOne | Webservice.WithoutSession |
