# orbiter-annotations-util, modelled in Dafny

This project models the core of `bemit/orbiter-annotations-util`. That PHP library:

- scans folders for class declarations;
- files the classes it finds under caller-chosen flags (groups);
- caches that index in a PHP file;
- joins the indexed classes against an annotation reader, producing lookup tables per annotation class, per class and per member.

Each source file has its own module:

| module | file | models |
|---|---|---|
| `Collections` | collections.dfy | `array_values(array_unique(..))`, `$m[$k] ?? []`, the `Option`/`Result` wrappers |
| `CodeInfoSource` | code_info_source.dfy | the immutable source registration record |
| `CodeInfoData` | code_info_data.dfy | the per-folder declaration store (a class over two maps) |
| `CodeAnalyzer` | code_analyzer.dfy | `parseFolder`: the extension filter and the ordered fold of the analysis |
| `CodeInfo` | code_info.dfy | the folder-consolidating index: `process`, the cache, `getClassNames` |
| `AnnotationResult` | annotation_result.dfy | the result record with its setters |
| `AnnotationDiscovery` | annotation_discovery.dfy | `discoverByAnnotation` and the four lookup tables |
| `Psr4Autoload` | psr4_autoload.dfy | the class-name to file-path mapping of `registerPsr4Namespace` |
| `AnnotationsUtil` | annotations_util.dfy | the static reader slot (`useReader` / `reader`) |

The stateful parts are classes whose methods are proved against pure specification functions:

- `CodeInfo.CodeInfo` is proved against `Folders`, `Requests`, `ScanAll` and `ClassNames`.
- `AnnotationDiscovery.AnnotationDiscovery` is proved against `Stream`, `Record` and `Apply`.
- `CodeInfoData.CodeInfoData` keeps its `Valid` invariant.
- `AnnotationResult.AnnotationResult` setters state the whole new record.

The properties the source promises are proved as lemmas about those functions.

Two behaviours of the code are easy to miss:

- `process` does not restore the flag list from the cache. After a restore, `getFlags()` is empty or stale. See `CodeInfo.CacheRoundTrip`.
- `process` merges extensions per folder. Every flag of a folder therefore sees the classes found under all extensions registered for that folder, not only under the extensions registered with that flag. See `CodeInfo.RequestMergesSources`.

Design choices:

- **The analyzer result.** It is abstract (type `D`). Its class names are given by `classNamesOf`. A null result (a folder that is not a directory) and a position missing from `info_data` contribute no names.
- **The analyzer call.** `CodeInfo` treats the call for one folder as a function of the request (folder, extensions, flags). A ghost log, `analyzerCalls`, records each call.
- **The cache.** It is a `CacheProbe`: the directory cannot be created, no file, or a file holding a snapshot. `process` returns the snapshot it writes.
- **Discovery tables.** They hold result values: the runtime class of each result and what its getters return once the discovery loop has set it up. Discovery uses the corrected `setPrivate` and the corrected `getClassNames` query (see "## Findings"). As written, every private flag it files reads back as null, and the query at `src/AnnotationDiscovery.php:105` throws for any group with a recorded class.

## Model

| member | source | states |
|---|---|---|
| CodeInfoSource.NewSource | src/CodeInfoSource.php:17-37 | the getters return the folder, flags and extensions given to the constructor, unchanged and in order |
| CodeInfoSource.DefaultExtensionIsPhp | src/CodeInfoSource.php:20 | without an explicit list the extensions are exactly ["php"] |
| CodeInfoSource.DuplicatesAreKept | src/CodeInfoSource.php:22-24 | duplicated flags and extensions survive construction |
| CodeInfoData.SimplifyClasses | src/CodeInfoData.php:46-51 | the simple form is null exactly when the name has no parts |
| CodeInfoData.SplitSimplifiedName | src/CodeInfoData.php:46-51 | when no part contains a backslash, splitting the simple form on backslashes gives back the parts |
| CodeInfoData.SimplifiedNamesNoLonger | src/CodeInfoData.php:77-84 | a group never has more simple forms than raw names |
| CodeInfoData.CodeInfoData.constructor | src/CodeInfoData.php:13-14 | both tables start empty and the store is valid |
| CodeInfoData.CodeInfoData.GetClassNames | src/CodeInfoData.php:35-37 | a group's simple forms, in insertion order, are the truthy simple forms of its raw names; an unknown group gives [] |
| CodeInfoData.CodeInfoData.AddClassName | src/CodeInfoData.php:71-85 | the raw name is always appended to its group; the simple form is appended only when truthy; other groups are unchanged; validity is kept |
| CodeInfoData.CodeInfoData.Parse | src/CodeInfoData.php:59-63 | only a class declaration with a resolved name is added; any other node leaves both tables unchanged |
| CodeInfoData.CodeInfoData.SetAttribute | src/CodeInfoData.php:22-26 | the named table is replaced; any other name changes nothing |
| CodeAnalyzer.ParseFolder | src/CodeAnalyzer.php:17-39 | null for a non-directory; otherwise the fold of the analysis over the collected files, in listing order, from a fresh data object |
| CodeAnalyzer.CollectedExactly | src/CodeAnalyzer.php:23-29 | a path is collected iff a listed regular file with that path has an extension in the list (strict comparison) |
| CodeAnalyzer.CollectedKeepsListingOrder | src/CodeAnalyzer.php:25-29 | collection distributes over a split listing, so iterator order is kept |
| CodeAnalyzer.AnalysedOncePerFile | src/CodeAnalyzer.php:31-36 | exactly the collected paths that are still files are analysed, once each, in collected order |
| CodeAnalyzer.NoMatchingFileGivesFreshData | src/CodeAnalyzer.php:22-38 | with no matching file the result is the fresh, empty data object |
| CodeInfo.NormalizeCachePath | src/CodeInfo.php:42-43 | null stays null; a path ending in ".php" is kept; any other path gets ".php" appended; the result always ends in ".php" |
| CodeInfo.NormalizeCachePathIdempotent | src/CodeInfo.php:42-43 | normalising twice equals normalising once |
| CodeInfo.FoldersOncePerRegisteredFolder | src/CodeInfo.php:100-113 | the scanned folders have no duplicates and are exactly the registered folders |
| CodeInfo.MergedListElements | src/CodeInfo.php:109-110 | an entry is in a folder's merged list iff a source registered for that folder lists it |
| CodeInfo.RequestMergesSources | src/CodeInfo.php:113-116 | the k-th analyzer call gets the k-th distinct folder with the duplicate-free union of its sources' extensions and flags |
| CodeInfo.RequestFlagsDistinct | src/CodeInfo.php:115 | every request's flag list has no duplicates |
| CodeInfo.RequestOfConsolidated | src/CodeInfo.php:113-116 | the request built from the consolidated folder table is the specified request |
| CodeInfo.AddRefsBucket | src/CodeInfo.php:119-124 | recording a position under distinct flags appends it once to each listed flag and to no other |
| CodeInfo.ScanAppendsResults | src/CodeInfo.php:116-125 | the analyzer results are appended after the existing entries, one per folder, in order; the flag list grows by each folder's flags |
| CodeInfo.ScanRecordsPositions | src/CodeInfo.php:117-124 | under each flag, the scan appends one position per folder listing that flag |
| CodeInfo.IndicesWithExactly | src/CodeInfo.php:118-124 | a new position is recorded under f iff its folder lists f; new positions are in range and strictly increasing |
| CodeInfo.ScanKeepsRefsValid | src/CodeInfo.php:117-124 | every stored position stays a valid index of info_data and each flag's positions stay strictly increasing |
| CodeInfo.FlagRefsFollowRegistrations | src/CodeInfo.php:100-124 | folder k's position is under flag f iff some source registered for folder k lists f |
| CodeInfo.FlagsAfterScan | src/CodeInfo.php:125-127 | after a scan the flag list has no duplicates and holds exactly the earlier flags and every registered flag |
| CodeInfo.RefsForConcat | src/CodeInfo.php:64 | the positions of a concatenated flag list are the concatenated positions |
| CodeInfo.RefsForElements | src/CodeInfo.php:64 | a position is gathered iff some requested flag holds it |
| CodeInfo.NamesAtConcat | src/CodeInfo.php:68 | the names of concatenated positions are the concatenated names |
| CodeInfo.NamesAtElements | src/CodeInfo.php:68 | a name is gathered iff some gathered position's data object holds it |
| CodeInfo.ClassNamesExactly | src/CodeInfo.php:63-68 | the answer has no duplicates and holds a name iff a requested flag stores a position whose data object holds it |
| CodeInfo.ClassNamesUnion | src/CodeInfo.php:63-68 | querying a+b equals de-duplicating the answer for a followed by the answer for b |
| CodeInfo.ClassNamesIgnoreUnknownFlag | src/CodeInfo.php:64 | a flag with nothing recorded can be dropped from any position of the query |
| CodeInfo.ClassNamesIgnoreUnknownFlags | src/CodeInfo.php:64 | removing every occurrence of such a flag leaves the answer unchanged |
| CodeInfo.ClassNamesAsWrittenThrows | src/CodeInfo.php:68 | as written, the query throws as soon as a requested flag has a recorded position |
| CodeInfo.ClassNamesAsWrittenCounterexample | src/CodeInfo.php:68 | one folder under "models" holding App\User: as written the query throws ArgumentCountError; corrected, it returns ["App\\User"] |
| CodeInfo.CodeInfo.constructor | src/CodeInfo.php:37-44 | the cache path is normalised; all lists and tables start empty |
| CodeInfo.CodeInfo.EnableFileCache | src/CodeInfo.php:49-51 | the path is stored verbatim, without ".php" normalisation; nothing else changes |
| CodeInfo.CodeInfo.DefineSource | src/CodeInfo.php:53-55 | the source is appended at the end; earlier sources and all other state are unchanged |
| CodeInfo.CodeInfo.GetFlags | src/CodeInfo.php:74-76 | returns the stored flag list. After a scan it holds each earlier and each registered flag exactly once (`CodeInfo.FlagsAfterScan`, and `Process`'s "flags == Dedup(...)" clause). After a restore from the cache it is unchanged (`Process`'s "cache present" clause) |
| CodeInfo.CodeInfo.ShouldCache | src/CodeInfo.php:78-80 | true exactly when a cache path is set |
| CodeInfo.CodeInfo.GetClassNames | src/CodeInfo.php:63-68 | the corrected query: no name twice; a flag with nothing recorded contributes nothing |
| CodeInfo.CodeInfo.ConsolidateFolders | src/CodeInfo.php:100-111 | the distinct folders in first-registration order, each with the concatenated extensions and flags of its sources |
| CodeInfo.CodeInfo.AddFlagRefs | src/CodeInfo.php:119-124 | the position is recorded under each of the folder's flags; nothing else changes |
| CodeInfo.CodeInfo.ScanOne | src/CodeInfo.php:113-125 | one analyzer call: its result is appended, its position recorded, its flags appended |
| CodeInfo.CodeInfo.ScanFolders | src/CodeInfo.php:113-126 | the state after the loop is the specified scan over all requests; the analyzer is called once per distinct folder, in order |
| CodeInfo.CodeInfo.RestoreCache | src/CodeInfo.php:141-145 | info_data and the flag positions become the snapshot; flags are not restored |
| CodeInfo.CodeInfo.Process | src/CodeInfo.php:93-139 | directory failure: error, no change. Cache present: restore, zero analyzer calls, flags unchanged. Otherwise: scan every distinct folder once, de-duplicate flags, and return the written snapshot when caching |
| CodeInfo.CacheRoundTrip | src/CodeInfo.php:129-144 | a restored index answers every query like the index that wrote the cache, even with another analyzer; its flag list is empty |
| AnnotationResult.Blank | src/AnnotationResult.php:9-16 | class, method and property default to ""; the other fields to null |
| AnnotationResult.AnnotationResult.constructor | src/AnnotationResult.php:9-16 | a new result reads back the defaults |
| AnnotationResult.AnnotationResult.SetClass | src/AnnotationResult.php:18-24 | the getter returns the argument; no other field changes |
| AnnotationResult.AnnotationResult.SetMethod | src/AnnotationResult.php:26-32 | the getter returns the argument; no other field changes |
| AnnotationResult.AnnotationResult.SetProperty | src/AnnotationResult.php:34-40 | the getter returns the argument; no other field changes |
| AnnotationResult.AnnotationResult.SetStatic | src/AnnotationResult.php:42-48 | the getter returns the argument; no other field changes |
| AnnotationResult.AnnotationResult.SetPrivate | src/AnnotationResult.php:50-56 | as written: the private flag becomes null whatever the argument; no other field changes |
| AnnotationResult.AnnotationResult.SetPrivateFixed | src/AnnotationResult.php:50-56 | as intended: the getter returns the argument; no other field changes |
| AnnotationResult.AnnotationResult.SetAnnotation | src/AnnotationResult.php:61-70 | the getter returns the argument; no other field changes |
| AnnotationResult.SetPrivateLosesFlag | src/AnnotationResult.php:50-56 | setPrivate(true) then getPrivate() gives null |
| AnnotationResult.SetPrivateFixedKeepsFlag | src/AnnotationResult.php:50-56 | with the corrected setter, getPrivate() gives the argument back |
| AnnotationResult.Fill | src/AnnotationDiscovery.php:120-139 | a member result carries the class, the member name (method or property field), the annotation and the static and private flags |
| AnnotationDiscovery.NewClassResult | src/AnnotationDiscovery.php:110-112 | a class-level result carries the class and the annotation, with the other fields at their defaults |
| AnnotationDiscovery.AnnotationDiscovery.constructor | src/AnnotationDiscovery.php:20-42 | all four tables start empty |
| AnnotationDiscovery.AnnotationDiscovery.SetDiscovered | src/AnnotationDiscovery.php:44-46 | the flat table is replaced and returned; the class, method and property tables are untouched |
| AnnotationDiscovery.AnnotationDiscovery.GetAll | src/AnnotationDiscovery.php:51-53 | returns the flat index; each of its buckets is what `getDiscovered` answers for that annotation class, and a class missing from it gets [] |
| AnnotationDiscovery.AnnotationDiscovery.GetDiscovered | src/AnnotationDiscovery.php:60-66 | [] for an annotation class never filed, else the stored list |
| AnnotationDiscovery.AnnotationDiscovery.GetDiscoveredMethods | src/AnnotationDiscovery.php:74-84 | [] when the (class, annotation class) pair is absent, else the stored list |
| AnnotationDiscovery.AnnotationDiscovery.GetDiscoveredProperties | src/AnnotationDiscovery.php:92-102 | [] when the (class, annotation class) pair is absent, else the stored list |
| AnnotationDiscovery.AnnotationDiscovery.File | src/AnnotationDiscovery.php:113-140 | the result is appended to its flat bucket and, by kind, overwrites the class entry or is appended to its scoped bucket |
| AnnotationDiscovery.AnnotationDiscovery.DiscoverClassAnnotations | src/AnnotationDiscovery.php:108-114 | one class-level result per class annotation, filed in reader order |
| AnnotationDiscovery.AnnotationDiscovery.FileMemberAnnotation | src/AnnotationDiscovery.php:118-126 | the member result built through the setters is filed: appended flat and to its (class, annotation class) bucket |
| AnnotationDiscovery.AnnotationDiscovery.DiscoverMemberAnnotations | src/AnnotationDiscovery.php:118-127 | one member result per annotation of the member, filed in reader order |
| AnnotationDiscovery.AnnotationDiscovery.DiscoverMembers | src/AnnotationDiscovery.php:116-142 | the members in enumeration order, each through the inner loop |
| AnnotationDiscovery.AnnotationDiscovery.DiscoverClass | src/AnnotationDiscovery.php:107-143 | class annotations, then methods, then properties |
| AnnotationDiscovery.AnnotationDiscovery.DiscoverByAnnotation | src/AnnotationDiscovery.php:104-144 | the tables become the old tables with the results for the group's classes filed in class order; consistency of scoped and flat tables is kept |
| AnnotationDiscovery.ApplyFlat | src/AnnotationDiscovery.php:113-140 | discovery only appends: each flat bucket keeps its entries and gains exactly the new results for its annotation class, in order |
| AnnotationDiscovery.ApplyScoped | src/AnnotationDiscovery.php:126-140 | each method or property bucket keeps its entries and gains exactly the new results for its class and annotation class |
| AnnotationDiscovery.ApplyClasses | src/AnnotationDiscovery.php:113 | the class table holds each class's last class-level result; a class without one keeps its entry |
| AnnotationDiscovery.RecordConsistent | src/AnnotationDiscovery.php:126-140 | filing one result keeps every scoped bucket equal to its slice of the flat bucket |
| AnnotationDiscovery.ApplyConsistent | src/AnnotationDiscovery.php:126-140 | discovery keeps every scoped bucket an in-order slice of the flat bucket of the same annotation class |
| AnnotationDiscovery.EmptyConsistent | src/AnnotationDiscovery.php:20-35 | empty tables are consistent |
| AnnotationDiscovery.ClassPartShape | src/AnnotationDiscovery.php:109-113 | the k-th class-level result carries the class and the k-th annotation |
| AnnotationDiscovery.MemberAnnotationPartShape | src/AnnotationDiscovery.php:119-126 | the k-th member result carries the class, the member and the k-th annotation |
| AnnotationDiscovery.MemberPartCarriesSubject | src/AnnotationDiscovery.php:120-139 | every member result carries its class, the name and static and private flags of an enumerated member, and its kind |
| AnnotationDiscovery.ClassStreamOrdered | src/AnnotationDiscovery.php:107-142 | within a class, class-level results come first, then method results, then property results |
| AnnotationDiscovery.MemberPartLength | src/AnnotationDiscovery.php:117-128 | one result per annotation of the enumerated members |
| AnnotationDiscovery.StreamLength | src/AnnotationDiscovery.php:105-142 | the number of results equals the number of annotations the reader returns |
| AnnotationDiscovery.FlatGrowsByResults | src/AnnotationDiscovery.php:113-140 | the flat table's total grows by exactly the number of results |
| AnnotationDiscovery.ScenarioStream | src/AnnotationDiscovery.php:105-128 | for App\User with class annotation Entity and static method find annotated Query: the class result, then the method result |
| AnnotationDiscovery.DiscoveryScenario | src/AnnotationDiscovery.php:104-144 | that scenario yields one result under Entity, one under Query, the class entry, and the method bucket (App\User, Query) with static true |
| Psr4Autoload.RTrimSlashes | src/AnnotationUtil.php:23 | the trimmed dir is a prefix ending in neither "/" nor "\\", and only slashes were removed |
| Psr4Autoload.SwapSeparators | src/AnnotationUtil.php:23 | every backslash becomes the directory separator; every other character is kept |
| Psr4Autoload.Loader | src/AnnotationUtil.php:20-32 | as written: returns true iff the class starts with the namespace and the file at the `str_replace` path exists; otherwise nothing (never false); `AnnotationsUtil.php:202-216` holds the same loader |
| Psr4Autoload.LoaderFixed | src/AnnotationsUtil.php:202-216 | as intended: the same decision over the prefix-replacing path |
| Psr4Autoload.LoaderAcceptsWrongFile | src/AnnotationUtil.php:23-29 | as written, with only d/B/C.php present, the loader for A\ accepts A\B\A\C; the intended loader returns nothing |
| Psr4Autoload.ClassFilePathShape | src/AnnotationUtil.php:23 | both the as-written and the intended path are the trimmed dir, one "/", the mapped name and ".php"; as written, the mapped name is the class name with every namespace occurrence removed |
| Psr4Autoload.TrailingSlashesIgnored | src/AnnotationUtil.php:23 | trailing "/" or "\\" on the base directory change neither path |
| Psr4Autoload.ClassFilePathInjective | src/AnnotationUtil.php:23 | corrected mapping: two classes under the namespace never share a file |
| Psr4Autoload.AsWrittenAgreesWithoutRepeat | src/AnnotationUtil.php:21-29 | when the namespace occurs in the class name only as its prefix, the as-written and intended paths and loaders agree |
| Psr4Autoload.StrReplaceAbsent | src/AnnotationUtil.php:23 | `str_replace` leaves a subject without an occurrence of the search string unchanged |
| Psr4Autoload.RemoveEveryNamespaceOccurrence | src/AnnotationUtil.php:23 | for any class name `a + ns + b` where `ns` does not occur in `a` before that position, str_replace drops that occurrence and carries on over `b`: the namespace is removed at every position, not only at the front |
| Psr4Autoload.RemoveNamespaceExamples | src/AnnotationUtil.php:23 | example: under namespace `A\`, both `A\B\A\C` and `A\B\C` become `B\C` |
| Psr4Autoload.AsWrittenCollision | src/AnnotationsUtil.php:206 | as written, A\B\A\C and A\B\C under A\ both map to d/B/C.php; corrected, to d/B/A/C.php and d/B/C.php |
| AnnotationsUtil.ReaderRegistry.constructor | src/AnnotationsUtil.php:22 | the reader slot starts null |
| AnnotationsUtil.ReaderRegistry.UseReader | src/AnnotationsUtil.php:24-26 | reader() then returns the given reader |
| AnnotationsUtil.LastReaderWins | src/AnnotationsUtil.php:24-33 | reader() returns the reader most recently passed to useReader |
| Collections.DedupElements | src/CodeInfo.php:127 | array_unique neither loses nor invents elements |
| Collections.DedupNoDup | src/CodeInfo.php:127 | array_unique leaves no duplicates |
| Collections.DedupOfNoDup | src/CodeInfo.php:114-115 | a list without duplicates is its own array_unique |
| Collections.DedupConcat | src/CodeInfo.php:68 | de-duplicating a concatenation equals de-duplicating the concatenated de-duplicated parts |
| Collections.DedupKeepsFirstSeenOrder | src/CodeInfo.php:127 | array_unique keeps elements in the order of their first occurrence |

## Left out

- The file system is not modelled. That covers `is_dir`, `mkdir` and `is_file` in `hasCache`, the cache file written with `file_put_contents` and `var_export`, and its `require`. The cache is a `CacheProbe` input, and the written snapshot is the output of `Process`. The text of the RuntimeException is not modelled.
- `var_export`/`__set_state` round-tripping of the data objects is not modelled. `var_export` writes each data object as a call to `CodeInfoData::__set_state(...)`, and no class in the repository defines `__set_state`. So, as written, requiring a cache file that holds at least one data object throws an Error. `CodeInfo.CacheRoundTrip` holds only for an idealised snapshot that restores exactly the values it holds.
- CodeInfo.CacheRoundTrip: the round trip is stated for the idealised snapshot only. As written, restoring a non-empty cache throws, as the line above explains.
- PhpParser parsing and name resolution in `analyzeCode` (src/CodeAnalyzer.php:48-60) are an abstract function. The `RecursiveDirectoryIterator` walk is an input listing, and file contents are an input function.
- The declared types do not line up, for two separate reasons. The model treats the types as compatible.
  - `CodeInfoData` does not match the method signatures of `CodeInfoDataInterface`. PHP rejects that when the class is loaded.
  - `CodeInfoData` does not implement PhpParser's node-visitor interface. That fails only when `addVisitor` is called (`src/CodeAnalyzer.php:53`), with a TypeError.
- CodeInfo.CodeInfo.GetClassNames: the source does not say which group of a data object is meant. The data object's class names are the abstract `classNamesOf`.
- CodeInfo.CodeInfo.Process, CodeInfo.CodeInfo.ScanFolders: the analyzer cannot fail in the model. As written, PhpParser can throw from `parse` (`src/CodeAnalyzer.php:48-60`, called from `src/CodeAnalyzer.php:36` and reached from `src/CodeInfo.php:116`). The exception then leaves a partial state:
  - the folders already scanned stay appended to `info_data`, with their flag positions recorded (`src/CodeInfo.php:117-123`);
  - the flag list is not de-duplicated (`src/CodeInfo.php:126` is not reached);
  - no cache is written.
- AnnotationDiscovery.AnnotationDiscovery.DiscoverByAnnotation: the reader and reflection cannot fail in the model. As written, an exception from the annotation reader or from `CachedReflection` leaves the results filed so far in the tables.
- CodeInfo.CodeInfo.Process: the analyzer is a function of the request, so the file system cannot change between folders during one `process` call.
- CodeInfo.CodeInfo.RestoreCache: restoring a snapshot whose flag positions do not index `info_data` is not excluded. The query then ignores the missing positions, where PHP would fail on null.
- CodeInfoData.CodeInfoData.SetAttribute: a value whose shape does not match the named table is ignored. PHP would store it.
- AnnotationResult.AnnotationResult.SetStatic: the argument is a boolean. PHP accepts any value.
- AnnotationDiscovery.AnnotationDiscovery.DiscoverByAnnotation: a result is filed in the tables as a value, not as a shared object reference. Nothing mutates a result after it is filed, so only object identity is lost.
- AnnotationResult.Fill: uses the corrected `setPrivate`, so the private flag it leaves is the member's. As written (`src/AnnotationResult.php:51`), the flag is null; see `AnnotationResult.SetPrivateLosesFlag`.
- AnnotationDiscovery.AnnotationDiscovery.FileMemberAnnotation: files a member result whose private flag is the member's (through `Fill`). As written, it is null.
- AnnotationDiscovery.AnnotationDiscovery.DiscoverMemberAnnotations: its results carry the member's private flag. As written, they carry null.
- AnnotationDiscovery.AnnotationDiscovery.DiscoverMembers: its results carry the member's private flag. As written, they carry null.
- AnnotationDiscovery.AnnotationDiscovery.DiscoverClass: its member results carry the member's private flag. As written, they carry null.
- AnnotationDiscovery.AnnotationDiscovery.DiscoverByAnnotation: queries the corrected `getClassNames` and files member results with the member's private flag. As written, line 105 throws ArgumentCountError for any group with a recorded position (`CodeInfo.ClassNamesAsWrittenThrows`), and the private flags are null.
- AnnotationDiscovery.MemberAnnotationPartShape: states the corrected private flag `Some(m.isPrivate)`. As written, it is null.
- AnnotationDiscovery.MemberPartCarriesSubject: states that the member's private flag is carried. As written, `setPrivate` drops it and null is stored.
- AnnotationDiscovery.ScenarioStream: the method result has private flag false (the corrected setter). As written, it is null.
- AnnotationDiscovery.DiscoveryScenario: the filed method result has private flag false (the corrected setter), and the group is queried with the corrected `getClassNames`. As written, the private flag is null and the query throws.
- The discovery getters accept only class names as strings. The `get_class` conversion of an object argument is left out.
- The model does not use the reader's distinct annotation-class keys per subject (they come from a PHP keyed array). Every property holds without that assumption.
- `CachedReflection` and `AnnotationReader` are thin wrappers over external libraries. They appear only as the abstract `Reflection` and `Reader` functions.
- `createReader` and the reflection and annotation pass-throughs of `AnnotationsUtil` (src/AnnotationsUtil.php:42-194) are library wiring with no behaviour of their own.
- The autoloader registration and the `require_once` of `registerPsr4Namespace` are left out. Only the loader's decision and path are modelled, with `DIRECTORY_SEPARATOR` as a parameter.
- PHP turns numeric-string array keys (folders or flags such as "1") into integers. The model keeps strings; insertion order is the same either way.

## Findings

| source | as written | input that shows it | evidently intended | confidence | as-written member | corrected member |
|---|---|---|---|---|---|---|
| src/CodeInfo.php:68 | each data object's `getClassNames()` is called without the `$group` it requires | one folder under flag "models" holding App\User, then `getClassNames("models")` | return the class names of the data objects stored under the requested flags | high; not executed | CodeInfo.ClassNamesAsWrittenCounterexample | CodeInfo.ClassNamesExactly |
| src/AnnotationResult.php:51 | `setPrivate` assigns the undefined `$static`, so null is stored | `setPrivate(true)` then `getPrivate()` gives null | store the argument | high; not executed | AnnotationResult.SetPrivateLosesFlag | AnnotationResult.SetPrivateFixedKeepsFlag |
| src/AnnotationUtil.php:23 | `str_replace` removes every occurrence of the namespace, not only the leading prefix | namespace `A\`, dir `d`: classes `A\B\A\C` and `A\B\C` both map to `d/B/C.php` | replace only the leading namespace prefix with the base directory (section 3 of PSR-4) | high; not executed | Psr4Autoload.AsWrittenCollision | Psr4Autoload.ClassFilePathInjective |
| src/AnnotationsUtil.php:206 | the same `str_replace` as in `AnnotationUtil`, and the loader tests the file at that path | namespace `A\`, dir `d`, only `d/B/C.php` present: the loader accepts `A\B\A\C` | load only the file of the class itself, as section 3 of PSR-4 maps it | high; not executed | Psr4Autoload.LoaderAcceptsWrongFile | Psr4Autoload.LoaderFixed |
