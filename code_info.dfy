/** The folder-consolidating index. Sources are registered per folder; `process` scans every
    distinct folder once (or restores the whole index from the cache file), appends each
    analyzer result to `info_data` and records its position under each of the folder's flags;
    `getClassNames` answers a query over several flags. The analyzer result type `D` is abstract. */
module CodeInfo {
  import opened Collections
  import opened CodeInfoSource

  /** What `process` hands the analyzer for one folder: its de-duplicated extensions and flags. */
  datatype FolderRequest = FolderRequest(folder: string, extensions: seq<string>, flags: seq<string>)

  /** The two fields the cache file holds. */
  datatype Snapshot<D> = Snapshot(infoData: seq<Option<D>>, flagRefs: map<string, seq<nat>>)

  /** What `hasCache` finds: the cache directory cannot be created (a RuntimeException), no
      cache file, or a cache file holding a snapshot. */
  datatype CacheProbe<D> = DirUncreatable | Absent | Present(snapshot: Snapshot<D>)

  /** How `process` ended: with the RuntimeException, after restoring the cache, or after a
      scan, with the snapshot written to the cache file when caching is enabled. */
  datatype ProcessOutcome<D> = CacheDirError | Restored | Scanned(written: Option<Snapshot<D>>)

  /** The three fields a scan appends to. */
  datatype ScanState<D> = ScanState(infoData: seq<Option<D>>, flagRefs: map<string, seq<nat>>, flags: seq<string>)

  /** The two lists merged per folder. */
  datatype Field = Extensions | Flags

  /** The extensions and flags gathered so far for one folder (`$folders[$folder]`). */
  datatype Merged = Merged(extensions: seq<string>, flags: seq<string>)

  /** Why the query at `CodeInfo.php:68` throws: a null entry, or a missing argument. */
  datatype QueryError = CallOnNull | ArgumentCountError

  // ---------------------------------------------------------------------------------------
  // Cache path

  predicate EndsWith(s: string, suffix: string) {
    |suffix| <= |s| && s[|s| - |suffix|..] == suffix
  }

  /** The constructor's normalisation of the cache path. */
  function NormalizeCachePath(fileCache: Option<string>): (r: Option<string>)
    ensures r.None? <==> fileCache.None?
    ensures r.Some? ==> EndsWith(r.value, ".php")
    ensures r.Some? && EndsWith(fileCache.value, ".php") ==> r == fileCache
    ensures r.Some? && !EndsWith(fileCache.value, ".php") ==> r.value == fileCache.value + ".php"
  {
    match fileCache
    case None => None
    case Some(path) =>
      if EndsWith(path, ".php") then fileCache
      else
        assert (path + ".php")[|path|..] == ".php";
        Some(path + ".php")
  }

  /** Normalising twice is normalising once: ".php" is appended at most once. */
  lemma NormalizeCachePathIdempotent(fileCache: Option<string>)
    ensures NormalizeCachePath(NormalizeCachePath(fileCache)) == NormalizeCachePath(fileCache)
  {
  }

  // ---------------------------------------------------------------------------------------
  // Folder consolidation (the `$folders` dictionary of `process`)

  function Listed(s: Source, field: Field): seq<string> {
    match field
    case Extensions => s.GetExtensions()
    case Flags => s.GetFlags()
  }

  /** The folder of every registered source, in registration order. */
  function FolderList(sources: seq<Source>): seq<string> {
    if |sources| == 0 then []
    else FolderList(sources[..|sources| - 1]) + [sources[|sources| - 1].GetFolderToParse()]
  }

  /** The distinct folders, in order of first registration (the key order of `$folders`). */
  function Folders(sources: seq<Source>): seq<string> {
    Dedup(FolderList(sources))
  }

  /** The concatenation of one field over every source registered for `folder`. */
  function MergedList(sources: seq<Source>, folder: string, field: Field): seq<string> {
    if |sources| == 0 then []
    else
      var last := sources[|sources| - 1];
      MergedList(sources[..|sources| - 1], folder, field)
      + (if last.GetFolderToParse() == folder then Listed(last, field) else [])
  }

  function MergedFor(sources: seq<Source>, folder: string): Merged {
    Merged(MergedList(sources, folder, Extensions), MergedList(sources, folder, Flags))
  }

  /** `$folders[$folder]`, with nothing gathered yet for a folder not seen. */
  function MergedOrEmpty(folders: map<string, Merged>, folder: string): Merged {
    if folder in folders then folders[folder] else Merged([], [])
  }

  /** The request for each distinct folder, in order of first registration. */
  function Requests(sources: seq<Source>): (reqs: seq<FolderRequest>)
    ensures |reqs| == |Folders(sources)|
  {
    var folders := Folders(sources);
    seq(|folders|, k requires 0 <= k < |folders| =>
      FolderRequest(folders[k], Dedup(MergedList(sources, folders[k], Extensions)),
                    Dedup(MergedList(sources, folders[k], Flags))))
  }

  lemma FolderListSnoc(sources: seq<Source>, s: Source)
    ensures FolderList(sources + [s]) == FolderList(sources) + [s.GetFolderToParse()]
    ensures forall f, field :: (MergedList(sources + [s], f, field)
      == MergedList(sources, f, field) + (if s.GetFolderToParse() == f then Listed(s, field) else []))
  {
    assert (sources + [s])[..|sources|] == sources;
  }

  lemma MergedForSnoc(sources: seq<Source>, s: Source)
    ensures FolderList(sources + [s]) == FolderList(sources) + [s.GetFolderToParse()]
    ensures forall f :: (MergedFor(sources + [s], f)
      == if s.GetFolderToParse() == f
         then Merged(MergedFor(sources, f).extensions + s.GetExtensions(), MergedFor(sources, f).flags + s.GetFlags())
         else MergedFor(sources, f))
  {
    FolderListSnoc(sources, s);
  }

  lemma {:induction false} FolderListElements(sources: seq<Source>, f: string)
    ensures f in FolderList(sources) <==> exists i :: 0 <= i < |sources| && sources[i].GetFolderToParse() == f
  {
    if |sources| > 0 {
      var init := sources[..|sources| - 1];
      FolderListElements(init, f);
      if i :| 0 <= i < |init| && init[i].GetFolderToParse() == f {
        assert sources[i] == init[i];
      }
      if i :| 0 <= i < |sources| && sources[i].GetFolderToParse() == f {
        if i < |init| {
          assert init[i] == sources[i];
        }
      }
    }
  }

  /** Each registered folder is scanned once: the folder list has no duplicates and holds
      exactly the registered folders. */
  lemma FoldersOncePerRegisteredFolder(sources: seq<Source>)
    ensures NoDup(Folders(sources))
    ensures forall f :: f in Folders(sources) <==> exists i :: 0 <= i < |sources| && sources[i].GetFolderToParse() == f
  {
    DedupNoDup(FolderList(sources));
    DedupElements(FolderList(sources));
    forall f ensures f in Folders(sources) <==> exists i :: 0 <= i < |sources| && sources[i].GetFolderToParse() == f {
      FolderListElements(sources, f);
    }
  }

  /** An entry is in a folder's merged list exactly when some source registered for that
      folder lists it. */
  lemma {:induction false} MergedListElements(sources: seq<Source>, folder: string, field: Field, x: string)
    ensures x in MergedList(sources, folder, field) <==>
      exists i :: 0 <= i < |sources| && sources[i].GetFolderToParse() == folder && x in Listed(sources[i], field)
  {
    if |sources| > 0 {
      var init := sources[..|sources| - 1];
      MergedListElements(init, folder, field, x);
      if i :| 0 <= i < |init| && init[i].GetFolderToParse() == folder && x in Listed(init[i], field) {
        assert sources[i] == init[i];
      }
      if i :| 0 <= i < |sources| && sources[i].GetFolderToParse() == folder && x in Listed(sources[i], field) {
        if i < |init| {
          assert init[i] == sources[i];
        }
      }
    }
  }

  /** The k-th request carries the k-th distinct folder, and the de-duplicated union of the
      extensions and of the flags of every source registered for it. */
  lemma RequestMergesSources(sources: seq<Source>, k: nat, x: string)
    requires k < |Requests(sources)|
    ensures Requests(sources)[k].folder == Folders(sources)[k]
    ensures NoDup(Requests(sources)[k].extensions) && NoDup(Requests(sources)[k].flags)
    ensures x in Requests(sources)[k].extensions <==>
      exists i :: 0 <= i < |sources| && sources[i].GetFolderToParse() == Folders(sources)[k] && x in sources[i].GetExtensions()
    ensures x in Requests(sources)[k].flags <==>
      exists i :: 0 <= i < |sources| && sources[i].GetFolderToParse() == Folders(sources)[k] && x in sources[i].GetFlags()
  {
    var folder := Folders(sources)[k];
    DedupNoDup(MergedList(sources, folder, Extensions));
    DedupNoDup(MergedList(sources, folder, Flags));
    DedupElements(MergedList(sources, folder, Extensions));
    DedupElements(MergedList(sources, folder, Flags));
    MergedListElements(sources, folder, Extensions, x);
    MergedListElements(sources, folder, Flags, x);
  }

  /** The request `process` builds from the consolidated folder map is the k-th request. */
  lemma RequestOfConsolidated(sources: seq<Source>, folders: map<string, Merged>, k: nat)
    requires k < |Folders(sources)|
    requires forall f :: f in folders <==> f in Folders(sources)
    requires forall f :: f in folders ==> folders[f] == MergedFor(sources, f)
    ensures Folders(sources)[k] in folders
    ensures FolderRequest(Folders(sources)[k], Dedup(folders[Folders(sources)[k]].extensions),
                          Dedup(folders[Folders(sources)[k]].flags)) == Requests(sources)[k]
  {
  }

  /** The loop over the consolidated folder map visits the folders in order and builds
      each folder's request from its map entry. */
  ghost predicate BuildsRequests(order: seq<string>, folders: map<string, Merged>, reqs: seq<FolderRequest>) {
    && |order| == |reqs|
    && forall k :: 0 <= k < |order| ==>
         && order[k] in folders
         && FolderRequest(order[k], Dedup(folders[order[k]].extensions), Dedup(folders[order[k]].flags)) == reqs[k]
  }

  lemma ConsolidatedBuildsRequests(sources: seq<Source>, folders: map<string, Merged>)
    requires forall f :: f in folders <==> f in Folders(sources)
    requires forall f :: f in folders ==> folders[f] == MergedFor(sources, f)
    ensures BuildsRequests(Folders(sources), folders, Requests(sources))
  {
    forall k | 0 <= k < |Folders(sources)|
      ensures Folders(sources)[k] in folders
      ensures FolderRequest(Folders(sources)[k], Dedup(folders[Folders(sources)[k]].extensions),
                            Dedup(folders[Folders(sources)[k]].flags)) == Requests(sources)[k]
    {
      RequestOfConsolidated(sources, folders, k);
    }
  }

  // ---------------------------------------------------------------------------------------
  // The scan (the second loop of `process`)

  /** Records position `i` under each of `flags`. */
  function AddRefs(refs: map<string, seq<nat>>, flags: seq<string>, i: nat): map<string, seq<nat>> {
    if |flags| == 0 then refs
    else
      var before := AddRefs(refs, flags[..|flags| - 1], i);
      var f := flags[|flags| - 1];
      before[f := Bucket(before, f) + [i]]
  }

  /** One folder: its result is appended, its position recorded under its flags, its flags
      appended to the flag list. */
  function ScanFolder<D>(st: ScanState<D>, req: FolderRequest, result: Option<D>): ScanState<D> {
    ScanState(st.infoData + [result], AddRefs(st.flagRefs, req.flags, |st.infoData|), st.flags + req.flags)
  }

  function ScanAll<D>(st: ScanState<D>, reqs: seq<FolderRequest>, analyzer: FolderRequest -> Option<D>): ScanState<D> {
    if |reqs| == 0 then st
    else
      var last := reqs[|reqs| - 1];
      ScanFolder(ScanAll(st, reqs[..|reqs| - 1], analyzer), last, analyzer(last))
  }

  /** The flags of all requests, concatenated in order. */
  function AllFlags(reqs: seq<FolderRequest>): seq<string> {
    if |reqs| == 0 then [] else AllFlags(reqs[..|reqs| - 1]) + reqs[|reqs| - 1].flags
  }

  /** The positions a scan starting at `base` records under `f`: one per request listing `f`. */
  function IndicesWith(reqs: seq<FolderRequest>, f: string, base: nat): seq<nat> {
    if |reqs| == 0 then []
    else
      IndicesWith(reqs[..|reqs| - 1], f, base)
      + (if f in reqs[|reqs| - 1].flags then [base + |reqs| - 1] else [])
  }

  /** Every stored position is valid and each flag's positions are strictly increasing. */
  ghost predicate RefsValid(refs: map<string, seq<nat>>, n: nat) {
    forall f :: f in refs ==>
      && (forall j :: 0 <= j < |refs[f]| ==> refs[f][j] < n)
      && (forall a, b :: 0 <= a < b < |refs[f]| ==> refs[f][a] < refs[f][b])
  }

  lemma {:induction false} AddRefsBucket(refs: map<string, seq<nat>>, flags: seq<string>, i: nat, f: string)
    requires NoDup(flags)
    ensures Bucket(AddRefs(refs, flags, i), f) == Bucket(refs, f) + (if f in flags then [i] else [])
  {
    if |flags| > 0 {
      var init := flags[..|flags| - 1];
      assert NoDup(init);
      AddRefsBucket(refs, init, i, f);
      assert flags == init + [flags[|flags| - 1]];
    }
  }

  lemma ScanAllSnoc<D>(st: ScanState<D>, reqs: seq<FolderRequest>, req: FolderRequest, analyzer: FolderRequest -> Option<D>)
    ensures ScanAll(st, reqs + [req], analyzer) == ScanFolder(ScanAll(st, reqs, analyzer), req, analyzer(req))
    ensures AllFlags(reqs + [req]) == AllFlags(reqs) + req.flags
  {
    assert (reqs + [req])[..|reqs|] == reqs;
  }

  lemma ScanAllPrefix<D>(st: ScanState<D>, reqs: seq<FolderRequest>, k: nat, analyzer: FolderRequest -> Option<D>)
    requires k < |reqs|
    ensures ScanAll(st, reqs[..k + 1], analyzer) == ScanFolder(ScanAll(st, reqs[..k], analyzer), reqs[k], analyzer(reqs[k]))
  {
    assert reqs[..k + 1][..k] == reqs[..k];
  }

  /** A scan calls the analyzer once per request, in order, and appends the results after the
      existing entries; the flag list grows by the requests' flags, in order. */
  lemma {:induction false} ScanAppendsResults<D>(st: ScanState<D>, reqs: seq<FolderRequest>, analyzer: FolderRequest -> Option<D>)
    ensures ScanAll(st, reqs, analyzer).infoData == st.infoData + seq(|reqs|, k requires 0 <= k < |reqs| => analyzer(reqs[k]))
    ensures ScanAll(st, reqs, analyzer).flags == st.flags + AllFlags(reqs)
  {
    if |reqs| > 0 {
      var init := reqs[..|reqs| - 1];
      ScanAppendsResults(st, init, analyzer);
      var results := seq(|reqs|, k requires 0 <= k < |reqs| => analyzer(reqs[k]));
      assert results == seq(|init|, k requires 0 <= k < |init| => analyzer(init[k])) + [analyzer(reqs[|reqs| - 1])];
    }
  }

  /** Under each flag, a scan appends one position per request listing that flag, in order. */
  lemma {:induction false} ScanRecordsPositions<D>(st: ScanState<D>, reqs: seq<FolderRequest>, analyzer: FolderRequest -> Option<D>, f: string)
    requires forall k :: 0 <= k < |reqs| ==> NoDup(reqs[k].flags)
    ensures |ScanAll(st, reqs, analyzer).infoData| == |st.infoData| + |reqs|
    ensures Bucket(ScanAll(st, reqs, analyzer).flagRefs, f) == Bucket(st.flagRefs, f) + IndicesWith(reqs, f, |st.infoData|)
  {
    if |reqs| > 0 {
      var init := reqs[..|reqs| - 1];
      var last := reqs[|reqs| - 1];
      var base := |st.infoData|;
      forall k | 0 <= k < |init| ensures NoDup(init[k].flags) {
        assert init[k] == reqs[k];
      }
      ScanRecordsPositions(st, init, analyzer, f);
      var mid := ScanAll(st, init, analyzer);
      ScanFolderBucket(mid, last, analyzer(last), f);
      var tail := if f in last.flags then [base + |init|] else [];
      SeqAssoc(Bucket(st.flagRefs, f), IndicesWith(init, f, base), tail);
    }
  }

  /** One folder's scan appends its position to the bucket of each of its flags. */
  lemma ScanFolderBucket<D>(st: ScanState<D>, req: FolderRequest, result: Option<D>, f: string)
    requires NoDup(req.flags)
    ensures Bucket(ScanFolder(st, req, result).flagRefs, f)
         == Bucket(st.flagRefs, f) + (if f in req.flags then [|st.infoData|] else [])
  {
    AddRefsBucket(st.flagRefs, req.flags, |st.infoData|, f);
  }

  /** Position `base + k` is recorded under `f` exactly when request k lists `f`; the positions
      are strictly increasing and lie in [base, base + |reqs|). */
  lemma {:induction false} IndicesWithExactly(reqs: seq<FolderRequest>, f: string, base: nat)
    ensures forall n :: n in IndicesWith(reqs, f, base) <==> base <= n < base + |reqs| && f in reqs[n - base].flags
    ensures forall j :: 0 <= j < |IndicesWith(reqs, f, base)| ==> base <= IndicesWith(reqs, f, base)[j] < base + |reqs|
    ensures forall a, b :: 0 <= a < b < |IndicesWith(reqs, f, base)| ==> IndicesWith(reqs, f, base)[a] < IndicesWith(reqs, f, base)[b]
  {
    if |reqs| > 0 {
      var init := reqs[..|reqs| - 1];
      IndicesWithExactly(init, f, base);
      forall k | 0 <= k < |init| ensures reqs[k] == init[k] {
      }
    }
  }

  /** A scan keeps every stored position valid and every flag's positions strictly increasing. */
  lemma ScanKeepsRefsValid<D>(st: ScanState<D>, reqs: seq<FolderRequest>, analyzer: FolderRequest -> Option<D>)
    requires forall k :: 0 <= k < |reqs| ==> NoDup(reqs[k].flags)
    requires RefsValid(st.flagRefs, |st.infoData|)
    ensures RefsValid(ScanAll(st, reqs, analyzer).flagRefs, |ScanAll(st, reqs, analyzer).infoData|)
  {
    var after := ScanAll(st, reqs, analyzer);
    var n := |st.infoData|;
    forall f | f in after.flagRefs
      ensures forall j :: 0 <= j < |after.flagRefs[f]| ==> after.flagRefs[f][j] < |after.infoData|
      ensures forall a, b :: 0 <= a < b < |after.flagRefs[f]| ==> after.flagRefs[f][a] < after.flagRefs[f][b]
    {
      ScanRecordsPositions(st, reqs, analyzer, f);
      IndicesWithExactly(reqs, f, n);
      var old_ := Bucket(st.flagRefs, f);
      var new_ := IndicesWith(reqs, f, n);
      assert after.flagRefs[f] == old_ + new_;
      assert forall j :: 0 <= j < |old_| ==> old_[j] < n;
    }
  }

  /** After `process` scans, folder k's position is recorded under flag f exactly when some
      source registered for folder k lists f. */
  lemma FlagRefsFollowRegistrations<D>(st: ScanState<D>, sources: seq<Source>, analyzer: FolderRequest -> Option<D>, f: string, k: nat)
    requires k < |Folders(sources)|
    ensures |st.infoData| + k in Bucket(ScanAll(st, Requests(sources), analyzer).flagRefs, f)
      <==> (|st.infoData| + k in Bucket(st.flagRefs, f)
            || exists i :: 0 <= i < |sources| && sources[i].GetFolderToParse() == Folders(sources)[k] && f in sources[i].GetFlags())
  {
    var reqs := Requests(sources);
    RequestFlagsDistinct(sources);
    ScanRecordsPositions(st, reqs, analyzer, f);
    IndicesWithExactly(reqs, f, |st.infoData|);
    RequestMergesSources(sources, k, f);
    var n := |st.infoData| + k;
    assert n in IndicesWith(reqs, f, |st.infoData|) <==> f in reqs[k].flags;
  }

  lemma RequestFlagsDistinct(sources: seq<Source>)
    ensures forall k :: 0 <= k < |Requests(sources)| ==> NoDup(Requests(sources)[k].flags)
  {
    forall k | 0 <= k < |Requests(sources)| ensures NoDup(Requests(sources)[k].flags) {
      DedupNoDup(MergedList(sources, Folders(sources)[k], Flags));
    }
  }

  lemma {:induction false} AllFlagsElements(reqs: seq<FolderRequest>, f: string)
    ensures f in AllFlags(reqs) <==> exists k :: 0 <= k < |reqs| && f in reqs[k].flags
  {
    if |reqs| > 0 {
      var init := reqs[..|reqs| - 1];
      AllFlagsElements(init, f);
      if k :| 0 <= k < |init| && f in init[k].flags {
        assert reqs[k] == init[k];
      }
      if k :| 0 <= k < |reqs| && f in reqs[k].flags {
        if k < |init| {
          assert init[k] == reqs[k];
        }
      }
    }
  }

  /** After a scan, `getFlags` lists each flag once, in first-seen order: the flags known
      before, then those of any registered source. */
  lemma FlagsAfterScan(sources: seq<Source>, before: seq<string>, f: string)
    ensures NoDup(Dedup(before + AllFlags(Requests(sources))))
    ensures f in Dedup(before + AllFlags(Requests(sources))) <==>
      f in before || exists i :: 0 <= i < |sources| && f in sources[i].GetFlags()
  {
    var reqs := Requests(sources);
    DedupNoDup(before + AllFlags(reqs));
    DedupElements(before + AllFlags(reqs));
    AllFlagsElements(reqs, f);
    if k :| 0 <= k < |reqs| && f in reqs[k].flags {
      RequestMergesSources(sources, k, f);
    }
    if i :| 0 <= i < |sources| && f in sources[i].GetFlags() {
      var folder := sources[i].GetFolderToParse();
      FoldersOncePerRegisteredFolder(sources);
      assert folder in Folders(sources);
      var k := IndexOf(Folders(sources), folder);
      RequestMergesSources(sources, k, f);
    }
  }

  // ---------------------------------------------------------------------------------------
  // The query (`getClassNames`)

  /** The positions stored under the requested flags, flag by flag in request order
      (unknown flags contribute nothing). */
  function RefsFor(flagRefs: map<string, seq<nat>>, requested: seq<string>): seq<nat> {
    if |requested| == 0 then []
    else RefsFor(flagRefs, requested[..|requested| - 1]) + Bucket(flagRefs, requested[|requested| - 1])
  }

  /** The class names of the data object at position j; a null entry or a missing position
      contributes nothing. */
  function EntryNames<D>(infoData: seq<Option<D>>, classNamesOf: D -> seq<string>, j: nat): seq<string> {
    if j < |infoData| && infoData[j].Some? then classNamesOf(infoData[j].value) else []
  }

  function NamesAt<D>(infoData: seq<Option<D>>, classNamesOf: D -> seq<string>, refs: seq<nat>): seq<string> {
    if |refs| == 0 then []
    else NamesAt(infoData, classNamesOf, refs[..|refs| - 1]) + EntryNames(infoData, classNamesOf, refs[|refs| - 1])
  }

  /** `getClassNames(...$flags)` as evidently intended: the names of every data object
      stored under the requested flags, concatenated in request order, de-duplicated. */
  function ClassNames<D>(snap: Snapshot<D>, classNamesOf: D -> seq<string>, requested: seq<string>): seq<string> {
    Dedup(NamesAt(snap.infoData, classNamesOf, RefsFor(snap.flagRefs, requested)))
  }

  /** `getClassNames(...$flags)` as written: the first stored position makes the PHP code call
      `getClassNames()` without its required group argument (or on a null entry), which throws;
      only a query that reaches no position returns, with an empty list. */
  function ClassNamesAsWritten<D>(snap: Snapshot<D>, requested: seq<string>): Result<seq<string>, QueryError> {
    var refs := RefsFor(snap.flagRefs, requested);
    if |refs| == 0 then Ok([])
    else if refs[0] < |snap.infoData| && snap.infoData[refs[0]].Some? then Err(ArgumentCountError)
    else Err(CallOnNull)
  }

  lemma RefsForSnoc(flagRefs: map<string, seq<nat>>, requested: seq<string>, f: string)
    ensures RefsFor(flagRefs, requested + [f]) == RefsFor(flagRefs, requested) + Bucket(flagRefs, f)
  {
    assert (requested + [f])[..|requested|] == requested;
  }

  lemma {:induction false} RefsForConcat(flagRefs: map<string, seq<nat>>, a: seq<string>, b: seq<string>)
    ensures RefsFor(flagRefs, a + b) == RefsFor(flagRefs, a) + RefsFor(flagRefs, b)
  {
    if |b| == 0 {
      assert a + b == a;
    } else {
      var init, last := b[..|b| - 1], b[|b| - 1];
      assert b == init + [last];
      assert a + b == (a + init) + [last];
      RefsForConcat(flagRefs, a, init);
      RefsForSnoc(flagRefs, a + init, last);
      RefsForSnoc(flagRefs, init, last);
      SeqAssoc(RefsFor(flagRefs, a), RefsFor(flagRefs, init), Bucket(flagRefs, last));
    }
  }

  lemma {:induction false} NamesAtConcat<D>(infoData: seq<Option<D>>, classNamesOf: D -> seq<string>, a: seq<nat>, b: seq<nat>)
    ensures NamesAt(infoData, classNamesOf, a + b) == NamesAt(infoData, classNamesOf, a) + NamesAt(infoData, classNamesOf, b)
  {
    if |b| == 0 {
      assert a + b == a;
    } else {
      var init, last := b[..|b| - 1], b[|b| - 1];
      assert b == init + [last];
      assert a + b == (a + init) + [last];
      NamesAtConcat(infoData, classNamesOf, a, init);
      NamesAtSnoc(infoData, classNamesOf, a + init, last);
      NamesAtSnoc(infoData, classNamesOf, init, last);
      SeqAssoc(NamesAt(infoData, classNamesOf, a), NamesAt(infoData, classNamesOf, init), EntryNames(infoData, classNamesOf, last));
    }
  }

  lemma NamesAtSnoc<D>(infoData: seq<Option<D>>, classNamesOf: D -> seq<string>, refs: seq<nat>, j: nat)
    ensures NamesAt(infoData, classNamesOf, refs + [j]) == NamesAt(infoData, classNamesOf, refs) + EntryNames(infoData, classNamesOf, j)
  {
    assert (refs + [j])[..|refs|] == refs;
  }

  lemma {:induction false} RefsForElements(flagRefs: map<string, seq<nat>>, requested: seq<string>, j: nat)
    ensures j in RefsFor(flagRefs, requested) <==> exists f :: f in requested && j in Bucket(flagRefs, f)
  {
    if |requested| > 0 {
      var init := requested[..|requested| - 1];
      RefsForElements(flagRefs, init, j);
      assert requested == init + [requested[|requested| - 1]];
    }
  }

  lemma {:induction false} NamesAtElements<D>(infoData: seq<Option<D>>, classNamesOf: D -> seq<string>, refs: seq<nat>, n: string)
    ensures n in NamesAt(infoData, classNamesOf, refs) <==> exists j :: j in refs && n in EntryNames(infoData, classNamesOf, j)
  {
    if |refs| > 0 {
      var init := refs[..|refs| - 1];
      NamesAtElements(infoData, classNamesOf, init, n);
      assert refs == init + [refs[|refs| - 1]];
    }
  }

  /** A name is returned exactly when some requested flag stores the position of a data object
      that holds it; no name is returned twice. */
  lemma ClassNamesExactly<D>(snap: Snapshot<D>, classNamesOf: D -> seq<string>, requested: seq<string>, n: string)
    ensures NoDup(ClassNames(snap, classNamesOf, requested))
    ensures n in ClassNames(snap, classNamesOf, requested) <==>
      exists f, j :: f in requested && j in Bucket(snap.flagRefs, f) && n in EntryNames(snap.infoData, classNamesOf, j)
  {
    var refs := RefsFor(snap.flagRefs, requested);
    DedupNoDup(NamesAt(snap.infoData, classNamesOf, refs));
    DedupElements(NamesAt(snap.infoData, classNamesOf, refs));
    NamesAtElements(snap.infoData, classNamesOf, refs, n);
    if j :| j in refs && n in EntryNames(snap.infoData, classNamesOf, j) {
      RefsForElements(snap.flagRefs, requested, j);
    }
    if f, j :| f in requested && j in Bucket(snap.flagRefs, f) && n in EntryNames(snap.infoData, classNamesOf, j) {
      RefsForElements(snap.flagRefs, requested, j);
    }
  }

  /** Union semantics: querying two flag lists at once is de-duplicating the concatenation of
      the two separate answers, in request order. */
  lemma ClassNamesUnion<D>(snap: Snapshot<D>, classNamesOf: D -> seq<string>, a: seq<string>, b: seq<string>)
    ensures ClassNames(snap, classNamesOf, a + b)
         == Dedup(ClassNames(snap, classNamesOf, a) + ClassNames(snap, classNamesOf, b))
  {
    RefsForConcat(snap.flagRefs, a, b);
    NamesAtConcat(snap.infoData, classNamesOf, RefsFor(snap.flagRefs, a), RefsFor(snap.flagRefs, b));
    DedupConcat(NamesAt(snap.infoData, classNamesOf, RefsFor(snap.flagRefs, a)),
                NamesAt(snap.infoData, classNamesOf, RefsFor(snap.flagRefs, b)));
  }

  /** A flag nothing was recorded under contributes nothing to a query. */
  lemma ClassNamesIgnoreUnknownFlag<D>(snap: Snapshot<D>, classNamesOf: D -> seq<string>, a: seq<string>, f: string, b: seq<string>)
    requires f !in snap.flagRefs
    ensures ClassNames(snap, classNamesOf, a + [f] + b) == ClassNames(snap, classNamesOf, a + b)
  {
    RefsForConcat(snap.flagRefs, a + [f], b);
    RefsForConcat(snap.flagRefs, a, b);
    RefsForSnoc(snap.flagRefs, a, f);
    assert RefsFor(snap.flagRefs, a + [f]) == RefsFor(snap.flagRefs, a);
  }

  /** `requested` with every occurrence of `f` removed. */
  function Without(requested: seq<string>, f: string): seq<string> {
    if |requested| == 0 then []
    else Without(requested[..|requested| - 1], f)
         + (if requested[|requested| - 1] == f then [] else [requested[|requested| - 1]])
  }

  lemma {:induction false} RefsForWithout(flagRefs: map<string, seq<nat>>, requested: seq<string>, f: string)
    requires f !in flagRefs
    ensures RefsFor(flagRefs, Without(requested, f)) == RefsFor(flagRefs, requested)
  {
    if |requested| > 0 {
      var init, last := requested[..|requested| - 1], requested[|requested| - 1];
      RefsForWithout(flagRefs, init, f);
      assert requested == init + [last];
      RefsForSnoc(flagRefs, init, last);
      if last != f {
        RefsForSnoc(flagRefs, Without(init, f), last);
      } else {
        assert Without(requested, f) == Without(init, f) + [];
        assert Without(init, f) + [] == Without(init, f);
        assert RefsFor(flagRefs, requested) == RefsFor(flagRefs, init) + [];
        assert RefsFor(flagRefs, init) + [] == RefsFor(flagRefs, init);
      }
    }
  }

  /** Flags nothing was recorded under can be dropped from a query without changing it. */
  lemma ClassNamesIgnoreUnknownFlags<D>(snap: Snapshot<D>, classNamesOf: D -> seq<string>, requested: seq<string>)
    ensures forall f :: f !in snap.flagRefs ==>
      ClassNames(snap, classNamesOf, requested) == ClassNames(snap, classNamesOf, Without(requested, f))
  {
    forall f | f !in snap.flagRefs
      ensures ClassNames(snap, classNamesOf, requested) == ClassNames(snap, classNamesOf, Without(requested, f))
    {
      RefsForWithout(snap.flagRefs, requested, f);
    }
  }

  /** The query as written throws as soon as a requested flag has any recorded position. */
  lemma ClassNamesAsWrittenThrows<D>(snap: Snapshot<D>, requested: seq<string>, f: string)
    requires f in requested && |Bucket(snap.flagRefs, f)| > 0
    ensures ClassNamesAsWritten(snap, requested).Err?
  {
    RefsForElements(snap.flagRefs, requested, Bucket(snap.flagRefs, f)[0]);
  }

  /** One folder under flag "models" holding class App\User: the query as written throws
      where the intended one returns ["App\\User"]. */
  lemma ClassNamesAsWrittenCounterexample()
    ensures ClassNamesAsWritten(Snapshot([Some(["App\\User"])], map["models" := [0]]), ["models"])
         == Err(ArgumentCountError)
    ensures ClassNames(Snapshot([Some(["App\\User"])], map["models" := [0]]), (d: seq<string>) => d, ["models"])
         == ["App\\User"]
  {
    var refs: map<string, seq<nat>> := map["models" := [0]];
    var infoData: seq<Option<seq<string>>> := [Some(["App\\User"])];
    var id := (d: seq<string>) => d;
    RefsForSnoc(refs, [], "models");
    assert [] + ["models"] == ["models"];
    assert RefsFor(refs, ["models"]) == [0];
    assert EntryNames(infoData, id, 0) == ["App\\User"];
    assert NamesAt(infoData, id, [0]) == NamesAt(infoData, id, []) + EntryNames(infoData, id, 0);
    DedupSnoc([], "App\\User");
    assert [] + ["App\\User"] == ["App\\User"];
  }

  // ---------------------------------------------------------------------------------------
  // The object

  class CodeInfo<D> {
    /** The folder analyzer (`CodeAnalyzer::parseFolder`) over the current file system. */
    const analyzer: FolderRequest -> Option<D>
    /** The class-name query of one analyzer result. */
    const classNamesOf: D -> seq<string>

    var fileCache: Option<string>
    var sourcesToParse: seq<Source>
    var infoData: seq<Option<D>>
    var infoDataFlagRefs: map<string, seq<nat>>
    var flags: seq<string>
    /** The folders handed to the analyzer so far, one entry per call. */
    ghost var analyzerCalls: seq<string>

    constructor (analyzer: FolderRequest -> Option<D>, classNamesOf: D -> seq<string>, fileCache: Option<string>)
      ensures this.analyzer == analyzer && this.classNamesOf == classNamesOf
      ensures this.fileCache == NormalizeCachePath(fileCache)
      ensures sourcesToParse == [] && infoData == [] && infoDataFlagRefs == map[] && flags == []
      ensures analyzerCalls == []
    {
      this.analyzer := analyzer;
      this.classNamesOf := classNamesOf;
      this.fileCache := NormalizeCachePath(fileCache);
      sourcesToParse := [];
      infoData := [];
      infoDataFlagRefs := map[];
      flags := [];
      analyzerCalls := [];
    }

    /** `enableFileCache` stores the path verbatim (no ".php" normalisation). */
    method EnableFileCache(path: string)
      modifies this
      ensures fileCache == Some(path)
      ensures sourcesToParse == old(sourcesToParse) && infoData == old(infoData)
      ensures infoDataFlagRefs == old(infoDataFlagRefs) && flags == old(flags) && analyzerCalls == old(analyzerCalls)
    {
      fileCache := Some(path);
    }

    /** `defineSource` appends one source and leaves the earlier ones alone. */
    method DefineSource(source: Source)
      modifies this
      ensures sourcesToParse == old(sourcesToParse) + [source]
      ensures fileCache == old(fileCache) && infoData == old(infoData)
      ensures infoDataFlagRefs == old(infoDataFlagRefs) && flags == old(flags) && analyzerCalls == old(analyzerCalls)
    {
      sourcesToParse := sourcesToParse + [source];
    }

    /** `getFlags`: the flag list as it stands; `FlagsAfterScan` and `Process` say what it
        holds after a scan and after a restore. */
    function GetFlags(): (r: seq<string>)
      reads this
      ensures r == flags
    {
      flags
    }

    /** `shouldCache`: caching is on exactly when a cache path is set. */
    function ShouldCache(): (r: bool)
      reads this
      ensures r <==> fileCache != None
    {
      fileCache.Some?
    }

    /** `getClassNames`, with the query corrected (see `ClassNamesAsWritten`): no name twice,
        and a flag nothing was recorded under adds nothing. */
    function GetClassNames(requested: seq<string>): (r: seq<string>)
      reads this
      ensures NoDup(r)
      ensures forall f :: f in requested && f !in infoDataFlagRefs ==>
        r == ClassNames(Snapshot(infoData, infoDataFlagRefs), classNamesOf, Without(requested, f))
    {
      var snap := Snapshot(infoData, infoDataFlagRefs);
      DedupNoDup(NamesAt(infoData, classNamesOf, RefsFor(infoDataFlagRefs, requested)));
      ClassNamesIgnoreUnknownFlags(snap, classNamesOf, requested);
      ClassNames(snap, classNamesOf, requested)
    }

    /** The first loop of `process`: the distinct folders in first-registration order, each
        with the concatenated extensions and flags of its sources. */
    method ConsolidateFolders() returns (order: seq<string>, folders: map<string, Merged>)
      ensures order == Folders(sourcesToParse)
      ensures forall f :: f in folders <==> f in order
      ensures forall f :: f in folders ==> folders[f] == MergedFor(sourcesToParse, f)
    {
      order, folders := [], map[];
      var i := 0;
      while i < |sourcesToParse|
        invariant 0 <= i <= |sourcesToParse|
        invariant order == Folders(sourcesToParse[..i])
        invariant forall f :: f in folders <==> f in order
        invariant forall f :: MergedOrEmpty(folders, f) == MergedFor(sourcesToParse[..i], f)
      {
        var source := sourcesToParse[i];
        var folder := source.GetFolderToParse();
        ghost var before := sourcesToParse[..i];
        assert sourcesToParse[..i + 1] == before + [source];
        MergedForSnoc(before, source);
        DedupSnoc(FolderList(before), folder);
        DedupElements(FolderList(before));
        if folder !in folders {
          folders := folders[folder := Merged([], [])];
          order := order + [folder];
        }
        folders := folders[folder := Merged(folders[folder].extensions + source.GetExtensions(),
                                            folders[folder].flags + source.GetFlags())];
        i := i + 1;
      }
      assert sourcesToParse[..i] == sourcesToParse;
      forall f | f in folders ensures folders[f] == MergedFor(sourcesToParse, f) {
        assert MergedOrEmpty(folders, f) == folders[f];
      }
    }

    /** The inner loop of `process`: record position `idx` under each flag. */
    method AddFlagRefs(folderFlags: seq<string>, idx: nat)
      modifies this
      ensures infoDataFlagRefs == AddRefs(old(infoDataFlagRefs), folderFlags, idx)
      ensures fileCache == old(fileCache) && sourcesToParse == old(sourcesToParse)
      ensures infoData == old(infoData) && flags == old(flags) && analyzerCalls == old(analyzerCalls)
    {
      var j := 0;
      while j < |folderFlags|
        invariant 0 <= j <= |folderFlags|
        invariant infoDataFlagRefs == AddRefs(old(infoDataFlagRefs), folderFlags[..j], idx)
        invariant fileCache == old(fileCache) && sourcesToParse == old(sourcesToParse)
        invariant infoData == old(infoData) && flags == old(flags) && analyzerCalls == old(analyzerCalls)
      {
        var flag := folderFlags[j];
        if flag !in infoDataFlagRefs {
          infoDataFlagRefs := infoDataFlagRefs[flag := []];
        }
        infoDataFlagRefs := infoDataFlagRefs[flag := infoDataFlagRefs[flag] + [idx]];
        assert folderFlags[..j + 1][..j] == folderFlags[..j];
        j := j + 1;
      }
      assert folderFlags[..j] == folderFlags;
    }

    /** `restoreCache`: the snapshot replaces `info_data` and `info_data_flag_refs`; `flags`
        is not part of the cache and keeps its value. */
    method RestoreCache(snapshot: Snapshot<D>)
      modifies this
      ensures infoData == snapshot.infoData && infoDataFlagRefs == snapshot.flagRefs
      ensures fileCache == old(fileCache) && sourcesToParse == old(sourcesToParse)
      ensures flags == old(flags) && analyzerCalls == old(analyzerCalls)
    {
      infoDataFlagRefs := snapshot.flagRefs;
      infoData := snapshot.infoData;
    }

    /** One pass of the second loop of `process`: analyze one folder, append the result and
        record its position under the folder's flags. */
    method ScanOne(req: FolderRequest)
      modifies this
      ensures fileCache == old(fileCache) && sourcesToParse == old(sourcesToParse)
      ensures ScanState(infoData, infoDataFlagRefs, flags)
           == ScanFolder(ScanState(old(infoData), old(infoDataFlagRefs), old(flags)), req, analyzer(req))
      ensures analyzerCalls == old(analyzerCalls) + [req.folder]
    {
      var codeData := analyzer(req);
      analyzerCalls := analyzerCalls + [req.folder];
      infoData := infoData + [codeData];
      var idx := |infoData| - 1;
      AddFlagRefs(req.flags, idx);
      flags := flags + req.flags;
    }

    /** The second loop of `process`: analyze each folder once, in order, appending its result
        and recording its position under its flags. */
    method ScanFolders(order: seq<string>, folders: map<string, Merged>, ghost reqs: seq<FolderRequest>)
      requires BuildsRequests(order, folders, reqs)
      modifies this
      ensures fileCache == old(fileCache) && sourcesToParse == old(sourcesToParse)
      ensures ScanState(infoData, infoDataFlagRefs, flags)
           == ScanAll(ScanState(old(infoData), old(infoDataFlagRefs), old(flags)), reqs, analyzer)
      ensures analyzerCalls == old(analyzerCalls) + order
    {
      ghost var start := ScanState(infoData, infoDataFlagRefs, flags);
      ghost var calls := analyzerCalls;
      var k := 0;
      while k < |order|
        invariant 0 <= k <= |order| == |reqs|
        invariant fileCache == old(fileCache) && sourcesToParse == old(sourcesToParse)
        invariant ScanState(infoData, infoDataFlagRefs, flags) == ScanAll(start, reqs[..k], analyzer)
        invariant analyzerCalls == calls + order[..k]
      {
        var folder := order[k];
        var req := FolderRequest(folder, Dedup(folders[folder].extensions), Dedup(folders[folder].flags));
        ScanAllPrefix(start, reqs, k, analyzer);
        assert order[..k + 1] == order[..k] + [folder];
        ScanOne(req);
        k := k + 1;
      }
      assert reqs[..k] == reqs;
      assert order[..k] == order;
    }

    /** `process`: restore from the cache when caching is enabled and the cache file exists;
        otherwise analyze every distinct folder once and, when caching, write the snapshot. */
    method Process(probe: CacheProbe<D>) returns (outcome: ProcessOutcome<D>)
      modifies this
      ensures fileCache == old(fileCache) && sourcesToParse == old(sourcesToParse)
      ensures ShouldCache() && probe.DirUncreatable? ==>
        && outcome == CacheDirError
        && infoData == old(infoData) && infoDataFlagRefs == old(infoDataFlagRefs)
        && flags == old(flags) && analyzerCalls == old(analyzerCalls)
      ensures ShouldCache() && probe.Present? ==>
        && outcome == Restored
        && infoData == probe.snapshot.infoData && infoDataFlagRefs == probe.snapshot.flagRefs
        && flags == old(flags) && analyzerCalls == old(analyzerCalls)
      ensures !ShouldCache() || probe.Absent? ==>
        var scanned := ScanAll(ScanState(old(infoData), old(infoDataFlagRefs), old(flags)), Requests(sourcesToParse), analyzer);
        && infoData == scanned.infoData && infoDataFlagRefs == scanned.flagRefs
        && flags == Dedup(scanned.flags)
        && analyzerCalls == old(analyzerCalls) + Folders(sourcesToParse)
        && outcome == Scanned(if ShouldCache() then Some(Snapshot(infoData, infoDataFlagRefs)) else None)
    {
      if ShouldCache() {
        match probe
        case DirUncreatable =>
          return CacheDirError;
        case Present(snapshot) =>
          RestoreCache(snapshot);
          return Restored;
        case Absent =>
      }
      var order, folders := ConsolidateFolders();
      ConsolidatedBuildsRequests(sourcesToParse, folders);
      ScanFolders(order, folders, Requests(sourcesToParse));
      flags := Dedup(flags);
      if ShouldCache() {
        outcome := Scanned(Some(Snapshot(infoData, infoDataFlagRefs)));
      } else {
        outcome := Scanned(None);
      }
    }
  }

  /** A cache written by one scan and restored by a second index (whose analyzer may differ)
      answers every query as the scan did; the restored index lists no flags. */
  method CacheRoundTrip<D>(analyzer: FolderRequest -> Option<D>, other: FolderRequest -> Option<D>,
                           classNamesOf: D -> seq<string>, path: string, sources: seq<Source>)
    returns (writer: CodeInfo<D>, restored: CodeInfo<D>)
    ensures forall q :: restored.GetClassNames(q) == writer.GetClassNames(q)
    ensures restored.infoData == writer.infoData && restored.infoDataFlagRefs == writer.infoDataFlagRefs
    ensures restored.GetFlags() == [] && restored.analyzerCalls == []
    ensures writer.analyzerCalls == Folders(sources)
  {
    writer := new CodeInfo(analyzer, classNamesOf, Some(path));
    var i := 0;
    while i < |sources|
      invariant 0 <= i <= |sources|
      invariant writer.sourcesToParse == sources[..i] && writer.fileCache == NormalizeCachePath(Some(path))
      invariant writer.infoData == [] && writer.infoDataFlagRefs == map[] && writer.flags == []
      invariant writer.analyzerCalls == [] && writer.classNamesOf == classNamesOf
    {
      writer.DefineSource(sources[i]);
      assert sources[..i + 1] == sources[..i] + [sources[i]];
      i := i + 1;
    }
    assert sources[..i] == sources;
    var outcome := writer.Process(Absent);
    restored := new CodeInfo(other, classNamesOf, Some(path));
    var _ := restored.Process(Present(outcome.written.value));
  }
}
