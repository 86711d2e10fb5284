/** The daily-verse hook (src/hooks/useDailyVerse.ts): the verse of the day
    cached in localStorage under the date it was fetched on, the list of the
    user's last ten feelings kept beside it, and the loading flag the page
    shows. localStorage is the `storage` field, a map from key to value; the
    edge-function call is split at its `await`: the first half returns the
    request it sends, the second half takes what came back. */
module DailyVerseHook {
  import opened Wrappers
  import opened Seqs
  import opened Json
  import opened DailyVerseRecord

  const StorageKeyVerse := "zealous_daily_verse"
  const StorageKeyDate := "zealous_verse_date"
  const StorageKeyFeelings := "zealous_user_feelings"

  /** How many feelings are kept. */
  const FeelingsKept := 10

  type Storage = map<string, string>

  /** `getStoredFeelings`: the stored list, or the empty list when the key is
      missing, its value is empty or it does not parse. */
  function StoredFeelings(storage: Storage): seq<string>
  {
    if StorageKeyFeelings !in storage || storage[StorageKeyFeelings] == "" then []
    else match DecodeList(storage[StorageKeyFeelings])
      case None => []
      case Some(xs) => xs
  }

  /** Storage with `xs` written as the feelings list. */
  function WriteFeelings(storage: Storage, xs: seq<string>): Storage
  {
    storage[StorageKeyFeelings := EncodeList(xs)]
  }

  /** A list written as the feelings is read back as itself. */
  lemma FeelingsReadBack(storage: Storage, xs: seq<string>)
    ensures StoredFeelings(WriteFeelings(storage, xs)) == xs
  {
    ListRoundTrip(xs);
    assert EncodeList(xs)[0] == '[';
  }

  /** `addFeeling(feeling)`: the list with `feeling` appended, cut to its last ten. */
  function WithFeeling(storage: Storage, feeling: string): Storage
  {
    WriteFeelings(storage, TakeLast(StoredFeelings(storage) + [feeling], FeelingsKept))
  }

  /** After `addFeeling(f)` the stored list is the old one with `f`
      appended and cut to the last ten; it ends with `f`, and it is the old list
      plus `f` when that had fewer than ten entries. Nothing else is touched. */
  lemma AddFeelingKeepsLastTen(storage: Storage, f: string)
    ensures StoredFeelings(WithFeeling(storage, f))
      == TakeLast(StoredFeelings(storage) + [f], FeelingsKept)
    ensures 0 < |StoredFeelings(WithFeeling(storage, f))| <= FeelingsKept
    ensures StoredFeelings(WithFeeling(storage, f))[|StoredFeelings(WithFeeling(storage, f))| - 1] == f
    ensures |StoredFeelings(storage)| < FeelingsKept ==>
      StoredFeelings(WithFeeling(storage, f)) == StoredFeelings(storage) + [f]
    ensures forall k | k in storage && k != StorageKeyFeelings ::
      k in WithFeeling(storage, f) && WithFeeling(storage, f)[k] == storage[k]
  {
    AddFeelingWindow(storage, f);
    AddFeelingKeepsOtherKeys(storage, f);
  }

  /** The stored list after `addFeeling(f)` is the window of the old one. */
  lemma AddFeelingWindow(storage: Storage, f: string)
    ensures StoredFeelings(WithFeeling(storage, f))
      == TakeLast(StoredFeelings(storage) + [f], FeelingsKept)
    ensures 0 < |StoredFeelings(WithFeeling(storage, f))| <= FeelingsKept
    ensures StoredFeelings(WithFeeling(storage, f))[|StoredFeelings(WithFeeling(storage, f))| - 1] == f
    ensures |StoredFeelings(storage)| < FeelingsKept ==>
      StoredFeelings(WithFeeling(storage, f)) == StoredFeelings(storage) + [f]
  {
    FeelingsReadBack(storage, TakeLast(StoredFeelings(storage) + [f], FeelingsKept));
    WindowEndsWith(StoredFeelings(storage), f, FeelingsKept);
  }

  /** `addFeeling` writes only the feelings key. */
  lemma AddFeelingKeepsOtherKeys(storage: Storage, f: string)
    ensures forall k | k in storage && k != StorageKeyFeelings ::
      k in WithFeeling(storage, f) && WithFeeling(storage, f)[k] == storage[k]
  {
  }

  /** The last `n` of a list with `f` appended end in `f`, and are the whole
      list when it was shorter than `n`. */
  lemma WindowEndsWith(before: seq<string>, f: string, n: nat)
    requires n > 0
    ensures 0 < |TakeLast(before + [f], n)| <= n
    ensures TakeLast(before + [f], n)[|TakeLast(before + [f], n)| - 1] == f
    ensures |before| < n ==> TakeLast(before + [f], n) == before + [f]
  {
  }

  /** Calling `addFeeling` with each of `fs` in turn. */
  function WithFeelings(storage: Storage, fs: seq<string>): Storage
    decreases |fs|
  {
    if fs == [] then storage
    else WithFeelings(WithFeeling(storage, fs[0]), fs[1..])
  }

  /** Any non-empty run of `addFeeling` calls leaves the last ten of the old
      list followed by the new ones, whatever the length of the old list. */
  lemma {:induction false} AddFeelingsKeepLastTen(storage: Storage, fs: seq<string>)
    requires fs != []
    ensures StoredFeelings(WithFeelings(storage, fs)) == TakeLast(StoredFeelings(storage) + fs, FeelingsKept)
    decreases |fs|
  {
    var s1 := WithFeeling(storage, fs[0]);
    FirstFeeling(storage, fs);
    if |fs| == 1 {
      assert fs == [fs[0]];
    } else {
      AddFeelingsKeepLastTen(s1, fs[1..]);
      WindowAfterFirst(StoredFeelings(storage), fs, FeelingsKept);
    }
  }

  /** The first of a run of `addFeeling` calls, on its own. */
  lemma FirstFeeling(storage: Storage, fs: seq<string>)
    requires fs != []
    ensures WithFeelings(storage, fs) == WithFeelings(WithFeeling(storage, fs[0]), fs[1..])
    ensures StoredFeelings(WithFeeling(storage, fs[0]))
      == TakeLast(StoredFeelings(storage) + [fs[0]], FeelingsKept)
  {
    FeelingsReadBack(storage, TakeLast(StoredFeelings(storage) + [fs[0]], FeelingsKept));
  }

  /** The window after the first feeling, extended by the rest, is the window
      of the whole run. */
  lemma WindowAfterFirst(before: seq<string>, fs: seq<string>, n: nat)
    requires fs != [] && n > 0
    ensures TakeLast(TakeLast(before + [fs[0]], n) + fs[1..], n) == TakeLast(before + fs, n)
  {
    TakeLastAppend(before + [fs[0]], fs[1..], n);
    SplitFirst(before, fs);
  }

  /** Appending the first element and then the rest is appending the whole. */
  lemma SplitFirst(before: seq<string>, fs: seq<string>)
    requires fs != []
    ensures before + [fs[0]] + fs[1..] == before + fs
  {
    assert [fs[0]] + fs[1..] == fs;
  }

  /** Cutting to the last `n` before appending changes nothing once the
      result is cut again, for any appended sequence. */
  lemma TakeLastAppend(a: seq<string>, b: seq<string>, n: nat)
    ensures TakeLast(TakeLast(a, n) + b, n) == TakeLast(a + b, n)
  {
    var m := |TakeLast(a, n)|;
    assert TakeLast(a, n) + b == (a + b)[|a| - m..];
    TakeLastOfSuffix(a + b, |a| - m, n);
  }

  /** The last `n` of a suffix that is at least that long are the last `n`
      of the whole. */
  lemma TakeLastOfSuffix(x: seq<string>, k: nat, n: nat)
    requires k <= |x| && |x| - k >= Min(n, |x|)
    ensures TakeLast(x[k..], n) == TakeLast(x, n)
  {
    if n <= |x| {
      assert x[k..][|x| - k - n..] == x[|x| - n..];
    } else {
      assert x[k..] == x;
    }
  }

  /** What `supabase.functions.invoke('get-daily-verse', …)` came to: data,
      an error it reports, or an exception it throws. */
  datatype InvokeOutcome = Returned(data: DailyVerse) | ReportedError | Threw

  /** The verse `fetchNewVerse` resolves to. */
  function FetchedVerse(outcome: InvokeOutcome): (v: DailyVerse)
    ensures outcome.Returned? ==> v == outcome.data
    ensures !outcome.Returned? ==> v == PsalmTwentyThree
  {
    if outcome.Returned? then outcome.data else PsalmTwentyThree
  }

  /** The body `fetchNewVerse` sends: the stored feelings and today's date. */
  function FetchRequest(storage: Storage, today: string): (r: DailyVerseRequest)
    ensures r.date == today && r.userFeelings == StoredFeelings(storage)
  {
    DailyVerseRequest(StoredFeelings(storage), today)
  }

  /** The cache is good for `today`: the stored date is today and a verse is stored. */
  predicate CacheHit(storage: Storage, today: string)
  {
    StorageKeyDate in storage && storage[StorageKeyDate] == today
    && StorageKeyVerse in storage && storage[StorageKeyVerse] != ""
  }

  /** The verse a cache hit shows. `parse` stands for `JSON.parse` of the
      stored text: the verse it yields, or `None` when it throws, in which
      case the `catch` of `loadVerse` shows the fallback. */
  function CachedVerse(storage: Storage, parse: string -> Option<DailyVerse>): (v: DailyVerse)
    requires StorageKeyVerse in storage
    ensures parse(storage[StorageKeyVerse]).Some? ==> v == parse(storage[StorageKeyVerse]).value
    ensures parse(storage[StorageKeyVerse]).None? ==> v == PsalmTwentyThree
  {
    match parse(storage[StorageKeyVerse])
    case None => PsalmTwentyThree
    case Some(v) => v
  }

  /** Storage with `v` cached as the verse of `today`. */
  function Cache(storage: Storage, today: string, v: DailyVerse): Storage
  {
    storage[StorageKeyDate := today][StorageKeyVerse := EncodeVerse(v)]
  }

  /** Once a verse is cached for a day, loading again that day is a hit that
      shows exactly that verse, and the feelings are untouched, whenever the
      parse reads back what `JSON.stringify` wrote. */
  lemma CachedVerseIsShown(storage: Storage, today: string, v: DailyVerse, parse: string -> Option<DailyVerse>)
    requires parse(EncodeVerse(v)) == Some(v)
    ensures CacheHit(Cache(storage, today, v), today)
    ensures CachedVerse(Cache(storage, today, v), parse) == v
    ensures StoredFeelings(Cache(storage, today, v)) == StoredFeelings(storage)
  {
    VerseRoundTrip(v);
    assert EncodeVerse(v)[0] == '{';
  }

  /** The strict decoder of this model reads back every encoded verse, so
      it is a parse `CachedVerseIsShown` applies to. */
  lemma DecodeVerseReadsBack(v: DailyVerse)
    ensures DecodeVerse(EncodeVerse(v)) == Some(v)
  {
    VerseRoundTrip(v);
  }

  /** When only the date is written (the verse's `setItem` throws), the
      next load that day is a hit showing the verse cached before, under
      today's date. */
  lemma DateOnlyWriteKeepsOldVerse(storage: Storage, today: string, parse: string -> Option<DailyVerse>)
    requires StorageKeyVerse in storage && storage[StorageKeyVerse] != ""
    ensures CacheHit(storage[StorageKeyDate := today], today)
    ensures CachedVerse(storage[StorageKeyDate := today], parse) == CachedVerse(storage, parse)
  {
    assert StorageKeyDate != StorageKeyVerse;
  }

  /** A verse cached on one day is not used on another. */
  lemma OtherDayMisses(storage: Storage, day: string, today: string, v: DailyVerse)
    requires day != today
    ensures !CacheHit(Cache(storage, day, v), today)
  {
  }

  /** Adding a feeling does not disturb the cached verse. */
  lemma AddFeelingKeepsCache(storage: Storage, today: string, f: string, parse: string -> Option<DailyVerse>)
    ensures CacheHit(WithFeeling(storage, f), today) <==> CacheHit(storage, today)
    ensures StorageKeyVerse in storage ==>
      StorageKeyVerse in WithFeeling(storage, f)
      && CachedVerse(WithFeeling(storage, f), parse) == CachedVerse(storage, parse)
  {
    FeelingsWriteKeepsCache(storage, today, EncodeList(TakeLast(StoredFeelings(storage) + [f], FeelingsKept)), parse);
  }

  /** Writing the feelings key leaves the date and the verse as they were. */
  lemma FeelingsWriteKeepsCache(storage: Storage, today: string, x: string, parse: string -> Option<DailyVerse>)
    ensures CacheHit(storage[StorageKeyFeelings := x], today) <==> CacheHit(storage, today)
    ensures StorageKeyVerse in storage ==>
      StorageKeyVerse in storage[StorageKeyFeelings := x]
      && CachedVerse(storage[StorageKeyFeelings := x], parse) == CachedVerse(storage, parse)
  {
    var s2 := storage[StorageKeyFeelings := x];
    assert StorageKeyFeelings != StorageKeyVerse && StorageKeyFeelings != StorageKeyDate;
    assert StorageKeyVerse in storage ==> s2[StorageKeyVerse] == storage[StorageKeyVerse];
  }

  /** The state of the hook in one page. */
  class DailyVerseHook {
    /** localStorage. */
    var storage: Storage
    /** The verse on show, `null` before the first load. */
    var verse: Option<DailyVerse>
    var isLoading: bool

    /** The hook's first render: no verse yet, loading. */
    constructor(storage: Storage)
      ensures this.storage == storage && verse == None && isLoading
    {
      this.storage := storage;
      verse := None;
      isLoading := true;
    }

    /** `addFeeling(feeling)`. `written` says whether its `setItem`
        completes; when it throws (a full or disabled store) the `catch`
        swallows the error and storage keeps its old feelings. */
    method AddFeeling(feeling: string, written: bool)
      modifies this
      ensures storage == if written then WithFeeling(old(storage), feeling) else old(storage)
      ensures verse == old(verse) && isLoading == old(isLoading)
    {
      var updated := TakeLast(StoredFeelings(storage) + [feeling], FeelingsKept);
      if written {
        storage := storage[StorageKeyFeelings := EncodeList(updated)];
      }
    }

    /** `loadVerse` up to its `await`. A cache hit shows the cached verse and
        fetches nothing; a miss shows the fallback at once and returns the
        request it sends. Either way the page stops loading. */
    method LoadVerse(today: string, parse: string -> Option<DailyVerse>) returns (request: Option<DailyVerseRequest>)
      modifies this
      ensures storage == old(storage) && !isLoading
      ensures CacheHit(old(storage), today) ==>
        request == None && verse == Some(CachedVerse(old(storage), parse))
      ensures !CacheHit(old(storage), today) ==>
        request == Some(FetchRequest(old(storage), today)) && verse == Some(PsalmTwentyThree)
    {
      if CacheHit(storage, today) {
        verse := Some(CachedVerse(storage, parse));
        isLoading := false;
        request := None;
      } else {
        verse := Some(PsalmTwentyThree);
        isLoading := false;
        request := Some(FetchRequest(storage, today));
      }
    }

    /** `loadVerse` after its `await`: the fetched verse is cached for `today`
        and shown. `written` is how many of the two `setItem` calls complete
        before one throws (a full or disabled store); when one throws, what
        was written stays and the `catch` shows the fallback. */
    method ResumeLoad(today: string, outcome: InvokeOutcome, written: nat)
      modifies this
      ensures written >= 2 ==>
        storage == Cache(old(storage), today, FetchedVerse(outcome))
        && verse == Some(FetchedVerse(outcome)) && isLoading == old(isLoading)
      ensures written == 1 ==> storage == old(storage)[StorageKeyDate := today]
      ensures written == 0 ==> storage == old(storage)
      ensures written < 2 ==> verse == Some(PsalmTwentyThree) && !isLoading
    {
      var newVerse := FetchedVerse(outcome);
      if written == 0 {
        verse := Some(PsalmTwentyThree);
        isLoading := false;
        return;
      }
      storage := storage[StorageKeyDate := today];
      if written == 1 {
        verse := Some(PsalmTwentyThree);
        isLoading := false;
        return;
      }
      storage := storage[StorageKeyVerse := EncodeVerse(newVerse)];
      verse := Some(newVerse);
    }

    /** `refreshVerse` up to its `await`: loading, and the request sent. */
    method BeginRefresh(today: string) returns (request: DailyVerseRequest)
      modifies this
      ensures isLoading && storage == old(storage) && verse == old(verse)
      ensures request == FetchRequest(storage, today)
    {
      isLoading := true;
      request := FetchRequest(storage, today);
    }

    /** `refreshVerse` after its `await`: the fetched verse replaces the cache
        whatever its date, is shown, and loading ends. `written` is as for
        `ResumeLoad`; `refreshVerse` has no `catch`, so when a `setItem`
        throws the page keeps its old verse and stays loading. */
    method CompleteRefresh(today: string, outcome: InvokeOutcome, written: nat)
      modifies this
      ensures written >= 2 ==>
        storage == Cache(old(storage), today, FetchedVerse(outcome))
        && verse == Some(FetchedVerse(outcome)) && !isLoading
      ensures written == 1 ==> storage == old(storage)[StorageKeyDate := today]
      ensures written == 0 ==> storage == old(storage)
      ensures written < 2 ==> verse == old(verse) && isLoading == old(isLoading)
    {
      var newVerse := FetchedVerse(outcome);
      if written == 0 {
        return;
      }
      storage := storage[StorageKeyDate := today];
      if written == 1 {
        return;
      }
      storage := storage[StorageKeyVerse := EncodeVerse(newVerse)];
      verse := Some(newVerse);
      isLoading := false;
    }
  }

  /** A miss followed by its fetch, then a second load on the same day: the
      second load is a hit that shows the fetched verse and sends nothing. */
  method LoadTwiceSameDay(storage: Storage, today: string, outcome: InvokeOutcome)
    returns (first: Option<DailyVerseRequest>, second: Option<DailyVerseRequest>, shown: Option<DailyVerse>)
    requires !CacheHit(storage, today)
    ensures first == Some(FetchRequest(storage, today))
    ensures second == None && shown == Some(FetchedVerse(outcome))
  {
    var page := new DailyVerseHook(storage);
    first := page.LoadVerse(today, DecodeVerse);
    page.ResumeLoad(today, outcome, 2);
    var next := new DailyVerseHook(page.storage);
    DecodeVerseReadsBack(FetchedVerse(outcome));
    CachedVerseIsShown(storage, today, FetchedVerse(outcome), DecodeVerse);
    second := next.LoadVerse(today, DecodeVerse);
    shown := next.verse;
  }
}
