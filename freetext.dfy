/** The free-text screen (src/components/FreeTextInput.tsx): the keyword
    classifier that turns what the user wrote into mood ids, the selection of
    at most three verses for those moods, and the fallback to the default
    verses when nothing matches. */
module FreeText {
  import opened Wrappers
  import opened Seqs
  import opened Text
  import opened Catalog

  /** `keywordMappings`: each mood id with its keywords, in declaration order
      (the order `Object.entries` lists them in). */
  const KeywordMappings: seq<(string, seq<string>)> := [
    ("anxious", ["anxious", "anxiety", "worried", "worry", "nervous", "stress", "stressed", "panic", "uneasy"]),
    ("sad", ["sad", "depressed", "down", "unhappy", "crying", "tears", "grief", "mourning", "heartbroken", "sorrow"]),
    ("angry", ["angry", "mad", "furious", "frustrated", "annoyed", "irritated", "rage", "upset"]),
    ("lonely", ["lonely", "alone", "isolated", "abandoned", "forgotten", "no one", "nobody"]),
    ("fearful", ["afraid", "fear", "scared", "terrified", "frightened", "dread", "terror"]),
    ("grateful", ["grateful", "thankful", "blessed", "appreciate", "gratitude"]),
    ("hopeful", ["hopeful", "hope", "optimistic", "looking forward", "excited"]),
    ("tired", ["tired", "exhausted", "weary", "drained", "burnt out", "burnout", "fatigued", "sleepy"]),
    ("sick", ["sick", "ill", "unwell", "disease", "health", "healing"]),
    ("restless", ["restless", "cant sleep", "can't sleep", "insomnia", "agitated"]),
    ("weak", ["weak", "powerless", "helpless", "feeble", "frail"]),
    ("in-pain", ["pain", "hurting", "suffering", "ache", "hurt"]),
    ("confused", ["confused", "lost", "uncertain", "unsure", "don't know", "dont know", "direction"]),
    ("overwhelmed", ["overwhelmed", "too much", "cant handle", "can't handle", "drowning", "swamped"]),
    ("doubtful", ["doubt", "doubtful", "questioning", "unsure", "faith", "believe"]),
    ("unfocused", ["unfocused", "distracted", "cant focus", "can't focus", "scattered", "mind wandering"]),
    ("discouraged", ["discouraged", "giving up", "hopeless", "defeated", "failed", "failure"]),
    ("seeking-wisdom", ["wisdom", "guidance", "direction", "decision", "advice", "what should i do"])
  ]

  /** `defaultVerses`: the verses offered when no keyword matches. */
  const DefaultVerses: seq<Verse> := [
    Verse("Romans 8:28", []),
    Verse("Psalm 46:1", []),
    Verse("Isaiah 40:31", [])
  ]

  /** Some keyword of `keywords` occurs in `lowerText`. */
  predicate AnyOccurs(keywords: seq<string>, lowerText: string)
  {
    exists k | 0 <= k < |keywords| :: Contains(lowerText, keywords[k])
  }

  /** The mood ids of `table`, in table order, that have a keyword occurring
      in `lowerText`. */
  function MatchedMoods(table: seq<(string, seq<string>)>, lowerText: string): seq<string>
  {
    if table == [] then []
    else
      var last := table[|table| - 1];
      MatchedMoods(table[..|table| - 1], lowerText) + (if AnyOccurs(last.1, lowerText) then [last.0] else [])
  }

  /** `set.add(x)`: a JavaScript Set keeps its elements in insertion order and
      ignores an element it already holds. */
  function SetAdd(s: seq<string>, x: string): (r: seq<string>)
    ensures x in r && forall y | y in s :: y in r
    ensures forall y | y in r :: y == x || y in s
    ensures NoDup(s) ==> NoDup(r)
  {
    if x in s then s else s + [x]
  }

  /** No two entries of the table have the same mood id. */
  predicate DistinctKeys(table: seq<(string, seq<string>)>)
  {
    forall i, j :: 0 <= i < j < |table| ==> table[i].0 != table[j].0
  }

  /** A mood is matched exactly when one of its keywords occurs in the text. */
  lemma {:induction false} MatchedMoodsIff(table: seq<(string, seq<string>)>, lowerText: string, m: string)
    ensures m in MatchedMoods(table, lowerText)
        <==> exists i | 0 <= i < |table| :: table[i].0 == m && AnyOccurs(table[i].1, lowerText)
  {
    if table != [] {
      var init := table[..|table| - 1];
      MatchedMoodsIff(init, lowerText, m);
      assert forall i | 0 <= i < |init| :: init[i] == table[i];
    }
  }

  /** Matched moods are listed once each when the table's mood ids are distinct. */
  lemma {:induction false} MatchedMoodsNoDup(table: seq<(string, seq<string>)>, lowerText: string)
    requires DistinctKeys(table)
    ensures NoDup(MatchedMoods(table, lowerText))
  {
    if table != [] {
      var init := table[..|table| - 1];
      var last := table[|table| - 1];
      assert DistinctKeys(init) by {
        assert forall i | 0 <= i < |init| :: init[i] == table[i];
      }
      MatchedMoodsNoDup(init, lowerText);
      if AnyOccurs(last.1, lowerText) {
        MatchedMoodsIff(init, lowerText, last.0);
        assert forall i | 0 <= i < |init| :: init[i].0 != last.0 by {
          forall i | 0 <= i < |init|
            ensures init[i].0 != last.0
          {
            assert init[i] == table[i];
          }
        }
        SnocNoDup(MatchedMoods(init, lowerText), last.0);
      }
    }
  }

  /** The keyword table has one entry per catalog mood, in catalog order, so
      its mood ids are distinct and every matched mood is a catalog mood. */
  lemma KeywordTableFollowsCatalog()
    ensures |KeywordMappings| == |Moods|
    ensures forall i :: 0 <= i < |KeywordMappings| ==> KeywordMappings[i].0 == Moods[i].id
    ensures DistinctKeys(KeywordMappings)
  {
    MoodIdsInOrder();
    KeywordIdsInOrder();
    MoodIdsDistinct();
  }

  /** The keyword table's ids are MoodIdList, in order. */
  lemma KeywordIdsInOrder()
    ensures |KeywordMappings| == |MoodIdList|
    ensures forall i :: 0 <= i < |KeywordMappings| ==> KeywordMappings[i].0 == MoodIdList[i]
  {
  }

  /** `findRelevantMoods(text)`: the mood ids, in table order, with a keyword
      that occurs in the lower-cased text. */
  method FindRelevantMoods(text: string) returns (moods: seq<string>)
    ensures moods == MatchedMoods(KeywordMappings, ToLower(text))
  {
    KeywordTableFollowsCatalog();
    moods := ScanKeywords(KeywordMappings, text);
  }

  /** The body of findRelevantMoods over a keyword table: for each entry, in
      order, and each of its keywords, the entry's mood is added to the found
      set when the keyword occurs in the lower-cased text. */
  method ScanKeywords(table: seq<(string, seq<string>)>, text: string) returns (moods: seq<string>)
    requires DistinctKeys(table)
    ensures moods == MatchedMoods(table, ToLower(text))
  {
    var lowerText := ToLower(text);
    moods := [];
    var i := 0;
    while i < |table|
      invariant i <= |table|
      invariant moods == MatchedMoods(table[..i], lowerText)
    {
      var mood, keywords := table[i].0, table[i].1;
      var before := moods;
      var j := 0;
      while j < |keywords|
        invariant j <= |keywords|
        invariant moods == if AnyOccurs(keywords[..j], lowerText) then SetAdd(before, mood) else before
      {
        KeywordStep(keywords, j, lowerText);
        if Contains(lowerText, keywords[j]) {
          moods := SetAdd(moods, mood);
        }
        j := j + 1;
      }
      assert keywords[..j] == keywords;
      TableStep(table, i, lowerText);
      i := i + 1;
    }
    assert table[..i] == table;
  }

  /** One more keyword: some keyword of the longer prefix occurs iff one of
      the shorter prefix does or the new one does. */
  lemma KeywordStep(keywords: seq<string>, j: nat, lowerText: string)
    requires j < |keywords|
    ensures AnyOccurs(keywords[..j + 1], lowerText)
      <==> AnyOccurs(keywords[..j], lowerText) || Contains(lowerText, keywords[j])
  {
    assert keywords[..j + 1][j] == keywords[j];
    assert forall k | 0 <= k < j :: keywords[..j + 1][k] == keywords[..j][k];
  }

  /** One more table entry: its mood is new, and it is appended when one of
      its keywords occurs. */
  lemma TableStep(table: seq<(string, seq<string>)>, i: nat, lowerText: string)
    requires DistinctKeys(table) && i < |table|
    ensures table[i].0 !in MatchedMoods(table[..i], lowerText)
    ensures MatchedMoods(table[..i + 1], lowerText)
      == MatchedMoods(table[..i], lowerText) + (if AnyOccurs(table[i].1, lowerText) then [table[i].0] else [])
  {
    assert table[..i + 1][..i] == table[..i];
    MatchedMoodsIff(table[..i], lowerText, table[i].0);
    assert forall k | 0 <= k < i :: table[..i][k] == table[k];
  }

  /** What findRelevantMoods promises: exactly the moods with a keyword in the
      lower-cased text, each once, and all of them catalog moods. */
  lemma FindRelevantMoodsSpec(text: string, m: string)
    ensures m in MatchedMoods(KeywordMappings, ToLower(text))
        <==> exists i | 0 <= i < |KeywordMappings| ::
               KeywordMappings[i].0 == m && AnyOccurs(KeywordMappings[i].1, ToLower(text))
    ensures NoDup(MatchedMoods(KeywordMappings, ToLower(text)))
    ensures m in MatchedMoods(KeywordMappings, ToLower(text)) ==> IsMoodId(m)
  {
    KeywordTableFollowsCatalog();
    MatchedMoodsIff(KeywordMappings, ToLower(text), m);
    MatchedMoodsNoDup(KeywordMappings, ToLower(text));
    if m in MatchedMoods(KeywordMappings, ToLower(text)) {
      var i :| 0 <= i < |KeywordMappings| && KeywordMappings[i].0 == m && AnyOccurs(KeywordMappings[i].1, ToLower(text));
      assert Moods[i].id == m;
    }
  }

  /** Matching ignores case: lower-casing the text first changes nothing. */
  lemma MatchingIgnoresCase(text: string)
    ensures MatchedMoods(KeywordMappings, ToLower(ToLower(text))) == MatchedMoods(KeywordMappings, ToLower(text))
  {
    ToLowerIdempotent(text);
  }

  /** Matching is by substring, not by word: "hopeless", in any case, contains the keyword
      "hope" of hopeful as well as the keyword "hopeless" of discouraged. */
  lemma HopelessMatchesTwoMoods(text: string)
    requires ToLower(text) == "hopeless"
    ensures "hopeful" in MatchedMoods(KeywordMappings, ToLower(text))
    ensures "discouraged" in MatchedMoods(KeywordMappings, ToLower(text))
  {
    var t := ToLower(text);
    WholeTextMatches(KeywordMappings, t, 6, 1);
    WholeTextMatches(KeywordMappings, t, 16, 2);
  }

  /** "direction", in any case, is a keyword of both confused and seeking-wisdom. */
  lemma DirectionMatchesTwoMoods(text: string)
    requires ToLower(text) == "direction"
    ensures "confused" in MatchedMoods(KeywordMappings, ToLower(text))
    ensures "seeking-wisdom" in MatchedMoods(KeywordMappings, ToLower(text))
  {
    var t := ToLower(text);
    WholeTextMatches(KeywordMappings, t, 12, 6);
    WholeTextMatches(KeywordMappings, t, 17, 2);
  }

  /** A text that begins with one of a mood's keywords matches that mood. */
  lemma WholeTextMatches(table: seq<(string, seq<string>)>, lowerText: string, i: nat, j: nat)
    requires i < |table| && j < |table[i].1|
    requires OccursAt(lowerText, table[i].1[j], 0)
    ensures table[i].0 in MatchedMoods(table, lowerText)
  {
    assert Contains(lowerText, table[i].1[j]);
    MatchedMoodsIff(table, lowerText, table[i].0);
  }

  /** The test `verse.moodIds.some(moodId => moodIds.includes(moodId))`. */
  function SharesMood(moodIds: seq<string>): Verse -> bool
  {
    (v: Verse) => exists t | t in v.moodIds :: t in moodIds
  }

  /** The catalog verses that share a mood with `moodIds`, in catalog order. */
  function MatchingVerses(moodIds: seq<string>): seq<Verse>
  {
    Filter(SharesMood(moodIds), Verses)
  }

  /** `getVersesForMoods(moodIds)`: the first three of the matching verses
      after the random sort, whose choices `picks` stands for (Shuffle). */
  function GetVersesForMoods(moodIds: seq<string>, picks: seq<nat>): (r: seq<Verse>)
    ensures |r| == Min(3, |MatchingVerses(moodIds)|)
    ensures forall v | v in r :: v in Verses && SharesMood(moodIds)(v)
    ensures NoDup(r)
  {
    VersesDistinct();
    DrawFromCatalog(Verses, SharesMood(moodIds), picks, 3);
    Take(Shuffle(MatchingVerses(moodIds), picks), 3)
  }

  /** At most `n` elements of a catalog without duplicates, drawn in random
      order from those that pass `p`: each passes, and none repeats. */
  lemma DrawFromCatalog<T>(catalog: seq<T>, p: T -> bool, picks: seq<nat>, n: nat)
    requires NoDup(catalog)
    ensures |Take(Shuffle(Filter(p, catalog), picks), n)| == Min(n, |Filter(p, catalog)|)
    ensures forall v | v in Take(Shuffle(Filter(p, catalog), picks), n) :: v in catalog && p(v)
    ensures NoDup(Take(Shuffle(Filter(p, catalog), picks), n))
  {
    var matched := Filter(p, catalog);
    var shuffled := Shuffle(matched, picks);
    FilterNoDup(p, catalog);
    PermutationNoDup(matched, shuffled);
    PrefixNoDup(shuffled, Min(n, |shuffled|));
    forall v | v in Take(shuffled, n)
      ensures v in matched
    {
      assert v in shuffled;
      assert v in multiset(shuffled);
    }
  }

  /** The random sort can leave the matching verses in any order, so any three
      of them (or all, when there are fewer) can be the answer. */
  lemma AnyOrderCanBeDrawn(moodIds: seq<string>, order: seq<Verse>) returns (picks: seq<nat>)
    requires multiset(order) == multiset(MatchingVerses(moodIds))
    ensures GetVersesForMoods(moodIds, picks) == Take(order, 3)
  {
    picks := ShuffleReachesEveryOrder(MatchingVerses(moodIds), order);
  }

  /** A list of mood ids that holds a catalog mood gets between one and three
      verses. */
  lemma CatalogMoodGetsVerses(moodIds: seq<string>, m: string, picks: seq<nat>)
    requires m in moodIds && IsMoodId(m)
    ensures 1 <= |GetVersesForMoods(moodIds, picks)| <= 3
  {
    MoodHasVerses(m);
    MoodVersesAreMatched(moodIds, m);
    DrawIsNotEmpty(moodIds, picks);
  }

  /** Some matching verse means a draw of one to three verses. */
  lemma DrawIsNotEmpty(moodIds: seq<string>, picks: seq<nat>)
    requires MatchingVerses(moodIds) != []
    ensures 1 <= |GetVersesForMoods(moodIds, picks)| <= 3
  {
    DrawnFromMatching(moodIds, picks);
    ShuffledPrefixIsNotEmpty(MatchingVerses(moodIds), picks);
  }

  /** `getVersesForMoods` spelled out: the first three of the shuffled matching verses. */
  lemma DrawnFromMatching(moodIds: seq<string>, picks: seq<nat>)
    ensures GetVersesForMoods(moodIds, picks) == Take(Shuffle(MatchingVerses(moodIds), picks), 3)
  {
  }

  /** The first three of any shuffle of a non-empty list are one to three elements. */
  lemma ShuffledPrefixIsNotEmpty(s: seq<Verse>, picks: seq<nat>)
    requires s != []
    ensures 1 <= |Take(Shuffle(s, picks), 3)| <= 3
  {
  }

  /** The verses of a listed mood are among the matching verses, so there is
      at least one of those. */
  lemma MoodVersesAreMatched(moodIds: seq<string>, m: string)
    requires m in moodIds && GetVersesForMood(m) != []
    ensures MatchingVerses(moodIds) != []
  {
    MoodVersesAreFiltered(m);
    SharedMoodIsMatched(Verses, moodIds, m);
    MatchingIsFiltered(moodIds);
  }

  /** `getVersesForMood` is the catalog filtered by the tag. */
  lemma MoodVersesAreFiltered(m: string)
    requires GetVersesForMood(m) != []
    ensures Filter(TaggedWith(m), Verses) != []
  {
  }

  /** The matching verses are the catalog filtered by `SharesMood`. */
  lemma MatchingIsFiltered(moodIds: seq<string>)
    requires Filter(SharesMood(moodIds), Verses) != []
    ensures MatchingVerses(moodIds) != []
  {
  }

  /** Over any catalog: a verse tagged with a listed mood passes the filter. */
  lemma SharedMoodIsMatched(catalog: seq<Verse>, moodIds: seq<string>, m: string)
    requires Filter(TaggedWith(m), catalog) != [] && m in moodIds
    ensures Filter(SharesMood(moodIds), catalog) != []
  {
    var v := Filter(TaggedWith(m), catalog)[0];
    assert v in Filter(TaggedWith(m), catalog);
    assert SharesMood(moodIds)(v);
    assert v in Filter(SharesMood(moodIds), catalog);
  }

  /** `defaultVerses.sort(() => Math.random() - 0.5)`: the array is reordered in
      place; `swaps` stands for the random choices. */
  method SortRandomly(a: array<Verse>, swaps: seq<nat>)
    modifies a
    ensures a[..] == SwapShuffle(old(a[..]), swaps, 0)
  {
    var i := 0;
    while i < a.Length
      invariant 0 <= i <= a.Length
      invariant SwapShuffle(a[..], swaps, i) == SwapShuffle(old(a[..]), swaps, 0)
    {
      var k := SwapPartner(swaps, i, a.Length);
      ghost var before := a[..];
      a[i], a[k] := a[k], a[i];
      assert a[..] == Swap(before, i, k);
      i := i + 1;
    }
  }

  /** The fallback keeps two of the default verses: after any reordering of
      them, the first two are two different default verses. */
  lemma FallbackDrawsDefaults(order: seq<Verse>)
    requires multiset(order) == multiset(DefaultVerses)
    ensures |Take(order, 2)| == 2
    ensures forall v | v in Take(order, 2) :: v in DefaultVerses
    ensures NoDup(Take(order, 2))
  {
    assert |order| == 3 by {
      assert |multiset(order)| == |multiset(DefaultVerses)|;
    }
    forall v | v in Take(order, 2)
      ensures v in DefaultVerses
    {
      assert v in order;
      assert v in multiset(order);
    }
    assert NoDup(DefaultVerses);
    PermutationNoDup(DefaultVerses, order);
    PrefixNoDup(order, 2);
  }

  /** The free-text screen: the text being typed, whether a search is under
      way, and the module-level `defaultVerses` array that every instance
      shares and reorders. */
  class FreeTextInput {
    var text: string
    var isProcessing: bool
    const defaults: array<Verse>

    /** `defaults` holds the default verses, in some order. */
    predicate Valid()
      reads defaults
    {
      multiset(defaults[..]) == multiset(DefaultVerses)
    }

    constructor(defaults: array<Verse>)
      requires multiset(defaults[..]) == multiset(DefaultVerses)
      ensures Valid()
      ensures text == "" && !isProcessing && this.defaults == defaults
    {
      this.text := "";
      this.isProcessing := false;
      this.defaults := defaults;
    }

    /** The textarea's `onChange`. */
    method SetText(t: string)
      modifies this
      ensures text == t && isProcessing == old(isProcessing)
    {
      text := t;
    }

    /** The "Find Verses" button is enabled. */
    predicate CanSubmit()
      reads this
    {
      !IsBlank(text) && !isProcessing
    }

    /** `handleSubmit`: blank text is ignored; otherwise the search is marked
        as under way and the timer is armed with the current text, which is
        returned. */
    method HandleSubmit() returns (armed: Option<string>)
      modifies this
      ensures text == old(text)
      ensures IsBlank(old(text)) ==> armed == None && isProcessing == old(isProcessing)
      ensures !IsBlank(old(text)) ==> armed == Some(old(text)) && isProcessing
    {
      if IsBlank(text) {
        return None;
      }
      isProcessing := true;
      armed := Some(text);
    }

    /** The timer callback of `handleSubmit` for the text it captured: the
        verses it passes to `onVersesFound` (SelectVerses), after which the
        search is no longer under way. */
    method TimerFires(captured: string, picks: seq<nat>, swaps: seq<nat>) returns (found: seq<Verse>)
      requires Valid()
      modifies this, defaults
      ensures Valid()
      ensures text == old(text) && !isProcessing
      ensures MatchedMoods(KeywordMappings, ToLower(captured)) != [] ==>
        found == GetVersesForMoods(MatchedMoods(KeywordMappings, ToLower(captured)), picks)
        && defaults[..] == old(defaults[..])
      ensures MatchedMoods(KeywordMappings, ToLower(captured)) == [] ==>
        found == Take(defaults[..], 2)
    {
      found := SelectVerses(captured, picks, swaps);
      isProcessing := false;
    }

    /** The verses for the matched moods when some mood matches, otherwise
        the first two default verses after reordering the shared array in
        place; `picks` and `swaps` stand for the random choices of the two
        sorts. */
    method SelectVerses(captured: string, picks: seq<nat>, swaps: seq<nat>) returns (found: seq<Verse>)
      requires Valid()
      modifies defaults
      ensures Valid()
      ensures MatchedMoods(KeywordMappings, ToLower(captured)) != [] ==>
        found == GetVersesForMoods(MatchedMoods(KeywordMappings, ToLower(captured)), picks)
        && defaults[..] == old(defaults[..])
      ensures MatchedMoods(KeywordMappings, ToLower(captured)) == [] ==>
        found == Take(defaults[..], 2)
    {
      var moods := FindRelevantMoods(captured);
      if moods != [] {
        found := GetVersesForMoods(moods, picks);
      } else {
        found := DrawDefaults(swaps);
      }
    }

    /** The fallback branch: `defaultVerses.sort(...).slice(0, 2)`. */
    method DrawDefaults(swaps: seq<nat>) returns (found: seq<Verse>)
      requires Valid()
      modifies defaults
      ensures Valid()
      ensures found == Take(defaults[..], 2)
    {
      SwapShuffleMultiset(defaults[..], swaps, 0);
      SortRandomly(defaults, swaps);
      found := Take(defaults[..], 2);
    }
  }
}
