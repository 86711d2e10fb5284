/** The static catalog of moods and of the Bible verses tagged with them
    (src/data/bibleVerses.ts), and its two lookups. */
module Catalog {
  import opened Seqs

  datatype Category = Emotional | Physical | Mental

  /** One selectable mood; `labelText` is the label shown on its button. */
  datatype Mood = Mood(id: string, labelText: string, category: Category)

  /** One verse with the ids of the moods it is offered for.  Its text is
      looked up by its reference (TextOf). */
  datatype Verse = Verse(reference: string, moodIds: seq<string>)
  {
    function Text(): string
    {
      TextOf(reference)
    }
  }

  /** The emotional moods. */
  const EmotionalMoods: seq<Mood> := [
    Mood("anxious", "Anxious", Emotional),
    Mood("sad", "Sad", Emotional),
    Mood("angry", "Angry", Emotional),
    Mood("lonely", "Lonely", Emotional),
    Mood("fearful", "Fearful", Emotional),
    Mood("grateful", "Grateful", Emotional),
    Mood("hopeful", "Hopeful", Emotional)
  ]

  /** The physical moods. */
  const PhysicalMoods: seq<Mood> := [
    Mood("tired", "Tired", Physical),
    Mood("sick", "Sick", Physical),
    Mood("restless", "Restless", Physical),
    Mood("weak", "Weak", Physical),
    Mood("in-pain", "In Pain", Physical)
  ]

  /** The mental moods. */
  const MentalMoods: seq<Mood> := [
    Mood("confused", "Confused", Mental),
    Mood("overwhelmed", "Overwhelmed", Mental),
    Mood("doubtful", "Doubtful", Mental),
    Mood("unfocused", "Unfocused", Mental),
    Mood("discouraged", "Discouraged", Mental),
    Mood("seeking-wisdom", "Seeking Wisdom", Mental)
  ]

  /** `moods`: the three groups in this order. */
  const Moods: seq<Mood> := EmotionalMoods + PhysicalMoods + MentalMoods

  /** `verses`: the catalog, in its order. */
  const Verses: seq<Verse> := [
    Verse("Philippians 4:6-7 (NLT)", ["anxious", "overwhelmed"]),
    Verse("1 Peter 5:7 (NLT)", ["anxious", "fearful"]),
    Verse("Matthew 6:34 (NLT)", ["anxious", "overwhelmed"]),
    Verse("Psalm 34:18 (NLT)", ["sad", "lonely"]),
    Verse("Revelation 21:4 (NLT)", ["sad", "in-pain"]),
    Verse("Psalm 30:5 (NLT)", ["sad", "hopeful"]),
    Verse("James 1:19-20 (NLT)", ["angry"]),
    Verse("Ephesians 4:26-27 (NLT)", ["angry"]),
    Verse("Deuteronomy 31:6 (NLT)", ["lonely", "fearful"]),
    Verse("Psalm 23:4 (NLT)", ["lonely", "fearful"]),
    Verse("Isaiah 41:10 (NLT)", ["fearful", "weak"]),
    Verse("2 Timothy 1:7 (NLT)", ["fearful", "weak"]),
    Verse("1 Thessalonians 5:18 (NLT)", ["grateful", "hopeful"]),
    Verse("Psalm 107:1 (NLT)", ["grateful"]),
    Verse("Jeremiah 29:11 (NLT)", ["hopeful", "discouraged"]),
    Verse("Romans 15:13 (NLT)", ["hopeful"]),
    Verse("Matthew 11:28-30 (NLT)", ["tired", "overwhelmed"]),
    Verse("Isaiah 40:31 (NLT)", ["tired", "weak"]),
    Verse("James 5:15 (NLT)", ["sick", "in-pain"]),
    Verse("Psalm 103:2-3 (NLT)", ["sick"]),
    Verse("Psalm 46:10 (NLT)", ["restless", "anxious"]),
    Verse("2 Corinthians 12:9 (NLT)", ["weak", "discouraged"]),
    Verse("Psalm 147:3 (NLT)", ["in-pain", "sad"]),
    Verse("Proverbs 3:5-6 (NLT)", ["confused", "doubtful"]),
    Verse("James 1:5 (NLT)", ["confused", "seeking-wisdom"]),
    Verse("Psalm 61:2 (NLT)", ["overwhelmed"]),
    Verse("Mark 9:24 (NLT)", ["doubtful"]),
    Verse("Hebrews 11:1 (NLT)", ["doubtful", "hopeful"]),
    Verse("Colossians 3:2 (NLT)", ["unfocused"]),
    Verse("Philippians 4:8 (NLT)", ["unfocused", "anxious"]),
    Verse("Joshua 1:9 (NLT)", ["discouraged", "fearful"]),
    Verse("Galatians 6:9 (NLT)", ["discouraged", "tired"]),
    Verse("Proverbs 2:6 (NLT)", ["seeking-wisdom"]),
    Verse("Psalm 119:105 (NLT)", ["seeking-wisdom", "confused"])
  ]

  /** The text of the verse with the given reference: the texts of the
      catalog verses and of the three default verses of the free-text screen
      (src/components/FreeTextInput.tsx); "" for any other reference. */
  function TextOf(reference: string): string
  {
    if reference == "Philippians 4:6-7 (NLT)" then
      "Don't worry about anything; instead, pray about everything. Tell God what you need, and thank him for all he has done. Then you will experience God's peace, which exceeds anything we can understand. His peace will guard your hearts and minds as you live in Christ Jesus."
    else if reference == "1 Peter 5:7 (NLT)" then
      "Give all your worries and cares to God, for he cares about you."
    else if reference == "Matthew 6:34 (NLT)" then
      "So don't worry about tomorrow, for tomorrow will bring its own worries. Today's trouble is enough for today."
    else if reference == "Psalm 34:18 (NLT)" then
      "The Lord is close to the brokenhearted; he rescues those whose spirits are crushed."
    else if reference == "Revelation 21:4 (NLT)" then
      "He will wipe every tear from their eyes, and there will be no more death or sorrow or crying or pain. All these things are gone forever."
    else if reference == "Psalm 30:5 (NLT)" then
      "Weeping may last through the night, but joy comes with the morning."
    else if reference == "James 1:19-20 (NLT)" then
      "Understand this, my dear brothers and sisters: You must all be quick to listen, slow to speak, and slow to get angry. Human anger does not produce the righteousness God desires."
    else if reference == "Ephesians 4:26-27 (NLT)" then
      "And don't sin by letting anger control you. Don't let the sun go down while you are still angry, for anger gives a foothold to the devil."
    else if reference == "Deuteronomy 31:6 (NLT)" then
      "So be strong and courageous! Do not be afraid and do not panic before them. For the Lord your God will personally go ahead of you. He will neither fail you nor abandon you."
    else if reference == "Psalm 23:4 (NLT)" then
      "Even when I walk through the darkest valley, I will not be afraid, for you are close beside me. Your rod and your staff protect and comfort me."
    else if reference == "Isaiah 41:10 (NLT)" then
      "Don't be afraid, for I am with you. Don't be discouraged, for I am your God. I will strengthen you and help you. I will hold you up with my victorious right hand."
    else if reference == "2 Timothy 1:7 (NLT)" then
      "For God has not given us a spirit of fear and timidity, but of power, love, and self-discipline."
    else if reference == "1 Thessalonians 5:18 (NLT)" then
      "Be thankful in all circumstances, for this is God's will for you who belong to Christ Jesus."
    else if reference == "Psalm 107:1 (NLT)" then
      "Give thanks to the Lord, for he is good! His faithful love endures forever."
    else if reference == "Jeremiah 29:11 (NLT)" then
      "\"For I know the plans I have for you,\" says the Lord. \"They are plans for good and not for disaster, to give you a future and a hope.\""
    else if reference == "Romans 15:13 (NLT)" then
      "I pray that God, the source of hope, will fill you completely with joy and peace because you trust in him. Then you will overflow with confident hope through the power of the Holy Spirit."
    else if reference == "Matthew 11:28-30 (NLT)" then
      "Then Jesus said, \"Come to me, all of you who are weary and carry heavy burdens, and I will give you rest. Take my yoke upon you. Let me teach you, because I am humble and gentle at heart, and you will find rest for your souls.\""
    else if reference == "Isaiah 40:31 (NLT)" then
      "But those who trust in the Lord will find new strength. They will soar high on wings like eagles. They will run and not grow weary. They will walk and not faint."
    else if reference == "James 5:15 (NLT)" then
      "Such a prayer offered in faith will heal the sick, and the Lord will make you well. And if you have committed any sins, you will be forgiven."
    else if reference == "Psalm 103:2-3 (NLT)" then
      "Let all that I am praise the Lord; may I never forget the good things he does for me. He forgives all my sins and heals all my diseases."
    else if reference == "Psalm 46:10 (NLT)" then
      "\"Be still, and know that I am God! I will be honored by every nation. I will be honored throughout the world.\""
    else if reference == "2 Corinthians 12:9 (NLT)" then
      "Each time he said, \"My grace is all you need. My power works best in weakness.\" So now I am glad to boast about my weaknesses, so that the power of Christ can work through me."
    else if reference == "Psalm 147:3 (NLT)" then
      "He heals the brokenhearted and bandages their wounds."
    else if reference == "Proverbs 3:5-6 (NLT)" then
      "Trust in the Lord with all your heart; do not depend on your own understanding. Seek his will in all you do, and he will show you which path to take."
    else if reference == "James 1:5 (NLT)" then
      "If you need wisdom, ask our generous God, and he will give it to you. He will not rebuke you for asking."
    else if reference == "Psalm 61:2 (NLT)" then
      "From the ends of the earth, I cry to you for help when my heart is overwhelmed. Lead me to the towering rock of safety."
    else if reference == "Mark 9:24 (NLT)" then
      "The father instantly cried out, \"I do believe, but help me overcome my unbelief!\""
    else if reference == "Hebrews 11:1 (NLT)" then
      "Faith shows the reality of what we hope for; it is the evidence of things we cannot see."
    else if reference == "Colossians 3:2 (NLT)" then
      "Think about the things of heaven, not the things of earth."
    else if reference == "Philippians 4:8 (NLT)" then
      "And now, dear brothers and sisters, one final thing. Fix your thoughts on what is true, and honorable, and right, and pure, and lovely, and admirable. Think about things that are excellent and worthy of praise."
    else if reference == "Joshua 1:9 (NLT)" then
      "This is my command\U{00E2}\U{20AC}\U{201D}be strong and courageous! Do not be afraid or discouraged. For the Lord your God is with you wherever you go."
    else if reference == "Galatians 6:9 (NLT)" then
      "So let's not get tired of doing what is good. At just the right time we will reap a harvest of blessing if we don't give up."
    else if reference == "Proverbs 2:6 (NLT)" then
      "For the Lord grants wisdom! From his mouth come knowledge and understanding."
    else if reference == "Psalm 119:105 (NLT)" then
      "Your word is a lamp to guide my feet and a light for my path."
    else if reference == "Romans 8:28" then
      "And we know that in all things God works for the good of those who love him, who have been called according to his purpose."
    else if reference == "Psalm 46:1" then
      "God is our refuge and strength, an ever-present help in trouble."
    else if reference == "Isaiah 40:31" then
      "But those who hope in the Lord will renew their strength. They will soar on wings like eagles; they will run and not grow weary, they will walk and not be faint."
    else ""
  }

  /** `id` is the id of some mood of the catalog. */
  predicate IsMoodId(id: string)
  {
    exists i | 0 <= i < |Moods| :: Moods[i].id == id
  }

  /** The test `verse.moodIds.includes(moodId)`. */
  function TaggedWith(moodId: string): Verse -> bool
  {
    (v: Verse) => moodId in v.moodIds
  }

  /** The test `mood.category === category`. */
  function InCategory(category: Category): Mood -> bool
  {
    (m: Mood) => m.category == category
  }

  /** `getVersesForMood(moodId)`: the catalog verses tagged with `moodId`. */
  function GetVersesForMood(moodId: string): (r: seq<Verse>)
    ensures forall v | v in r :: v in Verses && moodId in v.moodIds
  {
    Filter(TaggedWith(moodId), Verses)
  }

  /** `getMoodsByCategory(category)`: the moods of that category. */
  function GetMoodsByCategory(category: Category): (r: seq<Mood>)
    ensures forall m | m in r :: m in Moods && m.category == category
    ensures forall m | m in Moods && m.category == category :: m in r
  {
    Filter(InCategory(category), Moods)
  }

  /** No catalog verse tagged with `moodId` is left out. */
  lemma VersesForMoodComplete(moodId: string)
    ensures forall j | 0 <= j < |Verses| && moodId in Verses[j].moodIds :: Verses[j] in GetVersesForMood(moodId)
  {
    forall j | 0 <= j < |Verses| && moodId in Verses[j].moodIds
      ensures Verses[j] in GetVersesForMood(moodId)
    {
      FilterKeepsAt(TaggedWith(moodId), Verses, j);
    }
  }

  /** The catalog has 18 moods and 34 verses. */
  lemma CatalogSizes()
    ensures |Moods| == 18 && |Verses| == 34
  {
  }

  /** No two moods share an id. */
  lemma MoodIdsDistinct()
    ensures forall i, j :: 0 <= i < j < |Moods| ==> Moods[i].id != Moods[j].id
  {
  }

  /** No verse is listed twice. */
  lemma VersesDistinct()
    ensures NoDup(Verses)
  {
    ReferencesUniqueBlock0();
    ReferencesUniqueBlock1();
    ReferencesUniqueBlock2();
    ReferencesUniqueBlock3();
    ReferencesUniqueBlock4();
    ReferencesUniqueBlock5();
    ReferencesUniqueBlock6();
    ReferencesUniqueBlock7();
    ReferencesUniqueBlock8();
    ReferencesUniqueBlock9();
    ReferencesUniqueBlock10();
    ReferencesUniqueBlock11();
    ReferencesUniqueBlock12();
    assert forall i, j :: 0 <= i < j < |Verses| ==> Verses[i].reference != Verses[j].reference;
  }

  /** The verses at positions `lo` up to `hi` have references that no later
      verse has. */
  predicate ReferencesUnique(lo: nat, hi: nat)
  {
    forall i, j :: lo <= i < hi && i < j < |Verses| ==> Verses[i].reference != Verses[j].reference
  }

  // The catalog's references are checked pairwise, a few rows at a time.

  lemma ReferencesUniqueBlock0()
    ensures ReferencesUnique(0, 1)
  {
  }

  lemma ReferencesUniqueBlock1()
    ensures ReferencesUnique(1, 2)
  {
  }

  lemma ReferencesUniqueBlock2()
    ensures ReferencesUnique(2, 4)
  {
  }

  lemma ReferencesUniqueBlock3()
    ensures ReferencesUnique(4, 6)
  {
  }

  lemma ReferencesUniqueBlock4()
    ensures ReferencesUnique(6, 8)
  {
  }

  lemma ReferencesUniqueBlock5()
    ensures ReferencesUnique(8, 10)
  {
  }

  lemma ReferencesUniqueBlock6()
    ensures ReferencesUnique(10, 12)
  {
  }

  lemma ReferencesUniqueBlock7()
    ensures ReferencesUnique(12, 14)
  {
  }

  lemma ReferencesUniqueBlock8()
    ensures ReferencesUnique(14, 16)
  {
  }

  lemma ReferencesUniqueBlock9()
    ensures ReferencesUnique(16, 18)
  {
  }

  lemma ReferencesUniqueBlock10()
    ensures ReferencesUnique(18, 21)
  {
  }

  lemma ReferencesUniqueBlock11()
    ensures ReferencesUnique(21, 25)
  {
  }

  lemma ReferencesUniqueBlock12()
    ensures ReferencesUnique(25, 34)
  {
  }

  /** The mood ids, in catalog order. */
  const MoodIdList: seq<string> := [
    "anxious", "sad", "angry", "lonely", "fearful", "grateful", "hopeful",
    "tired", "sick", "restless", "weak", "in-pain",
    "confused", "overwhelmed", "doubtful", "unfocused", "discouraged", "seeking-wisdom"
  ]

  /** The catalog's moods have the ids of MoodIdList, in that order. */
  lemma MoodIdsInOrder()
    ensures |Moods| == |MoodIdList|
    ensures forall i :: 0 <= i < |Moods| ==> Moods[i].id == MoodIdList[i]
  {
  }

  /** Every tag of every verse names a mood of the catalog. */
  lemma TagsNameMoods()
    ensures forall j, t :: 0 <= j < |Verses| && t in Verses[j].moodIds ==> IsMoodId(t)
  {
    TagsListedBlock0();
    TagsListedBlock1();
    TagsListedBlock2();
    TagsListedBlock3();
    assert forall j, t :: 0 <= j < |Verses| && t in Verses[j].moodIds ==> t in MoodIdList;
    MoodIdsInOrder();
    forall t | t in MoodIdList
      ensures IsMoodId(t)
    {
      var i :| 0 <= i < |MoodIdList| && MoodIdList[i] == t;
      assert Moods[i].id == t;
    }
  }

  /** The tags of the verses at positions `lo` up to `hi` are listed mood ids. */
  predicate TagsListed(lo: nat, hi: nat)
  {
    forall j, t :: lo <= j < hi && j < |Verses| && t in Verses[j].moodIds ==> t in MoodIdList
  }

  // The tags are checked a few verses at a time.

  lemma TagsListedBlock0()
    ensures TagsListed(0, 9)
  {
  }

  lemma TagsListedBlock1()
    ensures TagsListed(9, 18)
  {
  }

  lemma TagsListedBlock2()
    ensures TagsListed(18, 26)
  {
  }

  lemma TagsListedBlock3()
    ensures TagsListed(26, 34)
  {
  }

  /** A mood that tags the verse at position `j` has verses. */
  lemma HasVerse(moodId: string, j: nat)
    requires j < |Verses| && moodId in Verses[j].moodIds
    ensures GetVersesForMood(moodId) != []
  {
    FilterKeepsAt(TaggedWith(moodId), Verses, j);
  }

  /** Every mood of the catalog is offered at least one verse. */
  lemma EveryMoodHasVerses()
    ensures forall i :: 0 <= i < |Moods| ==> GetVersesForMood(Moods[i].id) != []
  {
    EmotionalMoodsHaveVerses();
    PhysicalMoodsHaveVerses();
    MentalMoodsHaveVerses();
    AllOfConcat((m: Mood) => GetVersesForMood(m.id) != [], EmotionalMoods, PhysicalMoods, MentalMoods);
  }

  /** The same, for a mood given by its id. */
  lemma MoodHasVerses(moodId: string)
    requires IsMoodId(moodId)
    ensures GetVersesForMood(moodId) != []
  {
    var i :| 0 <= i < |Moods| && Moods[i].id == moodId;
    EveryMoodHasVerses();
    assert GetVersesForMood(Moods[i].id) != [];
  }

  // Each list gives, for each mood of the group, the position of a verse tagged with it.

  lemma EmotionalMoodsHaveVerses()
    ensures forall i :: 0 <= i < |EmotionalMoods| ==> GetVersesForMood(EmotionalMoods[i].id) != []
  {
    GroupHasVerses(EmotionalMoods, [0, 3, 6, 3, 1, 12, 5]);
  }

  lemma PhysicalMoodsHaveVerses()
    ensures forall i :: 0 <= i < |PhysicalMoods| ==> GetVersesForMood(PhysicalMoods[i].id) != []
  {
    GroupHasVerses(PhysicalMoods, [16, 18, 20, 10, 4]);
  }

  lemma MentalMoodsHaveVerses()
    ensures forall i :: 0 <= i < |MentalMoods| ==> GetVersesForMood(MentalMoods[i].id) != []
  {
    GroupHasVerses(MentalMoods, [23, 0, 23, 28, 14, 24]);
  }

  /** A group of moods has verses when `first` gives, for each of its moods,
      the position of a verse tagged with it. */
  lemma GroupHasVerses(group: seq<Mood>, first: seq<nat>)
    requires |first| == |group|
    requires forall i :: 0 <= i < |group| ==> first[i] < |Verses| && group[i].id in Verses[first[i]].moodIds
    ensures forall i :: 0 <= i < |group| ==> GetVersesForMood(group[i].id) != []
  {
    forall i | 0 <= i < |group|
      ensures GetVersesForMood(group[i].id) != []
    {
      HasVerse(group[i].id, first[i]);
    }
  }

  /** A mood id that tags no verse yields no verses. */
  lemma UnusedMoodHasNoVerses(moodId: string)
    requires forall j :: 0 <= j < |Verses| ==> moodId !in Verses[j].moodIds
    ensures GetVersesForMood(moodId) == []
  {
    var p := TaggedWith(moodId);
    forall v | v in Verses
      ensures !p(v)
    {
      var j :| 0 <= j < |Verses| && Verses[j] == v;
    }
    FilterNone(p, Verses);
  }

  /** In particular an id that is not a mood of the catalog yields no verses. */
  lemma UnknownMoodHasNoVerses(moodId: string)
    requires !IsMoodId(moodId)
    ensures GetVersesForMood(moodId) == []
  {
    TagsNameMoods();
    UnusedMoodHasNoVerses(moodId);
  }

  /** The verses of a mood come in catalog order, each once. */
  lemma VersesForMoodInCatalogOrder(moodId: string)
    ensures IsSubsequence(GetVersesForMood(moodId), Verses)
    ensures NoDup(GetVersesForMood(moodId))
  {
    FilterIsSubsequence(TaggedWith(moodId), Verses);
    VersesDistinct();
    FilterNoDup(TaggedWith(moodId), Verses);
  }

  /** The moods a category lookup returns, as the catalog lists them. */
  function Group(category: Category): seq<Mood>
  {
    match category
    case Emotional => EmotionalMoods
    case Physical => PhysicalMoods
    case Mental => MentalMoods
  }

  /** Each category lookup returns exactly its group of the catalog, in
      catalog order. */
  lemma CategoriesPartitionMoods(c: Category)
    ensures GetMoodsByCategory(c) == Group(c)
  {
    assert forall k :: 0 <= k < |EmotionalMoods| ==> EmotionalMoods[k].category == Emotional;
    assert forall k :: 0 <= k < |PhysicalMoods| ==> PhysicalMoods[k].category == Physical;
    assert forall k :: 0 <= k < |MentalMoods| ==> MentalMoods[k].category == Mental;
    ByBlocks(EmotionalMoods, PhysicalMoods, MentalMoods, c);
  }

  /** The categories have 7, 5 and 6 moods and, taken in this order, give
      back the whole mood list. */
  lemma CategorySizes()
    ensures |GetMoodsByCategory(Emotional)| == 7
    ensures |GetMoodsByCategory(Physical)| == 5
    ensures |GetMoodsByCategory(Mental)| == 6
    ensures GetMoodsByCategory(Emotional) + GetMoodsByCategory(Physical) + GetMoodsByCategory(Mental) == Moods
  {
    CategoriesPartitionMoods(Emotional);
    CategoriesPartitionMoods(Physical);
    CategoriesPartitionMoods(Mental);
  }

  /** Filtering blocks of emotional, physical and mental moods, in this
      order, by category `c` keeps the block of category `c`. */
  lemma ByBlocks(e: seq<Mood>, p: seq<Mood>, m: seq<Mood>, c: Category)
    requires forall k :: 0 <= k < |e| ==> e[k].category == Emotional
    requires forall k :: 0 <= k < |p| ==> p[k].category == Physical
    requires forall k :: 0 <= k < |m| ==> m[k].category == Mental
    ensures Filter(InCategory(c), e + p + m) == match c
      case Emotional => e
      case Physical => p
      case Mental => m
  {
    FilterAppend(InCategory(c), e + p, m);
    FilterAppend(InCategory(c), e, p);
    var fe := Block(e, Emotional, c);
    var fp := Block(p, Physical, c);
    var fm := Block(m, Mental, c);
    assert Filter(InCategory(c), e + p + m) == fe + fp + fm;
    match c
    case Emotional => assert fe + fp + fm == e + [] + [] == e;
    case Physical => assert fe + fp + fm == [] + p + [] == p;
    case Mental => assert fe + fp + fm == [] + [] + m == m;
  }

  /** A block of moods that all have category `a`, filtered by category `c`. */
  lemma Block(block: seq<Mood>, a: Category, c: Category) returns (r: seq<Mood>)
    requires forall k :: 0 <= k < |block| ==> block[k].category == a
    ensures r == Filter(InCategory(c), block) && r == if a == c then block else []
  {
    r := Filter(InCategory(c), block);
    assert forall x | x in block :: x.category == a;
    if a == c {
      FilterAll(InCategory(c), block);
    } else {
      FilterNone(InCategory(c), block);
    }
  }
}
