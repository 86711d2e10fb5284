/** What the verse screen (src/components/VerseDisplay.tsx) shows for the
    state of its pager. */
module VerseDisplay {
  import opened Wrappers
  import opened Catalog
  import opened Pager

  /** The "(current/total)" counter of a next-verse button. */
  datatype Counter = Counter(current: nat, total: nat)

  /** The two things the screen can show: the "No verses found" message, or
      the card with the mood's label as title, the verse on show, and the
      "Another Verse" button when there is more than one verse. */
  datatype Screen =
    | NoVerses
    | VerseCard(title: Option<string>, verse: Verse, another: Option<Counter>)

  /** The screen for the verses of `moodId` with `currentIndex` on show. */
  function Render(moodId: string, verses: seq<Verse>, currentIndex: nat): (s: Screen)
    requires verses == [] || currentIndex < |verses|
    ensures s.NoVerses? <==> verses == []
    ensures s.VerseCard? ==> s.verse == verses[currentIndex] && s.title == MoodLabel(moodId)
    ensures s.VerseCard? ==> (s.another.Some? <==> |verses| > 1)
    ensures s.VerseCard? && s.another.Some? ==>
      1 <= s.another.value.current <= s.another.value.total == |verses|
  {
    if |verses| == 0 then NoVerses
    else
      VerseCard(MoodLabel(moodId), verses[currentIndex],
        if |verses| > 1 then Some(Counter(currentIndex + 1, |verses|)) else None)
  }

  /** The screen of a pager in a valid state. */
  function View(p: VersePager): (s: Screen)
    requires p.Valid()
    reads p
    ensures s.NoVerses? <==> p.verses == []
  {
    Render(p.moodId, p.verses, p.currentIndex)
  }

  /** The card with a title and the first of `verses` on show. */
  predicate ShowsFirstVerse(moodId: string, verses: seq<Verse>)
  {
    && verses != []
    && Render(moodId, verses, 0).VerseCard?
    && Render(moodId, verses, 0).verse == verses[0]
    && Render(moodId, verses, 0).title.Some?
  }

  /** A catalog mood always gets a verse card, first showing its first verse. */
  lemma CatalogMoodShowsCard(moodId: string)
    requires IsMoodId(moodId)
    ensures ShowsFirstVerse(moodId, GetVersesForMood(moodId))
  {
    MoodHasVerses(moodId);
    CatalogMoodHasLabel(moodId);
    FirstVerseShown(moodId, GetVersesForMood(moodId));
  }

  /** A catalog mood has a label. */
  lemma CatalogMoodHasLabel(moodId: string)
    requires IsMoodId(moodId)
    ensures MoodLabel(moodId).Some?
  {
  }

  /** Any non-empty list under a labelled mood shows its first verse. */
  lemma FirstVerseShown(moodId: string, verses: seq<Verse>)
    requires verses != [] && MoodLabel(moodId).Some?
    ensures ShowsFirstVerse(moodId, verses)
  {
  }

  /** An id that is no catalog mood gets the "No verses found" message. */
  lemma UnknownMoodShowsMessage(moodId: string)
    requires !IsMoodId(moodId)
    ensures GetVersesForMood(moodId) == []
    ensures Render(moodId, GetVersesForMood(moodId), 0) == NoVerses
  {
    UnknownMoodHasNoVerses(moodId);
  }

  /** The counter advances with the verse: after pressing the button the
      counter names the next verse, and after the last it names the first. */
  lemma CounterFollowsNext(moodId: string, verses: seq<Verse>, currentIndex: nat)
    requires 1 < |verses| && currentIndex < |verses|
    ensures Render(moodId, verses, Next(currentIndex, |verses|)).another
      == Some(Counter(if currentIndex + 1 == |verses| then 1 else currentIndex + 2, |verses|))
  {
  }
}
