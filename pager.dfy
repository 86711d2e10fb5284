/** The verse pager that both verse screens (src/components/VerseDisplay.tsx
    and src/components/IOSVerseDisplay.tsx) build on: the verses of one mood,
    the index of the one on show, and `handleNext`, which moves to the next
    verse and wraps around after the last. */
module Pager {
  import opened Wrappers
  import opened Catalog

  /** `(i + 1) % n`: the next index, back to 0 after the last. */
  function Next(i: nat, n: nat): (r: nat)
    requires n > 0
    ensures r < n
    ensures i + 1 < n ==> r == i + 1
    ensures i + 1 == n ==> r == 0
  {
    (i + 1) % n
  }

  /** The index after `k` presses of the next button, starting from `i`. */
  function Steps(i: nat, n: nat, k: nat): (r: nat)
    requires n > 0
    ensures k > 0 ==> r < n
  {
    if k == 0 then i else Next(Steps(i, n, k - 1), n)
  }

  /** From a valid index, fewer than `n` presses past the end of the list
      wrap around exactly once: the index advances by `k`, less `n` once it
      has gone past the last verse. */
  lemma {:induction false} StepsAdvance(i: nat, n: nat, k: nat)
    requires i < n && i + k < 2 * n
    ensures Steps(i, n, k) == if i + k < n then i + k else i + k - n
  {
    if k > 0 {
      StepsAdvance(i, n, k - 1);
    }
  }

  /** After `n` presses the index is back where it started. */
  lemma ReturnsAfterN(i: nat, n: nat)
    requires i < n
    ensures Steps(i, n, n) == i
  {
    StepsAdvance(i, n, n);
  }

  /** Every index is reached within fewer than `n` presses. */
  lemma VisitsEveryIndex(i: nat, n: nat, j: nat) returns (k: nat)
    requires i < n && j < n
    ensures k < n && Steps(i, n, k) == j
  {
    k := if i <= j then j - i else j + n - i;
    StepsAdvance(i, n, k);
  }

  /** Fewer than `n` presses never come back to an index already shown. */
  lemma NoRepeatWithinN(i: nat, n: nat, a: nat, b: nat)
    requires i < n && a < b < n
    ensures Steps(i, n, a) != Steps(i, n, b)
  {
    StepsAdvance(i, n, a);
    StepsAdvance(i, n, b);
  }

  /** `moods.find(m => m.id === moodId)`: the first mood with that id. */
  function FindMood(moodId: string): (r: Option<Mood>)
    ensures r.Some? ==> r.value in Moods && r.value.id == moodId
    ensures r.None? <==> !IsMoodId(moodId)
  {
    FindIn(Moods, moodId)
  }

  /** `mood?.label`. */
  function MoodLabel(moodId: string): (t: Option<string>)
    ensures t.Some? <==> IsMoodId(moodId)
    ensures t.Some? ==> exists m | m in Moods :: m.id == moodId && m.labelText == t.value
  {
    match FindMood(moodId)
    case None => None
    case Some(m) => Some(m.labelText)
  }

  /** The first mood of `ms` with id `moodId`. */
  function FindIn(ms: seq<Mood>, moodId: string): (r: Option<Mood>)
    ensures r.Some? ==> r.value in ms && r.value.id == moodId
    ensures r.None? <==> forall i :: 0 <= i < |ms| ==> ms[i].id != moodId
  {
    if ms == [] then None
    else if ms[0].id == moodId then Some(ms[0])
    else
      var r := FindIn(ms[1..], moodId);
      assert forall i :: 1 <= i < |ms| ==> ms[i] == ms[1..][i - 1];
      r
  }

  /** Mounting a verse screen for a mood: `getVersesForMood(moodId)`, the
      first verse on show. */
  method Mount(moodId: string) returns (p: VersePager)
    ensures fresh(p) && p.Valid()
    ensures p.moodId == moodId && p.verses == GetVersesForMood(moodId) && p.currentIndex == 0
  {
    var verses := GetVersesForMood(moodId);
    p := new VersePager(moodId, verses);
  }

  /** The state of one verse screen: the verses of its mood and the index of
      the verse on show. */
  class VersePager {
    const moodId: string
    const verses: seq<Verse>
    var currentIndex: nat

    /** The index names a verse, or the list is empty and the index is 0. */
    predicate Valid()
      reads this
    {
      currentIndex == 0 || currentIndex < |verses|
    }

    /** A pager over `verses`, the first one on show. */
    constructor(moodId: string, verses: seq<Verse>)
      ensures this.moodId == moodId && this.verses == verses
      ensures currentIndex == 0 && Valid()
    {
      this.moodId := moodId;
      this.verses := verses;
      this.currentIndex := 0;
    }

    /** `handleNext`. */
    method HandleNext()
      requires Valid() && |verses| > 0
      modifies this
      ensures currentIndex == Next(old(currentIndex), |verses|)
      ensures Valid()
    {
      currentIndex := (currentIndex + 1) % |verses|;
    }
  }
}
