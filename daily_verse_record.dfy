/** The daily verse record that the edge function
    (supabase/functions/get-daily-verse/index.ts) returns and the hook
    (src/hooks/useDailyVerse.ts) caches, the Psalm 23 fallback both of them
    use, and its JSON form. */
module DailyVerseRecord {
  import opened Wrappers
  import opened Json

  /** `{ verse, reference, reflection }`. */
  datatype DailyVerse = DailyVerse(verse: string, reference: string, reflection: string)

  /** The body the hook sends to the edge function: the stored feelings and
      the date. */
  datatype DailyVerseRequest = DailyVerseRequest(userFeelings: seq<string>, date: string)

  /** The verse both sides fall back to.  Its texts are written in pieces,
      so that no proof about a cache holding it has to escape the whole
      sentence character by character. */
  const PsalmTwentyThree := DailyVerse(
    PsalmLineOne + " " + PsalmLineTwo + " " + PsalmLineThree + " " + PsalmLineFour,
    "Psalm" + " 23:1-3",
    "May you find peace" + " and restoration in God's loving care today.")

  const PsalmLineOne := "The Lord is my shepherd; I shall not want."
  const PsalmLineTwo := "He makes me lie down in green pastures."
  const PsalmLineThree := "He leads me beside still waters."
  const PsalmLineFour := "He restores my soul."

  const VerseKey := "{\"verse\":"
  const ReferenceKey := ",\"reference\":"
  const ReflectionKey := ",\"reflection\":"

  /** `JSON.stringify(v)` for a record whose keys are in this order. */
  function EncodeVerse(v: DailyVerse): string
  {
    VerseKey + Quote(v.verse) + ReferenceKey + Quote(v.reference) + ReflectionKey + Quote(v.reflection) + "}"
  }

  /** `JSON.parse(s)` for a record written as EncodeVerse writes it. */
  function DecodeVerse(s: string): Option<DailyVerse>
  {
    match Field(VerseKey, s)
    case None => None
    case Some((verse, s1)) =>
      match Field(ReferenceKey, s1)
      case None => None
      case Some((reference, s2)) =>
        match Field(ReflectionKey, s2)
        case None => None
        case Some((reflection, s3)) =>
          if s3 == "}" then Some(DailyVerse(verse, reference, reflection)) else None
  }

  /** `JSON.parse(JSON.stringify(v))` is `v`. */
  lemma VerseRoundTrip(v: DailyVerse)
    ensures DecodeVerse(EncodeVerse(v)) == Some(v)
  {
    var tail2 := ReflectionKey + Quote(v.reflection) + "}";
    var tail1 := ReferenceKey + Quote(v.reference) + tail2;
    Regroup(VerseKey, Quote(v.verse), ReferenceKey, Quote(v.reference), ReflectionKey, Quote(v.reflection), "}");
    FieldRoundTrip(VerseKey, v.verse, tail1);
    FieldRoundTrip(ReferenceKey, v.reference, tail2);
    FieldRoundTrip(ReflectionKey, v.reflection, "}");
  }

  /** The encoding read as a field followed by the rest of the text. */
  lemma Regroup(a: string, b: string, c: string, d: string, e: string, f: string, g: string)
    ensures a + b + c + d + e + f + g == a + b + (c + d + (e + f + g))
  {
  }
}
