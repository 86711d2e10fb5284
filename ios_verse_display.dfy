/** What the iOS-style verse screen (src/components/IOSVerseDisplay.tsx)
    shows for the state of its pager: besides the card and the next button
    it has a row of dots, one per verse, with the dot of the verse on show
    marked; the dots' class names are built by the file's own `cn`. */
module IOSVerseDisplay {
  import opened Wrappers
  import opened Seqs
  import opened Text
  import opened Catalog
  import opened Pager

  /** An argument of `cn`: a string, a boolean (from `cond && 'class'`
      patterns) or `undefined`. */
  datatype ClassArg = Str(s: string) | Flag(b: bool) | Undefined

  /** JavaScript truthiness, the test of `classes.filter(Boolean)`. */
  predicate Truthy(a: ClassArg)
  {
    match a
    case Str(s) => s != ""
    case Flag(b) => b
    case Undefined => false
  }

  /** How a kept argument is written by `join`: a string as itself and the
      boolean `true` as "true". */
  function Show(a: ClassArg): string
  {
    match a
    case Str(s) => s
    case Flag(b) => if b then "true" else "false"
    case Undefined => ""
  }

  function ShowAll(args: seq<ClassArg>): (r: seq<string>)
    ensures |r| == |args| && forall k :: 0 <= k < |args| ==> r[k] == Show(args[k])
  {
    if args == [] then [] else [Show(args[0])] + ShowAll(args[1..])
  }

  /** `cn(...classes)`: the truthy arguments, in order, joined by single spaces. */
  function Cn(classes: seq<ClassArg>): string
  {
    Join(ShowAll(Filter(Truthy, classes)), " ")
  }

  /** Falsy arguments make no difference: `cn` of the truthy ones alone is the same. */
  lemma CnDropsFalsy(classes: seq<ClassArg>)
    ensures Cn(Filter(Truthy, classes)) == Cn(classes)
  {
    FilterAll(Truthy, Filter(Truthy, classes));
  }

  /** Every truthy argument appears in the result. */
  lemma CnKeepsTruthy(classes: seq<ClassArg>, k: nat)
    requires k < |classes| && Truthy(classes[k])
    ensures Contains(Cn(classes), Show(classes[k]))
  {
    var kept := Filter(Truthy, classes);
    FilterKeepsAt(Truthy, classes, k);
    var j :| 0 <= j < |kept| && kept[j] == classes[k];
    JoinContainsParts(ShowAll(kept), " ", j);
  }

  /** Arguments that are all falsy give the empty class name. */
  lemma CnOfFalsy(classes: seq<ClassArg>)
    requires forall a | a in classes :: !Truthy(a)
    ensures Cn(classes) == ""
  {
    FilterNone(Truthy, classes);
  }

  /** Two non-empty strings give the first, a space and the second, in this order. */
  lemma CnOfTwo(a: string, b: string)
    requires a != "" && b != ""
    ensures Cn([Str(a), Str(b)]) == a + " " + b
  {
    var args := [Str(a), Str(b)];
    FilterAll(Truthy, args);
    assert ShowAll(args) == [a, b];
    assert [a, b][1..] == [b];
    assert Join([a, b], " ") == a + " " + Join([b], " ");
  }

  /** The classes every dot has. */
  const DotBase := "w-2 h-2 rounded-full transition-colors"

  /** The class name of the dot of the verse on show, and of the others. */
  const ActiveDot := DotBase + " bg-foreground"
  const InactiveDot := DotBase + " bg-muted"

  /** The class name of the dot at `index` when `currentIndex` is on show. */
  function DotClass(index: nat, currentIndex: nat): string
  {
    Cn([Str(DotBase), Str(if index == currentIndex then "bg-foreground" else "bg-muted")])
  }

  /** The dots of a list of `n` verses. */
  function Dots(n: nat, currentIndex: nat): (r: seq<string>)
    ensures |r| == n && forall k :: 0 <= k < n ==> r[k] == DotClass(k, currentIndex)
  {
    if n == 0 then [] else Dots(n - 1, currentIndex) + [DotClass(n - 1, currentIndex)]
  }

  /** Exactly the dot of the verse on show is marked active; every other
      dot has the inactive class. */
  lemma OneActiveDot(n: nat, currentIndex: nat)
    requires currentIndex < n
    ensures forall k :: 0 <= k < n ==> (Dots(n, currentIndex)[k] == ActiveDot <==> k == currentIndex)
    ensures forall k :: 0 <= k < n && k != currentIndex ==> Dots(n, currentIndex)[k] == InactiveDot
  {
    CnOfTwo(DotBase, "bg-foreground");
    CnOfTwo(DotBase, "bg-muted");
    assert |ActiveDot| != |InactiveDot|;
  }

  /** The "Next Verse (current/total)" counter. */
  datatype Counter = Counter(current: nat, total: nat)

  /** The "No verses found" message, or the card with the mood's label, the
      verse on show, the dots and the next button; the dots and the button
      are there only when there is more than one verse. */
  datatype Screen =
    | NoVerses
    | VerseCard(title: Option<string>, verse: Verse, dots: Option<seq<string>>, next: Option<Counter>)

  /** The screen for the verses of `moodId` with `currentIndex` on show. */
  function Render(moodId: string, verses: seq<Verse>, currentIndex: nat): (s: Screen)
    requires verses == [] || currentIndex < |verses|
    ensures s.NoVerses? <==> verses == []
    ensures s.VerseCard? ==> s.verse == verses[currentIndex] && s.title == MoodLabel(moodId)
    ensures s.VerseCard? ==> (s.dots.Some? <==> |verses| > 1) && (s.next.Some? <==> |verses| > 1)
    ensures s.VerseCard? && s.dots.Some? ==> |s.dots.value| == |verses|
    ensures s.VerseCard? && s.next.Some? ==> 1 <= s.next.value.current <= s.next.value.total == |verses|
  {
    if |verses| == 0 then NoVerses
    else
      var many := |verses| > 1;
      VerseCard(MoodLabel(moodId), verses[currentIndex],
        if many then Some(Dots(|verses|, currentIndex)) else None,
        if many then Some(Counter(currentIndex + 1, |verses|)) else None)
  }

  /** The screen of a pager in a valid state. */
  function View(p: VersePager): (s: Screen)
    requires p.Valid()
    reads p
    ensures s.NoVerses? <==> p.verses == []
  {
    Render(p.moodId, p.verses, p.currentIndex)
  }

  /** On a screen with dots, exactly the dot of the verse on show is active. */
  lemma ShownDotIsActive(moodId: string, verses: seq<Verse>, currentIndex: nat)
    requires currentIndex < |verses|
    requires Render(moodId, verses, currentIndex).VerseCard?
    requires Render(moodId, verses, currentIndex).dots.Some?
    ensures forall k :: 0 <= k < |verses| ==>
      (Render(moodId, verses, currentIndex).dots.value[k] == ActiveDot <==> k == currentIndex)
  {
    OneActiveDot(|verses|, currentIndex);
  }
}
