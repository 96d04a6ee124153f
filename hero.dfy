/**
 * The typewriter headline of the hero section (src/components/Hero.tsx):
 * the shown text grows one character per timer firing until the whole
 * title is shown; the next firing clears it and moves on to the next of
 * the five titles, wrapping round after the last.
 */
module Hero {

  /** `titles`, in the order they are shown. */
  const Titles: seq<string> := [
    "Software Development Engineer",
    "React Native Expert",
    "Full-Stack Developer",
    "Open Source Contributor",
    "Mobility Tech Innovator"
  ]

  /** The typewriter's two state values: `displayText` and `currentIndex`. */
  datatype Frame = Frame(text: string, index: nat)

  /** A frame the typewriter can be in: a title, and a prefix of it. */
  predicate Showing(f: Frame)
  {
    f.index < |Titles| && f.text <= Titles[f.index]
  }

  /** One timer firing. */
  function Next(f: Frame): (r: Frame)
    requires Showing(f)
    ensures Showing(r)
    ensures |f.text| < |Titles[f.index]| ==>
              r.index == f.index && |r.text| == |f.text| + 1
    ensures |f.text| == |Titles[f.index]| ==>
              r.text == "" && r.index == (f.index + 1) % |Titles|
  {
    var title := Titles[f.index];
    if |f.text| < |title| then Frame(title[..|f.text| + 1], f.index)
    else Frame("", (f.index + 1) % |Titles|)
  }

  /** `n` timer firings. */
  function Run(n: nat, f: Frame): (r: Frame)
    requires Showing(f)
    ensures Showing(r)
  {
    if n == 0 then f else Next(Run(n - 1, f))
  }

  /** Firings compose: `a` firings and then `b` more are `a + b` firings. */
  lemma {:induction false} RunAdd(a: nat, b: nat, f: Frame)
    requires Showing(f)
    ensures Run(a + b, f) == Run(b, Run(a, f))
  {
    if b > 0 {
      RunAdd(a, b - 1, f);
    }
  }

  /** From empty text, `k` firings show the first `k` characters of the title. */
  lemma {:induction false} TypesPrefix(i: nat, k: nat)
    requires i < |Titles| && k <= |Titles[i]|
    ensures Run(k, Frame("", i)) == Frame(Titles[i][..k], i)
  {
    if k > 0 {
      TypesPrefix(i, k - 1);
    }
  }

  /** A title of length `n` is fully shown after `n` firings; one more starts the next title. */
  lemma TypesTitle(i: nat)
    requires i < |Titles|
    ensures Run(|Titles[i]|, Frame("", i)) == Frame(Titles[i], i)
    ensures Run(|Titles[i]| + 1, Frame("", i)) == Frame("", (i + 1) % |Titles|)
  {
    TypesPrefix(i, |Titles[i]|);
    assert Titles[i][..|Titles[i]|] == Titles[i];
  }

  /** The firings one title takes, from empty text to the next title's empty text. */
  function Period(i: nat): nat
    requires i < |Titles|
  {
    |Titles[i]| + 1
  }

  /** The firings it takes to go through the first `k` titles. */
  function Cycle(k: nat): nat
    requires k <= |Titles|
  {
    if k == 0 then 0 else Cycle(k - 1) + Period(k - 1)
  }

  /** One whole title, from empty text to the next title's empty text. */
  lemma TitleRound(i: nat)
    requires i < |Titles|
    ensures Run(Period(i), Frame("", i)) == Frame("", (i + 1) % |Titles|)
  {
    TypesTitle(i);
  }

  /**
   * The titles come in declaration order, and after the last comes the first
   * again: from the empty first title, the first `k` titles take `Cycle(k)` firings.
   * `start` is that empty first title, passed in rather than written out so
   * that the proof does not unfold `Run` on a constant frame.
   */
  lemma {:induction false} CyclesInOrder(k: nat, start: Frame)
    requires k <= |Titles| && start == Frame("", 0)
    ensures Run(Cycle(k), start) == Frame("", k % |Titles|)
  {
    if k > 0 {
      var j := k - 1;
      CyclesInOrder(j, start);
      assert j % |Titles| == j;
      RunAdd(Cycle(j), Period(j), start);
      TitleRound(j);
    }
  }

  /** After 119 firings the headline is back at the empty first title. */
  lemma FullCycle()
    ensures Cycle(|Titles|) == 119
    ensures Run(119, Frame("", 0)) == Frame("", 0)
  {
    assert Period(0) == 30 && Period(1) == 20 && Period(2) == 21;
    assert Period(3) == 24 && Period(4) == 24;
    assert Cycle(|Titles|) == 119;
    CyclesInOrder(|Titles|, Frame("", 0));
  }

  /** The hero section's typewriter state. */
  class Typewriter {
    var displayText: string
    var currentIndex: nat
    var isVisible: bool

    /** `displayText` is a prefix of the current title. */
    ghost predicate Valid()
      reads this
    {
      Showing(Frame(displayText, currentIndex))
    }

    /** The first render: nothing typed, the first title, not yet visible. */
    constructor ()
      ensures Valid()
      ensures displayText == "" && currentIndex == 0 && !isVisible
    {
      displayText := "";
      currentIndex := 0;
      isVisible := false;
    }

    /** The effect runs and its timer fires: the section is visible and the headline advances. */
    method Tick()
      requires Valid()
      modifies this
      ensures Valid() && isVisible
      ensures Frame(displayText, currentIndex) == Next(Frame(old(displayText), old(currentIndex)))
    {
      isVisible := true;
      var title := Titles[currentIndex];
      if |displayText| < |title| {
        displayText := title[..|displayText| + 1];
      } else {
        displayText := "";
        currentIndex := (currentIndex + 1) % |Titles|;
      }
    }
  }
}
