/** The search controls: the source checkboxes, whose toggling adds or
    removes a source text in the selected list, and the slider for the
    number of sources. */
module ControlPanel {
  import opened SearchTypes
  import UseSearch

  /** `xs.filter(s => s !== x)`. */
  function Remove(xs: seq<string>, x: string): (r: seq<string>)
    ensures |r| <= |xs|
    ensures x !in r
    ensures forall y :: y in r <==> y in xs && y != x
  {
    if xs == [] then []
    else if xs[0] == x then Remove(xs[1..], x)
    else [xs[0]] + Remove(xs[1..], x)
  }

  /** `toggleSource(sourceText)`: removes every occurrence of a selected
      source, and appends a source that is not selected. */
  function ToggleSource(selected: seq<string>, sourceText: string): (r: seq<string>)
    ensures sourceText in selected ==> r == Remove(selected, sourceText)
    ensures sourceText !in selected ==> r == selected + [sourceText]
  {
    if sourceText in selected then Remove(selected, sourceText) else selected + [sourceText]
  }

  /** The `checked` state of each source checkbox, in display order. */
  function Checkboxes(labSources: seq<LabSource>, selected: seq<string>): (r: seq<bool>)
    ensures |r| == |labSources|
    ensures forall i | 0 <= i < |labSources| :: r[i] <==> labSources[i].text in selected
  {
    seq(|labSources|, i requires 0 <= i < |labSources| => labSources[i].text in selected)
  }

  lemma {:induction false} RemoveConcat(a: seq<string>, b: seq<string>, x: string)
    ensures Remove(a + b, x) == Remove(a, x) + Remove(b, x)
  {
    if a == [] {
      assert a + b == b;
    } else {
      assert (a + b)[0] == a[0];
      assert (a + b)[1..] == a[1..] + b;
      RemoveConcat(a[1..], b, x);
      if a[0] != x {
        assert Remove(a + b, x) == [a[0]] + (Remove(a[1..], x) + Remove(b, x));
      }
    }
  }

  /** Removing an element that is not there changes nothing. */
  lemma {:induction false} RemoveAbsent(xs: seq<string>, x: string)
    requires x !in xs
    ensures Remove(xs, x) == xs
  {
    if xs != [] {
      assert xs[0] != x;
      assert x !in xs[1..] by {
        assert forall y | y in xs[1..] :: y in xs;
      }
      RemoveAbsent(xs[1..], x);
      assert xs == [xs[0]] + xs[1..];
    }
  }

  /** A toggle flips the membership of the toggled source and of no other
      text. */
  lemma ToggleFlips(selected: seq<string>, sourceText: string)
    ensures sourceText in ToggleSource(selected, sourceText) <==> sourceText !in selected
    ensures forall y | y != sourceText :: y in ToggleSource(selected, sourceText) <==> y in selected
  {
  }

  /** The other selected sources keep their relative order: they are, in
      order, those of the list before the toggle. */
  lemma ToggleKeepsOrder(selected: seq<string>, sourceText: string)
    ensures Remove(ToggleSource(selected, sourceText), sourceText) == Remove(selected, sourceText)
  {
    if sourceText in selected {
      RemoveAbsent(Remove(selected, sourceText), sourceText);
    } else {
      RemoveConcat(selected, [sourceText], sourceText);
      assert Remove([sourceText], sourceText) == [];
    }
  }

  /** Toggling a source that is not selected twice restores the list;
      toggling a selected one twice drops its duplicates and moves it to
      the end. */
  lemma ToggleTwice(selected: seq<string>, sourceText: string)
    ensures sourceText !in selected ==> ToggleSource(ToggleSource(selected, sourceText), sourceText) == selected
    ensures sourceText in selected ==>
              ToggleSource(ToggleSource(selected, sourceText), sourceText) == Remove(selected, sourceText) + [sourceText]
  {
    if sourceText !in selected {
      RemoveConcat(selected, [sourceText], sourceText);
      assert Remove([sourceText], sourceText) == [];
      RemoveAbsent(selected, sourceText);
      assert selected + [] == selected;
    }
  }

  /** Toggling the box of a source flips that box and every box with the
      same text, and leaves the others as they were. */
  lemma ToggleFlipsBox(labSources: seq<LabSource>, selected: seq<string>, i: nat)
    requires i < |labSources|
    ensures var before := Checkboxes(labSources, selected);
            var after := Checkboxes(labSources, ToggleSource(selected, labSources[i].text));
            && after[i] == !before[i]
            && forall j | 0 <= j < |labSources| && labSources[j].text != labSources[i].text :: after[j] == before[j]
  {
    ToggleFlips(selected, labSources[i].text);
  }

  /** The slider offers 1 to 10, and the search state keeps a count of 5
      to 20, so the values 1 to 4 all become 5. */
  lemma SliderValueClamped(value: int)
    requires 1 <= value <= 10
    ensures UseSearch.Clamp(value) == if value < 5 then 5 else value
  {
  }
}
