/** Runner labels as the configuration, the queue and the responses write them: a sorted list with commas. */
module Labels {
  import opened Wrappers
  import opened Text
  import opened Names

  const MAX_LABELS := 16

  predicate AllLabels(labels: seq<string>) {
    forall i | 0 <= i < |labels| :: ValidLabel(labels[i])
  }

  function ParseLabels(text: string): Option<seq<string>> {
    if text == "" then Some([])
    else
      var labels := Split(text, ',');
      if !AllLabels(labels) || |Sorted(labels)| > MAX_LABELS then None else Some(Sorted(labels))
  }

  /** One label after the other, a comma before each but the first. */
  function FormatLabels(labels: seq<string>): string
    decreases |labels|
  {
    if labels == [] then ""
    else
      var text := FormatLabels(labels[..|labels| - 1]);
      (if text == "" then "" else text + ",") + labels[|labels| - 1]
  }

  lemma {:induction false} JoinLast(parts: seq<string>, last: string)
    requires parts != []
    ensures Join(parts + [last], ',') == Join(parts, ',') + "," + last
    decreases |parts|
  {
    var all := parts + [last];
    assert all[1..] == parts[1..] + [last];
    if |parts| > 1 {
      JoinLast(parts[1..], last);
    }
  }

  lemma {:induction false} LabelsAreJoined(labels: seq<string>)
    requires AllLabels(labels) && labels != []
    ensures FormatLabels(labels) == Join(labels, ',') != ""
    decreases |labels|
  {
    hide ValidLabel;
    var init, last := labels[..|labels| - 1], labels[|labels| - 1];
    assert labels == init + [last] && last != "" by {
      assert ValidLabel(last);
      LabelIsFree(last);
    }
    if init != [] {
      LabelsAreJoined(init);
      JoinLast(init, last);
    }
  }

  lemma LabelIsFree(name: string)
    requires ValidLabel(name)
    ensures name != "" && Free(name, ',')
  {
  }

  lemma LabelsSplit(labels: seq<string>)
    requires AllLabels(labels) && labels != []
    ensures FormatLabels(labels) != "" && Split(FormatLabels(labels), ',') == labels
  {
    LabelsAreJoined(labels);
    hide ValidLabel, Split, Join;
    forall i | 0 <= i < |labels|
      ensures Free(labels[i], ',')
    {
      LabelIsFree(labels[i]);
    }
    SplitJoin(labels, ',');
  }

  lemma SortedLabels(labels: seq<string>)
    requires AllLabels(labels)
    ensures AllLabels(Sorted(labels)) && (labels != [] ==> Sorted(labels) != [])
  {
    SortedHolds(labels);
    hide ValidLabel, Sorted;
    var sorted := Sorted(labels);
    forall i | 0 <= i < |sorted|
      ensures ValidLabel(sorted[i])
    {
      assert sorted[i] in labels;
    }
    if labels != [] {
      assert labels[0] in sorted;
    }
  }

  /** What is written reads back sorted and without repetitions. */
  lemma LabelsReadBack(labels: seq<string>)
    requires AllLabels(labels) && |labels| <= MAX_LABELS
    ensures ParseLabels(FormatLabels(labels)) == Some(Sorted(labels))
  {
    if labels != [] {
      LabelsSplit(labels);
      SortedHolds(labels);
    }
  }

  /** A text is read as a list and is that list's own text exactly when it is written for a sorted list. */
  lemma LabelsRoundTrip(text: string, labels: seq<string>)
    ensures ParseLabels(text) == Some(labels) && FormatLabels(labels) == text <==>
            AllLabels(labels) && |labels| <= MAX_LABELS && InOrder(labels) && text == FormatLabels(labels)
  {
    if ParseLabels(text) == Some(labels) {
      if text == "" {
        OneOrNoneInOrder([]);
      } else {
        SortedLabels(Split(text, ','));
        SortedHolds(Split(text, ','));
      }
    }
    hide ParseLabels, FormatLabels;
    if AllLabels(labels) && |labels| <= MAX_LABELS && InOrder(labels) {
      LabelsReadBack(labels);
      SortedIsSame(labels);
    }
  }

  lemma LabelTextIsFree(labels: seq<string>, c: char)
    requires AllLabels(labels) && c != ',' && !LowerOrDigit(c) && c !in "._-"
    ensures Free(FormatLabels(labels), c)
    decreases |labels|
  {
    if labels != [] {
      LabelTextIsFree(labels[..|labels| - 1], c);
    }
  }

  lemma NoneAreLabels()
    ensures AllLabels([])
  {
  }

  lemma MoreLabels(labels: seq<string>, name: string)
    requires AllLabels(labels) && ValidLabel(name)
    ensures AllLabels(labels + [name])
  {
    hide ValidLabel;
  }

  lemma BadLabel(labels: seq<string>, i: nat)
    requires i < |labels| && !ValidLabel(labels[i])
    ensures !AllLabels(labels)
  {
    hide ValidLabel;
  }

  // ----- the loops of the source ---------------------------------------------------------------

  method ReadLabels(text: string) returns (r: Option<seq<string>>)
    ensures r == ParseLabels(text)
  {
    if text == "" {
      return Some([]);
    }
    NoneAreLabels();
    hide Split, Find, ValidLabel, Sorted, AllLabels;
    var labels: seq<string>, rest := [], text;
    while true
      invariant Split(text, ',') == labels + Split(rest, ',')
      invariant AllLabels(labels)
      decreases |rest|
    {
      SplitFront(labels, rest, ',');
      var comma := Find(rest, ',');
      var name := rest[..comma];
      if !ValidLabel(name) {
        BadLabel(Split(text, ','), |labels|);
        return None;
      }
      MoreLabels(labels, name);
      labels := labels + [name];
      if comma == |rest| {
        break;
      }
      rest := rest[comma + 1..];
    }
    var sorted := Sorted(labels);
    return if |sorted| > MAX_LABELS then None else Some(sorted);
  }

  method WriteLabels(labels: seq<string>) returns (text: string)
    ensures text == FormatLabels(labels)
  {
    text := "";
    for i := 0 to |labels|
      invariant text == FormatLabels(labels[..i])
    {
      assert labels[..i + 1][..i] == labels[..i];
      text := (if text == "" then "" else text + ",") + labels[i];
    }
    assert labels[..|labels|] == labels;
  }
}
