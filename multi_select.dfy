// The multi-select dropdown's list operations over the selected values.
module MultiSelect {
  import opened Base

  /** Clicking an option: an option already selected is removed (every
      occurrence), any other option is appended at the end. */
  function Toggle(value: seq<string>, opt: string): (r: seq<string>)
    ensures opt in value ==> opt !in r && |r| < |value|
    ensures opt in value ==> forall x :: x != opt ==> (x in r <==> x in value)
    ensures opt in value ==> Subsequence(r, value)
    ensures opt !in value ==> r == value + [opt]
  {
    if opt in value then
      var kept := Filter(value, (x: string) => x != opt);
      FilterLength(value, opt);
      FilterSubsequence(value, (x: string) => x != opt);
      kept
    else value + [opt]
  }

  /** Filtering out a present element makes the list strictly shorter. */
  lemma {:induction false} FilterLength(value: seq<string>, opt: string)
    requires opt in value
    ensures |Filter(value, (x: string) => x != opt)| < |value|
  {
    var p := (x: string) => x != opt;
    if value[0] == opt {
      assert Filter(value, p) == Filter(value[1..], p);
    } else {
      assert opt in value[1..];
      FilterLength(value[1..], opt);
    }
  }

  /** Removing an option keeps every other value as often as it was
      selected (the order is the list's own, as `filter` keeps it). */
  lemma {:induction false} ToggleKeepsOtherCounts(value: seq<string>, opt: string, x: string)
    requires opt in value && x != opt
    ensures multiset(Toggle(value, opt))[x] == multiset(value)[x]
  {
    FilterKeepsCount(value, opt, x);
  }

  lemma {:induction false} FilterKeepsCount(value: seq<string>, opt: string, x: string)
    requires x != opt
    ensures multiset(Filter(value, (y: string) => y != opt))[x] == multiset(value)[x]
  {
    if value != [] {
      FilterKeepsCount(value[1..], opt, x);
      assert value == [value[0]] + value[1..];
    }
  }

  /** Toggling an unselected option twice gives back the original list. */
  lemma {:induction false} ToggleTwiceRestores(value: seq<string>, opt: string)
    requires opt !in value
    ensures Toggle(Toggle(value, opt), opt) == value
  {
    var p := (x: string) => x != opt;
    FilterAppend(value, [opt], p);
    assert Filter([opt], p) == [];
    assert forall i :: 0 <= i < |value| ==> p(value[i]);
  }

  /** Toggling a selected option twice moves it to the end (a single
      occurrence, the others in their order). */
  lemma {:induction false} ToggleSelectedTwiceMovesToEnd(value: seq<string>, opt: string)
    requires opt in value
    ensures Toggle(Toggle(value, opt), opt) == Filter(value, (x: string) => x != opt) + [opt]
  {
  }

  /** "Select All" picks exactly the options, in their order. */
  function SelectAll(options: seq<string>): (r: seq<string>)
    ensures |r| == |options| && forall i :: 0 <= i < |r| ==> r[i] == options[i]
  {
    options
  }

  /** "Clear" selects nothing. */
  function Clear(): (r: seq<string>)
    ensures |r| == 0
  {
    []
  }

  /** The button text: the count of selected values, or the placeholder. */
  function Label(value: seq<string>, placeholder: string): (r: string)
    ensures value == [] ==> r == placeholder
    ensures value != [] ==> exists digits ::
      r == digits + " selected" && |digits| >= 1 && AllDigits(digits) && DigitsValue(digits) == |value|
      && (|digits| > 1 ==> digits[0] != '0')
  {
    if |value| != 0 then NatToString(|value|) + " selected" else placeholder
  }

  /** The label of a selection tells how many values are selected: two
      selections with the same label are the same size. */
  lemma {:induction false} LabelTellsCount(a: seq<string>, b: seq<string>, placeholder: string)
    requires a != [] && b != [] && Label(a, placeholder) == Label(b, placeholder)
    ensures |a| == |b|
  {
    var da, db := NatToString(|a|), NatToString(|b|);
    assert da == (da + " selected")[..|da|];
    assert db == (db + " selected")[..|db|];
  }
}
