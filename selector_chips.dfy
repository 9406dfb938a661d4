/** The selector-chip group: a row of toggleable option chips whose labels
    carry a count suffix such as "Low (10)". The owner is told the selection
    with those suffixes removed, and each chip is coloured by the risk level
    its label names. */
module SelectorChips {
  import opened Text
  import opened Seqs

  // ---------------------------------------------------------------------------
  // The count suffix: `s.replace(/\s*\(\d+\)$/, '')`

  /** The regular expression `\s*\(\d+\)$` matches `s` from position `p` with
      its "(" at position `q`: spaces from p up to q, then "(", then one or
      more digits, then ")" as the last character. */
  ghost predicate SuffixMatch(s: string, p: int, q: int) {
    0 <= p <= q && q + 2 < |s| && s[|s| - 1] == ')' && s[q] == '(' &&
    (forall i :: p <= i < q ==> IsSpace(s[i])) &&
    (forall i :: q < i < |s| - 1 ==> IsDigit(s[i]))
  }

  /** The expression matches `s` starting at position `p`. */
  ghost predicate MatchesFrom(s: string, p: int) {
    exists q :: 0 <= q < |s| && SuffixMatch(s, p, q)
  }

  /** All matches share the same "(": the one just before the final digit run. */
  lemma SuffixMatchParen(s: string, p: int, q: int, p': int, q': int)
    requires SuffixMatch(s, p, q)
    ensures SuffixMatch(s, p', q') ==> q' == q
  {
  }

  /** The start of the run of digits that ends just before position `e`. */
  function DigitsBefore(s: string, e: nat): (i: nat)
    requires e <= |s|
    ensures i <= e && (forall k :: i <= k < e ==> IsDigit(s[k])) && (i == 0 || !IsDigit(s[i - 1]))
  {
    if e > 0 && IsDigit(s[e - 1]) then DigitsBefore(s, e - 1) else e
  }

  lemma {:induction false} DigitsBeforeIs(s: string, e: nat, lo: nat)
    requires lo <= e <= |s| && (forall k :: lo <= k < e ==> IsDigit(s[k]))
    requires lo == 0 || !IsDigit(s[lo - 1])
    ensures DigitsBefore(s, e) == lo
    decreases e
  {
    if e > lo {
      DigitsBeforeIs(s, e - 1, lo);
    }
  }

  /** The start of the run of white space that ends just before position `e`. */
  function SpacesBefore(s: string, e: nat): (i: nat)
    requires e <= |s|
    ensures i <= e && (forall k :: i <= k < e ==> IsSpace(s[k])) && (i == 0 || !IsSpace(s[i - 1]))
  {
    if e > 0 && IsSpace(s[e - 1]) then SpacesBefore(s, e - 1) else e
  }

  /** The label with its count suffix removed. The regular expression is not
      global, so only its leftmost match goes: the result is the text before
      the first position from which the expression matches, or the whole
      label when it matches nowhere. */
  function StripCount(s: string): (r: string)
    ensures |r| <= |s| && r == s[..|r|]
    ensures |r| < |s| ==> MatchesFrom(s, |r|) && forall p :: 0 <= p < |r| ==> !MatchesFrom(s, p)
    ensures |r| == |s| ==> forall p :: 0 <= p <= |s| ==> !MatchesFrom(s, p)
  {
    if |s| < 3 || s[|s| - 1] != ')' then
      NoMatchWithoutParen(s);
      s
    else
      var d := DigitsBefore(s, |s| - 1);
      if d == |s| - 1 || d == 0 || s[d - 1] != '(' then
        NoMatchWithoutParen(s);
        s
      else
        var q := d - 1;
        var p := SpacesBefore(s, q);
        assert SuffixMatch(s, p, q);
        LeftmostMatch(s, p, q);
        s[..p]
  }

  /** Every match has its "(" just before the digit run that ends the label. */
  lemma MatchShape(s: string, p: int, q: int)
    ensures SuffixMatch(s, p, q) ==>
      |s| >= 3 && s[|s| - 1] == ')' && DigitsBefore(s, |s| - 1) == q + 1 && s[q] == '('
  {
    if SuffixMatch(s, p, q) {
      DigitsBeforeIs(s, |s| - 1, q + 1);
    }
  }

  /** Where the final ")" is missing, or not preceded by "(" and digits, the
      expression matches nowhere. */
  lemma NoMatchWithoutParen(s: string)
    requires |s| < 3 || s[|s| - 1] != ')' ||
             var d := DigitsBefore(s, |s| - 1); d == |s| - 1 || d == 0 || s[d - 1] != '('
    ensures forall p :: 0 <= p <= |s| ==> !MatchesFrom(s, p)
  {
    forall p, q | 0 <= p <= |s| && 0 <= q < |s| ensures !SuffixMatch(s, p, q) {
      MatchShape(s, p, q);
    }
  }

  /** A match from `p` whose white space cannot be extended to the left is
      the leftmost one. */
  lemma LeftmostMatch(s: string, p: nat, q: nat)
    requires SuffixMatch(s, p, q) && (p == 0 || !IsSpace(s[p - 1]))
    ensures forall p' :: 0 <= p' < p ==> !MatchesFrom(s, p')
  {
    forall p', q' | 0 <= p' < p && 0 <= q' < |s| ensures !SuffixMatch(s, p', q') {
      SuffixMatchParen(s, p, q, p', q');
    }
  }

  /** A label without the suffix reads back unchanged. */
  lemma StripWithoutSuffix(s: string)
    requires forall p :: 0 <= p <= |s| ==> !MatchesFrom(s, p)
    ensures StripCount(s) == s
  {
  }

  /** The round trip of the chip labels: a label that does not end in white
      space, followed by " (n)", strips back to the label. */
  lemma StripCountOfLabel(base: string, n: nat)
    requires base == [] || !IsSpace(base[|base| - 1])
    ensures StripCount(base + " (" + NatToString(n) + ")") == base
  {
    var digits := NatToString(n);
    var s := base + " (" + digits + ")";
    var q := |base| + 1;
    assert SuffixMatch(s, |base|, q) by {
      forall i | q < i < |s| - 1 ensures IsDigit(s[i]) {
        assert s[i] == digits[i - q - 1];
      }
      assert IsSpace(s[|base|]);
    }
    assert |base| == 0 || !IsSpace(s[|base| - 1]);
    LeftmostMatch(s, |base|, q);
    assert MatchesFrom(s, |base|);
    var r := StripCount(s);
    assert MatchesFrom(s, |r|) || |r| == |s|;
    assert s[..|base|] == base;
  }

  /** Stripping is not idempotent: only one suffix goes per call. */
  lemma StripOnceOnly()
    ensures StripCount("a (1) (2)") == "a (1)"
    ensures StripCount("a (1)") == "a"
  {
    assert NatToString(1) == "1" && NatToString(2) == "2";
    assert "a (1) (2)" == "a (1)" + " (" + NatToString(2) + ")";
    assert "a (1)" == "a" + " (" + NatToString(1) + ")";
    StripCountOfLabel("a (1)", 2);
    StripCountOfLabel("a", 1);
  }

  // ---------------------------------------------------------------------------
  // Selection

  /** `toggleChip` on the selection: a selected option is filtered out, any
      other option is appended at the end. */
  function Toggle(selected: seq<string>, option: string): (r: seq<string>)
    ensures option in selected ==> r == RemoveValue(selected, option)
    ensures option !in selected ==> r == selected + [option]
  {
    if option in selected then RemoveValue(selected, option) else selected + [option]
  }

  /** Toggling keeps the selection free of duplicates. */
  lemma ToggleNoDuplicates(selected: seq<string>, option: string)
    requires NoDuplicates(selected)
    ensures NoDuplicates(Toggle(selected, option))
  {
    if option in selected {
      RemoveValueNoDuplicates(selected, option);
    } else {
      AppendFreshNoDuplicates(selected, option);
    }
  }

  /** Toggling flips membership of the option and of nothing else. */
  lemma ToggleMembership(selected: seq<string>, option: string, x: string)
    ensures x in Toggle(selected, option) <==> (if x == option then option !in selected else x in selected)
  {
    var r := Toggle(selected, option);
    if option in selected {
      if x in r {
        var i :| 0 <= i < |r| && r[i] == x;
      }
      if x != option && x in selected {
        var i :| 0 <= i < |selected| && selected[i] == x;
      }
    }
  }

  /** Toggling an unselected option twice restores the selection exactly. */
  lemma ToggleTwiceAbsent(selected: seq<string>, option: string)
    requires option !in selected
    ensures Toggle(Toggle(selected, option), option) == selected
  {
    RemoveAppended(selected, option);
  }

  /** Toggling a selected option twice keeps the same members but moves the
      option to the end. */
  lemma ToggleTwicePresent(selected: seq<string>, option: string)
    requires option in selected
    ensures Toggle(Toggle(selected, option), option) == RemoveValue(selected, option) + [option]
  {
    var r := RemoveValue(selected, option);
    assert option !in r;
  }

  /** `updated.map(opt => opt.replace(/\s*\(\d+\)$/, ''))`: what the owner's
      `onChange` receives. */
  function BaseSelection(selected: seq<string>): (r: seq<string>)
    ensures |r| == |selected|
    ensures forall i :: 0 <= i < |selected| ==> r[i] == StripCount(selected[i])
  {
    seq(|selected|, i requires 0 <= i < |selected| => StripCount(selected[i]))
  }

  // ---------------------------------------------------------------------------
  // Colours

  datatype RiskLevel = LowRisk | MediumRisk | HighRisk | OtherRisk

  datatype ChipColors = ChipColors(backgroundColor: string, borderColor: string, color: string)

  /** The level a lower-cased label names: "low" is looked for first, then
      "medium", then "high". */
  function LevelOfText(t: string): (level: RiskLevel)
    ensures level == LowRisk <==> Contains(t, "low")
    ensures level == MediumRisk <==> !Contains(t, "low") && Contains(t, "medium")
    ensures level == HighRisk <==> !Contains(t, "low") && !Contains(t, "medium") && Contains(t, "high")
  {
    if Contains(t, "low") then LowRisk
    else if Contains(t, "medium") then MediumRisk
    else if Contains(t, "high") then HighRisk
    else OtherRisk
  }

  /** The level a chip label names, read from its stripped, lower-cased text. */
  function ChipRiskLevel(option: string): RiskLevel {
    LevelOfText(ToLower(StripCount(option)))
  }

  /** `getRiskColors`: the palette of the label's level, in its selected or
      unselected variant. */
  function RiskColors(option: string, isSelected: bool): (c: ChipColors)
    ensures isSelected ==> c.color == "#fff"
    ensures isSelected && ChipRiskLevel(option) == LowRisk ==> c.backgroundColor == "#22c55e"
    ensures isSelected && ChipRiskLevel(option) == MediumRisk ==> c.backgroundColor == "#f97316"
    ensures isSelected && ChipRiskLevel(option) == HighRisk ==> c.backgroundColor == "#ef4444"
    ensures isSelected && ChipRiskLevel(option) == OtherRisk ==> c.backgroundColor == "#6366f1"
  {
    match ChipRiskLevel(option)
    case LowRisk =>
      if isSelected then ChipColors("#22c55e", "#16a34a", "#fff") else ChipColors("#f0fdf4", "#bbf7d0", "#15803d")
    case MediumRisk =>
      if isSelected then ChipColors("#f97316", "#ea580c", "#fff") else ChipColors("#fff7ed", "#fed7aa", "#c2410c")
    case HighRisk =>
      if isSelected then ChipColors("#ef4444", "#dc2626", "#fff") else ChipColors("#fef2f2", "#fecaca", "#dc2626")
    case OtherRisk =>
      if isSelected then ChipColors("#6366f1", "#4f46e5", "#fff") else ChipColors("#fff", "#d1d5db", "#1f2937")
  }

  /** The selected and unselected variants of a level differ in every colour
      but, for the high level, the unselected text colour, which equals its
      selected border. */
  lemma VariantsDiffer(option: string)
    ensures RiskColors(option, true).backgroundColor != RiskColors(option, false).backgroundColor
    ensures RiskColors(option, true).borderColor != RiskColors(option, false).borderColor
    ensures ChipRiskLevel(option) == HighRisk ==> RiskColors(option, false).color == RiskColors(option, true).borderColor
  {
  }

  /** A counted label names the level of its word. */
  lemma CountedLabelLevel(word: string, n: nat)
    requires word == [] || !IsSpace(word[|word| - 1])
    ensures ChipRiskLevel(word + " (" + NatToString(n) + ")") == LevelOfText(ToLower(word))
  {
    StripCountOfLabel(word, n);
  }

  /** A text lacking one of the letters of `t` does not contain `t`. */
  lemma NoLetter(s: string, t: string, c: char)
    requires c in t && c !in s
    ensures !Contains(s, t)
  {
    var k :| 0 <= k < |t| && t[k] == c;
    if Contains(s, t) {
      ContainsHasChar(s, t, k);
    }
  }

  /** The chip group's state: the selected option labels, in selection order. */
  class ChipGroup {
    var selected: seq<string>

    constructor ()
      ensures selected == []
    {
      selected := [];
    }

    /** `toggleChip`: updates the selection and returns what `onChange` receives. */
    method ToggleChip(option: string) returns (emitted: seq<string>)
      modifies this
      ensures selected == Toggle(old(selected), option)
      ensures emitted == BaseSelection(selected)
      ensures NoDuplicates(old(selected)) ==> NoDuplicates(selected)
    {
      if option in selected {
        selected := RemoveValue(selected, option);
      } else {
        selected := selected + [option];
      }
      if NoDuplicates(old(selected)) {
        ToggleNoDuplicates(old(selected), option);
      }
      emitted := BaseSelection(selected);
    }

    function IsSelected(option: string): (b: bool)
      reads this
      ensures b <==> option in selected
    {
      option in selected
    }
  }
}
