/** The optimization initiatives page: a fixed catalogue of log-reduction
    cards, a risk filter built from selector chips whose labels carry the
    number of cards of each risk, and an "Apply" action that hides a card for
    the rest of the visit. */
module Optimization {
  import opened Text
  import opened Seqs
  import SelectorChips

  /** One card of the catalogue; the display-only texts (volume, period,
      description, reduction, sample lines) do not take part in any
      behaviour and are not modelled. */
  datatype OptimizationCard = OptimizationCard(id: string, title: string, source: string, risk: string)

  const LowRiskLabel := "Low risk"
  const MediumRiskLabel := "Medium risk"
  const HighRiskLabel := "High risk"

  function LowRiskCard(id: string, title: string, source: string): (card: OptimizationCard)
    ensures card.risk == LowRiskLabel
  {
    OptimizationCard(id, title, source, LowRiskLabel)
  }

  /** The catalogue, in display order; each card is a function of its own,
      and long titles are concatenations of short literals, which keeps the
      verifier's work on the catalogue small. */
  function OptimizationCards(): (cards: seq<OptimizationCard>)
    ensures |cards| == 11
  {
    [RemoveDebugLogs(), FirewallHeartbeat(), SystemHeartbeat(), ChromeUpdater(), LinkLocalTraffic(),
     GoogleDns(), OutlookEvents(), AuthSuccess(), AllowedTraffic(), CloudFront200(), EntraInfo()]
  }

  function RemoveDebugLogs(): (c: OptimizationCard) ensures c.risk == LowRiskLabel {
    LowRiskCard("remove-debug-logs", "Remove Debug Logs", "Windows Event Logs")
  }
  function FirewallHeartbeat(): (c: OptimizationCard) ensures c.risk == LowRiskLabel {
    LowRiskCard("firewall-heartbeat", "Filter Firewall " + "Heartbeat Events", "Firewall Logs")
  }
  function SystemHeartbeat(): (c: OptimizationCard) ensures c.risk == LowRiskLabel {
    LowRiskCard("system-heartbeat", "Filter System Heartbeats", "Linux System Logs")
  }
  function ChromeUpdater(): (c: OptimizationCard) ensures c.risk == LowRiskLabel {
    LowRiskCard("chrome-updater", "Filter Chrome " + "Updater Events", "Windows Event Logs")
  }
  function LinkLocalTraffic(): (c: OptimizationCard) ensures c.risk == LowRiskLabel {
    LowRiskCard("link-local-traffic", "Filter Link-Local " + "Traffic", "Network Logs")
  }
  function GoogleDns(): (c: OptimizationCard) ensures c.risk == LowRiskLabel {
    LowRiskCard("google-dns", "Filter Google DNS " + "Requests", "DNS Logs")
  }
  function OutlookEvents(): (c: OptimizationCard) ensures c.risk == LowRiskLabel {
    LowRiskCard("outlook-events", "Filter Outlook " + "Execution Events", "Sysmon")
  }
  function AuthSuccess(): (c: OptimizationCard) ensures c.risk == LowRiskLabel {
    LowRiskCard("auth-success", "Filter Successful " + "Authentication Logs", "Authentication Logs")
  }
  function AllowedTraffic(): (c: OptimizationCard) ensures c.risk == LowRiskLabel {
    LowRiskCard("allowed-traffic", "Drop Allowed " + "Traffic Logs", "Firewall Logs")
  }
  function CloudFront200(): (c: OptimizationCard) ensures c.risk == MediumRiskLabel {
    OptimizationCard("cloudfront-200", "Filter 200 OK Responses", "AWS CloudFront Logs", MediumRiskLabel)
  }
  function EntraInfo(): (c: OptimizationCard) ensures c.risk == LowRiskLabel {
    LowRiskCard("entra-info", "Suppress Info Level Logs", "Entra ID Audit Logs")
  }

  // ---------------------------------------------------------------------------
  // Applying a card

  /** `handleApplyOptimization`: the card's id joins the applied set. */
  function Apply(applied: set<string>, cardId: string): (r: set<string>)
    ensures cardId in r && applied <= r && r - applied <= {cardId}
  {
    applied + {cardId}
  }

  /** Applying the same card again changes nothing. */
  lemma ApplyIdempotent(applied: set<string>, cardId: string)
    ensures Apply(Apply(applied, cardId), cardId) == Apply(applied, cardId)
  {
  }

  /** The description of the success toast. */
  function AppliedMessage(cardTitle: string): (m: string)
    ensures StartsWith(m, cardTitle)
  {
    cardTitle + " has been applied " + "to your log sources."
  }

  // ---------------------------------------------------------------------------
  // Which cards are shown

  predicate Unapplied(applied: set<string>, card: OptimizationCard) {
    card.id !in applied
  }

  predicate Shown(selectedRisks: seq<string>, applied: set<string>, card: OptimizationCard) {
    card.id !in applied && card.risk in selectedRisks
  }

  /** `filteredCards`: the unapplied cards, narrowed to the selected risks
      unless no risk is selected. */
  function FilteredCards(cards: seq<OptimizationCard>, selectedRisks: seq<string>, applied: set<string>): (r: seq<OptimizationCard>)
    ensures IsSubsequence(r, cards)
    ensures forall i :: 0 <= i < |r| ==> r[i].id !in applied
    ensures selectedRisks != [] ==> forall i :: 0 <= i < |r| ==> r[i].risk in selectedRisks
  {
    var unapplied := Filter(cards, (c: OptimizationCard) => Unapplied(applied, c));
    if |selectedRisks| == 0 then unapplied
    else
      var r := Filter(unapplied, (c: OptimizationCard) => c.risk in selectedRisks);
      assert IsSubsequence(r, cards) by {
        FilterFilter(cards, (c: OptimizationCard) => Unapplied(applied, c), (c: OptimizationCard) => c.risk in selectedRisks, (c: OptimizationCard) => Shown(selectedRisks, applied, c));
      }
      r
  }

  /** With no risk selected every unapplied card is shown, in catalogue order. */
  lemma NoSelectionShowsUnapplied(cards: seq<OptimizationCard>, applied: set<string>)
    ensures FilteredCards(cards, [], applied) == Filter(cards, (c: OptimizationCard) => Unapplied(applied, c))
    ensures applied == {} ==> FilteredCards(cards, [], applied) == cards
  {
    if applied == {} {
      FilterAll(cards, (c: OptimizationCard) => Unapplied(applied, c));
    }
  }

  /** With a selection, the shown cards are exactly the unapplied cards whose
      risk label is selected, in catalogue order. */
  lemma SelectionShowsExactly(cards: seq<OptimizationCard>, selectedRisks: seq<string>, applied: set<string>)
    requires selectedRisks != []
    ensures FilteredCards(cards, selectedRisks, applied) == Filter(cards, (c: OptimizationCard) => Shown(selectedRisks, applied, c))
  {
    FilterFilter(cards, (c: OptimizationCard) => Unapplied(applied, c), (c: OptimizationCard) => c.risk in selectedRisks, (c: OptimizationCard) => Shown(selectedRisks, applied, c));
  }

  /** Applying a card removes exactly the cards with that id from the shown
      list and leaves the rest in order. */
  lemma ApplyHidesOnlyThatCard(cards: seq<OptimizationCard>, selectedRisks: seq<string>, applied: set<string>, cardId: string)
    ensures FilteredCards(cards, selectedRisks, Apply(applied, cardId))
         == Filter(FilteredCards(cards, selectedRisks, applied), (c: OptimizationCard) => c.id != cardId)
  {
    var after := Apply(applied, cardId);
    if selectedRisks == [] {
      FilterFilter(cards, (c: OptimizationCard) => Unapplied(applied, c), (c: OptimizationCard) => c.id != cardId, (c: OptimizationCard) => Unapplied(after, c));
    } else {
      SelectionShowsExactly(cards, selectedRisks, applied);
      SelectionShowsExactly(cards, selectedRisks, after);
      FilterFilter(cards, (c: OptimizationCard) => Shown(selectedRisks, applied, c), (c: OptimizationCard) => c.id != cardId, (c: OptimizationCard) => Shown(selectedRisks, after, c));
    }
  }

  // ---------------------------------------------------------------------------
  // Risk counts and chip labels

  /** The three counters of `riskCounts`. */
  datatype RiskCounts = RiskCounts(low: nat, medium: nat, high: nat)

  /** The number of cards labelled exactly `riskLabel`. */
  function CountRisk(cards: seq<OptimizationCard>, riskLabel: string): (n: nat)
    ensures n <= |cards|
  {
    Count(cards, (c: OptimizationCard) => c.risk == riskLabel)
  }

  predicate IsKnownRisk(risk: string) {
    risk == LowRiskLabel || risk == MediumRiskLabel || risk == HighRiskLabel
  }

  /** `riskCounts`: one pass over the cards, incrementing the counter whose
      key is the card's label; a label without a counter is skipped. */
  method ComputeRiskCounts(cards: seq<OptimizationCard>) returns (counts: RiskCounts)
    ensures counts == RiskCounts(CountRisk(cards, LowRiskLabel), CountRisk(cards, MediumRiskLabel), CountRisk(cards, HighRiskLabel))
  {
    counts := RiskCounts(0, 0, 0);
    var i := 0;
    while i < |cards|
      invariant 0 <= i <= |cards|
      invariant counts == RiskCounts(CountRisk(cards[..i], LowRiskLabel), CountRisk(cards[..i], MediumRiskLabel), CountRisk(cards[..i], HighRiskLabel))
    {
      var risk := cards[i].risk;
      if risk == LowRiskLabel {
        counts := counts.(low := counts.low + 1);
      } else if risk == MediumRiskLabel {
        counts := counts.(medium := counts.medium + 1);
      } else if risk == HighRiskLabel {
        counts := counts.(high := counts.high + 1);
      }
      assert cards[..i + 1][..i] == cards[..i];
      i := i + 1;
    }
    assert cards[..|cards|] == cards;
  }

  /** Every card with a known label is counted once, and no other card is. */
  lemma {:induction false} CountsCoverKnownRisks(cards: seq<OptimizationCard>)
    ensures CountRisk(cards, LowRiskLabel) + CountRisk(cards, MediumRiskLabel) + CountRisk(cards, HighRiskLabel)
         == Count(cards, (c: OptimizationCard) => IsKnownRisk(c.risk))
    decreases |cards|
  {
    if cards != [] {
      CountsCoverKnownRisks(cards[..|cards| - 1]);
    }
  }

  /** `riskOptions`: the chip labels, "<label> (<count>)" for Low, Medium and
      High in that order. */
  function RiskOptions(counts: RiskCounts): (options: seq<string>)
    ensures |options| == 3
    ensures options[0] == LowRiskLabel + " (" + NatToString(counts.low) + ")"
    ensures options[1] == MediumRiskLabel + " (" + NatToString(counts.medium) + ")"
    ensures options[2] == HighRiskLabel + " (" + NatToString(counts.high) + ")"
  {
    [ LowRiskLabel + " (" + NatToString(counts.low) + ")",
      MediumRiskLabel + " (" + NatToString(counts.medium) + ")",
      HighRiskLabel + " (" + NatToString(counts.high) + ")" ]
  }

  /** What the chips report for the risk options is the card labels: the
      count suffix is stripped, so a selected chip matches the cards of its
      risk. */
  lemma RiskOptionsStripToLabels(counts: RiskCounts)
    ensures SelectorChips.BaseSelection(RiskOptions(counts)) == [LowRiskLabel, MediumRiskLabel, HighRiskLabel]
  {
    var options := RiskOptions(counts);
    var r := SelectorChips.BaseSelection(options);
    StripLowOption(counts.low);
    StripMediumOption(counts.medium);
    StripHighOption(counts.high);
    assert r[0] == LowRiskLabel && r[1] == MediumRiskLabel && r[2] == HighRiskLabel;
  }

  lemma StripLowOption(n: nat)
    ensures SelectorChips.StripCount(LowRiskLabel + " (" + NatToString(n) + ")") == LowRiskLabel
  {
    SelectorChips.StripCountOfLabel(LowRiskLabel, n);
  }

  lemma StripMediumOption(n: nat)
    ensures SelectorChips.StripCount(MediumRiskLabel + " (" + NatToString(n) + ")") == MediumRiskLabel
  {
    SelectorChips.StripCountOfLabel(MediumRiskLabel, n);
  }

  lemma StripHighOption(n: nat)
    ensures SelectorChips.StripCount(HighRiskLabel + " (" + NatToString(n) + ")") == HighRiskLabel
  {
    SelectorChips.StripCountOfLabel(HighRiskLabel, n);
  }

  /** A run of cards sharing one label counts fully for it and not at all for
      any other label. */
  lemma {:induction false} CountUniform(cards: seq<OptimizationCard>, risk: string, other: string)
    requires forall i :: 0 <= i < |cards| ==> cards[i].risk == risk
    ensures CountRisk(cards, risk) == |cards|
    ensures other != risk ==> CountRisk(cards, other) == 0
  {
    if cards != [] {
      CountUniform(cards[..|cards| - 1], risk, other);
    }
  }

  /** The counts of the shown catalogue: ten low-risk cards, one medium and
      none high. */
  lemma CatalogueCounts()
    ensures CountRisk(OptimizationCards(), LowRiskLabel) == 10
    ensures CountRisk(OptimizationCards(), MediumRiskLabel) == 1
    ensures CountRisk(OptimizationCards(), HighRiskLabel) == 0
  {
    var cards := OptimizationCards();
    var routine := cards[..9];
    assert cards == routine + [cards[9]] + [cards[10]];
    assert forall i :: 0 <= i < |routine| ==> routine[i].risk == LowRiskLabel;
    CountUniform(routine, LowRiskLabel, MediumRiskLabel);
    CountUniform(routine, LowRiskLabel, HighRiskLabel);
    CountAppend(routine, [cards[9]], (c: OptimizationCard) => c.risk == LowRiskLabel);
    CountAppend(routine + [cards[9]], [cards[10]], (c: OptimizationCard) => c.risk == LowRiskLabel);
    CountAppend(routine, [cards[9]], (c: OptimizationCard) => c.risk == MediumRiskLabel);
    CountAppend(routine + [cards[9]], [cards[10]], (c: OptimizationCard) => c.risk == MediumRiskLabel);
    CountAppend(routine, [cards[9]], (c: OptimizationCard) => c.risk == HighRiskLabel);
    CountAppend(routine + [cards[9]], [cards[10]], (c: OptimizationCard) => c.risk == HighRiskLabel);
  }

  // ---------------------------------------------------------------------------
  // Tag colours

  const GreenTag := "bg-green-50 text-green-700 " + "border-green-200"
  const OrangeTag := "bg-orange-50 text-orange-700 " + "border-orange-200"
  const RedTag := "bg-red-50 text-red-700 " + "border-red-200"
  const SlateTag := "bg-slate-50 text-slate-700 " + "border-slate-200"

  /** `getRiskTagColors`: the badge classes of a card's risk, chosen by the
      same "low", "medium", "high" tests as the chip colours. */
  function RiskTagColors(risk: string): (classes: string)
    ensures var level := SelectorChips.LevelOfText(ToLower(risk));
            (level == SelectorChips.LowRisk ==> classes == GreenTag) &&
            (level == SelectorChips.MediumRisk ==> classes == OrangeTag) &&
            (level == SelectorChips.HighRisk ==> classes == RedTag) &&
            (level == SelectorChips.OtherRisk ==> classes == SlateTag)
  {
    match SelectorChips.LevelOfText(ToLower(risk))
    case LowRisk => GreenTag
    case MediumRisk => OrangeTag
    case HighRisk => RedTag
    case OtherRisk => SlateTag
  }

  lemma LowLabelLevel()
    ensures SelectorChips.LevelOfText(ToLower(LowRiskLabel)) == SelectorChips.LowRisk
  {
    LowerLowLabel();
    StartsWithContains("low risk", "low");
  }

  lemma MediumLabelLevel()
    ensures SelectorChips.LevelOfText(ToLower(MediumRiskLabel)) == SelectorChips.MediumRisk
  {
    LowerMediumLabel();
    MediumText();
  }

  lemma MediumText()
    ensures SelectorChips.LevelOfText("medium risk") == SelectorChips.MediumRisk
  {
    StartsWithContains("medium risk", "medium");
    SelectorChips.NoLetter("medium risk", "low", 'w');
  }

  lemma HighLabelLevel()
    ensures SelectorChips.LevelOfText(ToLower(HighRiskLabel)) == SelectorChips.HighRisk
  {
    LowerHighLabel();
    HighText();
  }

  lemma HighText()
    ensures SelectorChips.LevelOfText("high risk") == SelectorChips.HighRisk
  {
    StartsWithContains("high risk", "high");
    HighTextLacksLow();
    HighTextLacksMedium();
  }

  lemma HighTextLacksLow()
    ensures !Contains("high risk", "low")
  {
    SelectorChips.NoLetter("high risk", "low", 'l');
  }

  lemma HighTextLacksMedium()
    ensures !Contains("high risk", "medium")
  {
    SelectorChips.NoLetter("high risk", "medium", 'm');
  }

  lemma LowerLowLabel() ensures ToLower(LowRiskLabel) == "low risk" { }
  lemma LowerMediumLabel() ensures ToLower(MediumRiskLabel) == "medium risk" { }
  lemma LowerHighLabel() ensures ToLower(HighRiskLabel) == "high risk" { }

  /** A risk chip and a card with that risk get the same colour family: the
      chip label, stripped of its count, names the card's level. The Low
      chip is green-family and so is a "Low risk" tag. */
  lemma LowChipAndTagAgree(counts: RiskCounts)
    ensures SelectorChips.ChipRiskLevel(RiskOptions(counts)[0]) == SelectorChips.LowRisk
    ensures RiskTagColors(LowRiskLabel) == GreenTag
  {
    SelectorChips.CountedLabelLevel(LowRiskLabel, counts.low);
    LowLabelLevel();
  }

  lemma MediumChipAndTagAgree(counts: RiskCounts)
    ensures SelectorChips.ChipRiskLevel(RiskOptions(counts)[1]) == SelectorChips.MediumRisk
    ensures RiskTagColors(MediumRiskLabel) == OrangeTag
  {
    SelectorChips.CountedLabelLevel(MediumRiskLabel, counts.medium);
    MediumLabelLevel();
  }

  lemma HighChipAndTagAgree(counts: RiskCounts)
    ensures SelectorChips.ChipRiskLevel(RiskOptions(counts)[2]) == SelectorChips.HighRisk
    ensures RiskTagColors(HighRiskLabel) == RedTag
  {
    SelectorChips.CountedLabelLevel(HighRiskLabel, counts.high);
    HighLabelLevel();
  }

  // ---------------------------------------------------------------------------
  // Page state

  class OptimizationPage {
    var selectedRisks: seq<string>
    var appliedCards: set<string>

    constructor ()
      ensures selectedRisks == [] && appliedCards == {}
    {
      selectedRisks := [];
      appliedCards := {};
    }

    /** The cards on screen. */
    function VisibleCards(): (r: seq<OptimizationCard>)
      reads this
      ensures IsSubsequence(r, OptimizationCards())
    {
      FilteredCards(OptimizationCards(), selectedRisks, appliedCards)
    }

    /** The chips' `onChange`: the page stores the stripped selection. */
    method SetSelectedRisks(risks: seq<string>)
      modifies this
      ensures selectedRisks == risks && appliedCards == old(appliedCards)
    {
      selectedRisks := risks;
    }

    /** `handleApplyOptimization`: the card joins the applied set and the
        toast describes it. */
    method HandleApplyOptimization(cardId: string, cardTitle: string) returns (toastDescription: string)
      modifies this
      ensures appliedCards == Apply(old(appliedCards), cardId) && selectedRisks == old(selectedRisks)
      ensures VisibleCards() == Filter(old(VisibleCards()), (c: OptimizationCard) => c.id != cardId)
      ensures toastDescription == AppliedMessage(cardTitle)
    {
      ApplyHidesOnlyThatCard(OptimizationCards(), selectedRisks, appliedCards, cardId);
      appliedCards := appliedCards + {cardId};
      toastDescription := AppliedMessage(cardTitle);
    }

    /** `riskOptions`: computed from the whole catalogue, whatever has been
        applied. */
    method RiskChipOptions() returns (options: seq<string>)
      ensures options == RiskOptions(RiskCounts(10, 1, 0))
    {
      var counts := ComputeRiskCounts(OptimizationCards());
      CatalogueCounts();
      options := RiskOptions(counts);
    }
  }
}
