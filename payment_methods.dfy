/**
  The payment-method accordion: four panels, of which the one whose id is
  held in `expandedPanel` is open, and the buttons inside the panels that
  report a method to the checkout page.
 */
module PaymentMethods {
  import opened Wrappers
  import opened Seqs

  /** The panels, in display order. */
  const MethodIds: seq<string> := ["qris", "ewallet", "va", "card"]

  const Wallets: seq<string> := ["GoPay", "OVO", "Dana", "ShopeePay"]
  const Banks: seq<string> := ["BCA", "BNI", "Mandiri", "BRI"]

  lemma MethodIdsDistinct()
    ensures Distinct(MethodIds)
    ensures "" !in MethodIds
  {
  }

  /** The panels drawn open for a given `expandedPanel`. */
  function OpenPanels(expandedPanel: string): (r: seq<string>)
    ensures forall id :: id in r <==> id in MethodIds && id == expandedPanel
  {
    Filter(id => id == expandedPanel, MethodIds)
  }

  /** Whatever `expandedPanel` holds, at most one panel is open, and exactly
      one when it names a panel. */
  lemma AtMostOneOpen(expandedPanel: string)
    ensures |OpenPanels(expandedPanel)| <= 1
    ensures expandedPanel in MethodIds ==> OpenPanels(expandedPanel) == [expandedPanel]
    ensures expandedPanel !in MethodIds ==> OpenPanels(expandedPanel) == []
  {
    MethodIdsDistinct();
    FilterSingleton(id => id == expandedPanel, expandedPanel, MethodIds);
  }

  /** A button inside a panel's details. */
  datatype OptionButton = GenerateQr | Wallet(wallet: string) | Bank(bank: string)

  /** The buttons drawn inside each panel. */
  function ButtonsIn(panel: string): seq<OptionButton> {
    if panel == "qris" then [GenerateQr]
    else if panel == "ewallet" then seq(|Wallets|, i requires 0 <= i < |Wallets| => Wallet(Wallets[i]))
    else if panel == "va" then seq(|Banks|, i requires 0 <= i < |Banks| => Bank(Banks[i]))
    else []
  }

  /** The method a button passes to `onMethodSelect`. */
  function ReportedMethod(b: OptionButton): string {
    match b
    case GenerateQr => "qris"
    case Wallet(_) => "ewallet"
    case Bank(_) => "va"
  }

  /** Every button reports the panel it sits in. */
  lemma ButtonsReportTheirPanel(panel: string, b: OptionButton)
    requires b in ButtonsIn(panel)
    ensures ReportedMethod(b) == panel
  {
  }

  class Accordion {
    var expandedPanel: string

    constructor ()
      ensures expandedPanel == "qris"
      ensures OpenPanels(expandedPanel) == ["qris"]
    {
      expandedPanel := "qris";
      AtMostOneOpen("qris");
    }

    /** `handleAccordionChange(panel)(event, isExpanded)`: opening a panel
        records and reports it; closing one leaves every panel closed and
        reports nothing. */
    method Change(panel: string, isExpanded: bool) returns (reported: Option<string>)
      modifies this
      ensures isExpanded ==> expandedPanel == panel && reported == Some(panel)
      ensures !isExpanded ==> expandedPanel == "" && reported == None
      ensures !isExpanded ==> OpenPanels(expandedPanel) == []
      ensures isExpanded && panel in MethodIds ==> OpenPanels(expandedPanel) == [panel]
      ensures |OpenPanels(expandedPanel)| <= 1
    {
      expandedPanel := if isExpanded then panel else "";
      reported := if isExpanded then Some(panel) else None;
      MethodIdsDistinct();
      AtMostOneOpen(expandedPanel);
    }

    /** A click on a button inside a panel: reports a method, leaves the
        accordion as it is. */
    method Press(b: OptionButton) returns (reported: string)
      ensures reported == ReportedMethod(b)
    {
      reported := ReportedMethod(b);
    }
  }
}
