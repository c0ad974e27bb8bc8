/** The selection panel: the quick-pick buttons, the manual entry box with
    its error message, the ascending list of selected numbers, and the
    purchase button. The panel's callbacks are the raffle session's
    operations. */
module SelectionPanel {
  import opened RaffleTypes
  import opened Text
  import opened UseRaffle

  const InvalidNumberError := "Digite um número válido"
  const TakenError := "Número já comprado ou selecionado"

  const RangeErrorPrefix := "O número deve estar entre 1 e "

  /** The message for a number outside 1..maxNumber: a fixed text followed
      by the maximum, which can be read back from it. */
  function RangeError(maxNumber: int): (message: string)
    ensures |message| > |RangeErrorPrefix|
    ensures message[..|RangeErrorPrefix|] == RangeErrorPrefix
    ensures maxNumber >= 0 ==> var digits := message[|RangeErrorPrefix|..];
      AllDigits(digits) && DecimalValue(digits) == maxNumber
  {
    RangeErrorPrefix + IntToDecimal(maxNumber)
  }

  /** The three error messages are distinct, so the user can tell which
      check failed. */
  lemma ErrorsDistinct(maxNumber: int)
    ensures InvalidNumberError != TakenError
    ensures RangeError(maxNumber) != InvalidNumberError && RangeError(maxNumber) != TakenError
  {
    var r := RangeError(maxNumber);
    assert r[0] == 'O' && r[2] == 'n';
    assert InvalidNumberError[0] == 'D' && TakenError[0] == 'N';
  }

  /** The counts offered by the quick-pick buttons. */
  const QuickPickCounts: seq<int> := [2, 5, 10, 20]

  /** The plural ending of "número" and "selecionado". */
  function Plural(count: int): (suffix: string)
    ensures suffix == "s" <==> count > 1
    ensures suffix == "" <==> count <= 1
  {
    if count > 1 then "s" else ""
  }

  /** The word after the count on the purchase button. */
  function NumberWord(count: nat): string {
    " número" + Plural(count)
  }

  /** The purchase button's caption for a selection of `count` numbers: a
      prompt when nothing is selected, otherwise "Comprar ", the count in
      decimal, and "número", in the plural exactly when more than one number
      is selected. */
  function PurchaseLabel(count: nat): (caption: string)
    ensures count == 0 ==> caption == "Selecione números"
    ensures count > 0 ==>
      var tail := |NumberWord(count)|;
      && |caption| > 8 + tail
      && caption[..8] == "Comprar "
      && AllDigits(caption[8..|caption| - tail])
      && DecimalValue(caption[8..|caption| - tail]) == count
      && caption[|caption| - tail..] == NumberWord(count)
    ensures count > 0 ==> (caption[|caption| - 1] == 's' <==> count > 1)
  {
    if count == 0 then "Selecione números"
    else
      var digits := NatToDecimal(count);
      var caption := "Comprar " + digits + NumberWord(count);
      assert caption[8..|caption| - |NumberWord(count)|] == digits;
      caption
  }

  /** The caption above the list of selected numbers; both words take the
      plural exactly when more than one number is selected. */
  function SelectedCountLabel(count: nat): (caption: string)
    ensures |caption| >= 2 && caption[|caption| - 1] == ':'
    ensures caption[|caption| - 2] == 's' <==> count > 1
  {
    NatToDecimal(count) + " número" + Plural(count) + " selecionado" + Plural(count) + ":"
  }

  /** The purchase button is disabled exactly when nothing is selected. */
  predicate PurchaseDisabled(selectedCount: nat) {
    selectedCount == 0
  }

  /** The purchase button is disabled exactly when it shows the prompt
      rather than an offer to buy. */
  lemma DisabledShowsPrompt(count: nat)
    ensures PurchaseDisabled(count) <==> PurchaseLabel(count) == "Selecione números"
  {
    if count != 0 {
      var caption := PurchaseLabel(count);
      assert caption[0] == 'C';
      assert "Selecione números"[0] == 'S';
    }
  }

  /** A click on the i-th quick-pick button asks the session for that many
      random numbers; as the counts are positive, the selection keeps what it
      had and grows by the count, or by every candidate left when there are
      fewer, taking only candidates. Nothing but the selection changes. */
  method QuickPick(button: nat, session: RaffleSession)
    requires button < |QuickPickCounts| && session.Valid()
    modifies session
    ensures session.Valid()
    ensures session.config == old(session.config)
    ensures session.purchasedNumbers == old(session.purchasedNumbers)
    ensures session.purchases == old(session.purchases)
    ensures session.currentPurchase == old(session.currentPurchase)
    ensures old(session.selectedNumbers) <= session.selectedNumbers
    ensures session.selectedNumbers - old(session.selectedNumbers)
      <= Candidates(old(session.config.totalNumbers), old(session.purchasedNumbers), old(session.selectedNumbers))
    ensures var left := |Candidates(old(session.config.totalNumbers), old(session.purchasedNumbers), old(session.selectedNumbers))|;
      |session.selectedNumbers| == |old(session.selectedNumbers)|
        + if QuickPickCounts[button] < left then QuickPickCounts[button] else left
  {
    session.SelectRandomNumbers(QuickPickCounts[button]);
  }

  /** The manual entry box: what was typed and the error shown under it. */
  class ManualEntry {
    var manualNumber: string
    var error: string

    constructor ()
      ensures manualNumber == "" && error == ""
    {
      manualNumber := "";
      error := "";
    }

    /** Typing replaces the text and always clears the error. */
    method OnInputChange(text: string)
      modifies this
      ensures manualNumber == text && error == ""
    {
      manualNumber := text;
      error := "";
    }

    /** `handleAddManual`, given `parseInt` of the typed text (None for
        NaN). Unreadable input and a number outside 1..maxNumber only set
        their error; otherwise the number goes to the session, and on
        success the box and the error are cleared, on failure the text stays
        and the "already taken" error shows. With the panel's maximum equal
        to the raffle's size, that error means exactly that the number was
        sold: a number already selected is accepted again. */
    method HandleAddManual(parsed: Option<int>, maxNumber: int, session: RaffleSession)
      requires session.Valid()
      modifies this, session
      ensures session.Valid()
      ensures session.config == old(session.config)
      ensures session.purchasedNumbers == old(session.purchasedNumbers)
      ensures session.purchases == old(session.purchases)
      ensures session.currentPurchase == old(session.currentPurchase)
      ensures parsed.None? ==>
        && error == InvalidNumberError && manualNumber == old(manualNumber)
        && session.selectedNumbers == old(session.selectedNumbers)
      ensures parsed.Some? && !(1 <= parsed.value <= maxNumber) ==>
        && error == RangeError(maxNumber) && manualNumber == old(manualNumber)
        && session.selectedNumbers == old(session.selectedNumbers)
      ensures parsed.Some? && 1 <= parsed.value <= maxNumber ==>
        var n := parsed.value;
        if n <= session.config.totalNumbers && n !in session.purchasedNumbers then
          && manualNumber == "" && error == ""
          && session.selectedNumbers == old(session.selectedNumbers) + {n}
        else
          && manualNumber == old(manualNumber) && error == TakenError
          && session.selectedNumbers == old(session.selectedNumbers)
      ensures parsed.Some? && 1 <= parsed.value <= maxNumber && maxNumber == session.config.totalNumbers ==>
        (error == TakenError <==> parsed.value in session.purchasedNumbers)
    {
      if parsed.None? {
        error := InvalidNumberError;
        return;
      }
      var num := parsed.value;
      if num < 1 || num > maxNumber {
        error := RangeError(maxNumber);
        return;
      }
      var success := session.AddNumberManually(num);
      if success {
        manualNumber := "";
        error := "";
      } else {
        error := TakenError;
      }
    }
  }
}
