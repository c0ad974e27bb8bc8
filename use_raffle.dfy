/** The raffle session behind the `useRaffle` hook: the configuration, the
    sold numbers, the current user's selection, the purchase history and
    the one pending purchase. Every hook operation is one atomic method of
    `RaffleSession`. */
module UseRaffle {
  import opened RaffleTypes
  import opened Text

  const DefaultConfig := RaffleConfig(
    10,
    100,
    "iPhone 15 Pro Max",
    "Concorra a um iPhone 15 Pro Max 256GB novinho! Escolha seus números da sorte.",
    [],
    None)

  /** The numbers already sold when a session starts. */
  const SeedPurchased: set<int> := {3, 7, 15, 22, 45, 67, 89}

  // ---------------------------------------------------------------------
  // The payment code

  const PixAlphabet := "ABCDEFGHIJKLMNOPQRSTUVWXYZ0123456789"
  const PixPrefix := "00020126580014BR.GOV.BCB.PIX0136"
  const PixSuffix := "5204000053039865802BR5925RIFA DIGITAL6009SAO PAULO62070503***6304"
  const PixRandomLength := 36

  /** `Math.floor(r * chars.length)` for a draw `r` of `Math.random()`. */
  function AlphabetIndex(r: real): (k: nat)
    requires 0.0 <= r < 1.0
    ensures k < |PixAlphabet|
  {
    (r * (|PixAlphabet| as real)).Floor
  }

  /** The random draws one payment code consumes, each in [0, 1). */
  predicate IsRandomDraws(draws: seq<real>) {
    |draws| == PixRandomLength && forall i :: 0 <= i < |draws| ==> 0.0 <= draws[i] < 1.0
  }

  /** An upper-case Latin letter or a decimal digit. */
  predicate IsPixChar(c: char) {
    'A' <= c <= 'Z' || '0' <= c <= '9'
  }

  /** The alphabet holds 36 characters, all upper-case letters or digits. */
  lemma PixAlphabetChars()
    ensures |PixAlphabet| == PixRandomLength
    ensures forall k :: 0 <= k < |PixAlphabet| ==> IsPixChar(PixAlphabet[k])
  {
  }

  /** The fixed parts: a 32-character prefix and a 65-character suffix that
      ends in the CRC tag "6304". */
  lemma PixFrame()
    ensures |PixPrefix| == 32 && |PixSuffix| == 65
    ensures PixSuffix[61..] == "6304"
  {
  }

  /** The fixed shape of every generated payment code: the prefix, a run of
      upper-case letters and digits, the suffix. */
  predicate IsPixCode(code: string) {
    && |code| == |PixPrefix| + PixRandomLength + |PixSuffix|
    && code[..|PixPrefix|] == PixPrefix
    && (forall i :: |PixPrefix| <= i < |PixPrefix| + PixRandomLength ==> IsPixChar(code[i]))
    && code[|PixPrefix| + PixRandomLength..] == PixSuffix
  }

  /** `generatePixCode`, with the draws of `Math.random()` as a parameter:
      a 133-character code ending in the CRC tag "6304", whose middle
      characters are the alphabet entries the draws pick. */
  method GeneratePixCode(draws: seq<real>) returns (code: string)
    requires IsRandomDraws(draws)
    ensures IsPixCode(code)
    ensures |code| == 133 && code[|code| - 4..] == "6304"
    ensures forall i :: 0 <= i < PixRandomLength ==>
      code[|PixPrefix| + i] == PixAlphabet[AlphabetIndex(draws[i])]
  {
    PixAlphabetChars();
    PixFrame();
    code := PixPrefix;
    var i := 0;
    while i < PixRandomLength
      invariant 0 <= i <= PixRandomLength
      invariant |code| == |PixPrefix| + i
      invariant code[..|PixPrefix|] == PixPrefix
      invariant forall j :: 0 <= j < i ==> code[|PixPrefix| + j] == PixAlphabet[AlphabetIndex(draws[j])]
      invariant forall j :: |PixPrefix| <= j < |code| ==> IsPixChar(code[j])
    {
      code := code + [PixAlphabet[AlphabetIndex(draws[i])]];
      i := i + 1;
    }
    code := code + PixSuffix;
    assert code[|code| - 4..] == PixSuffix[61..];
  }

  // ---------------------------------------------------------------------
  // The selection engine, as functions of the sets involved

  /** The selection after `toggleNumber(num)`: unchanged for a sold number,
      otherwise `num` changes sides and nothing else does. */
  function Toggled(selected: set<int>, purchased: set<int>, num: int): (r: set<int>)
    ensures num in purchased ==> r == selected
    ensures num !in purchased ==> (num in r <==> num !in selected)
    ensures r - {num} == selected - {num}
  {
    if num in purchased then selected
    else if num in selected then selected - {num}
    else selected + {num}
  }

  /** Toggling the same number twice restores the selection. */
  lemma ToggleTwice(selected: set<int>, purchased: set<int>, num: int)
    ensures Toggled(Toggled(selected, purchased, num), purchased, num) == selected
  {
    var once := Toggled(selected, purchased, num);
    var twice := Toggled(once, purchased, num);
    forall n
      ensures n in twice <==> n in selected
    {
      if n != num {
        assert n in twice <==> n in twice - {num};
        assert n in selected <==> n in selected - {num};
      }
    }
  }

  /** A toggle never puts a sold number into the selection. */
  lemma ToggleKeepsDisjoint(selected: set<int>, purchased: set<int>, num: int)
    requires selected !! purchased
    ensures Toggled(selected, purchased, num) !! purchased
  {
    var r := Toggled(selected, purchased, num);
    forall n | n in r
      ensures n !in purchased
    {
      if n != num {
        assert n in r - {num};
      }
    }
  }

  /** The numbers a random fill may pick: in range, not sold, not selected. */
  function Candidates(totalNumbers: int, purchased: set<int>, selected: set<int>): (c: set<int>)
    ensures forall n :: n in c <==> 1 <= n <= totalNumbers && n !in purchased && n !in selected
  {
    set n | 1 <= n <= totalNumbers && n !in purchased && n !in selected
  }

  /** The loop that lists the candidates of a random fill, in ascending
      order. */
  method CollectAvailable(totalNumbers: int, purchased: set<int>, selected: set<int>)
    returns (available: seq<int>)
    ensures StrictlyAscending(available)
    ensures Elements(available) == Candidates(totalNumbers, purchased, selected)
  {
    available := [];
    var i := 1;
    while i <= totalNumbers
      invariant 1 <= i <= if totalNumbers >= 1 then totalNumbers + 1 else 1
      invariant StrictlyAscending(available)
      invariant forall j :: 0 <= j < |available| ==> available[j] < i
      invariant forall n :: n in available <==> 1 <= n < i && n !in purchased && n !in selected
    {
      if i !in purchased && i !in selected {
        available := available + [i];
      }
      i := i + 1;
    }
    forall n
      ensures n in Elements(available) <==> n in Candidates(totalNumbers, purchased, selected)
    {
      assert n in Elements(available) <==> n in available;
    }
  }

  /** How many elements `list.slice(0, Math.min(count, list.length))` keeps
      of a list of `length` elements: `count` of them, at most all of them;
      a negative end counts back from the end of the list. */
  function TakeCount(count: int, length: nat): (k: nat)
    ensures k <= length
    ensures count >= 0 ==> k == if count < length then count else length
  {
    if count >= length then length
    else if count >= 0 then count
    else if length + count > 0 then length + count
    else 0
  }

  /** A confirmed record of the history whose numbers are all sold. */
  ghost predicate IsConfirmedRecord(p: Purchase, purchased: set<int>) {
    p.status == Confirmed && p.confirmedAt.Some? && Elements(p.numbers) <= purchased
  }

  class RaffleSession {
    var config: RaffleConfig
    var purchasedNumbers: set<int>
    var selectedNumbers: set<int>
    var purchases: seq<Purchase>
    var currentPurchase: Option<Purchase>

    /** The session invariant: no number is both selected and sold, every
        record of the history is confirmed and its numbers are sold, the
        pending slot holds a pending purchase of distinct unsold numbers, and
        the sold numbers are the seed plus exactly as many as the confirmed
        records hold. */
    ghost predicate Valid()
      reads this
    {
      && selectedNumbers !! purchasedNumbers
      && (forall i :: 0 <= i < |purchases| ==> IsConfirmedRecord(purchases[i], purchasedNumbers))
      && (currentPurchase.Some? ==>
            && currentPurchase.value.status == Pending
            && StrictlyAscending(currentPurchase.value.numbers)
            && Elements(currentPurchase.value.numbers) !! purchasedNumbers)
      && SeedPurchased <= purchasedNumbers
      && |purchasedNumbers| == |SeedPurchased| + ConfirmedNumberCount(purchases)
    }

    constructor (initialConfig: ConfigUpdate)
      ensures Valid()
      ensures config == Merge(DefaultConfig, initialConfig)
      ensures purchasedNumbers == SeedPurchased && selectedNumbers == {}
      ensures purchases == [] && currentPurchase == None
    {
      config := Merge(DefaultConfig, initialConfig);
      purchasedNumbers := SeedPurchased;
      selectedNumbers := {};
      purchases := [];
      currentPurchase := None;
    }

    /** `getNumberStatus`: selection wins over sale; under the session
        invariant that precedence never hides a sold number. */
    function GetNumberStatus(num: int): (s: NumberStatus)
      reads this
      ensures s == Selected <==> num in selectedNumbers
      ensures s == Purchased <==> num !in selectedNumbers && num in purchasedNumbers
      ensures s == Available <==> num !in selectedNumbers && num !in purchasedNumbers
      ensures Valid() ==> (s == Purchased <==> num in purchasedNumbers)
    {
      if num in selectedNumbers then Selected
      else if num in purchasedNumbers then Purchased
      else Available
    }

    method ToggleNumber(num: int)
      requires Valid()
      modifies this
      ensures Valid()
      ensures selectedNumbers == Toggled(old(selectedNumbers), old(purchasedNumbers), num)
      ensures config == old(config) && purchasedNumbers == old(purchasedNumbers)
      ensures purchases == old(purchases) && currentPurchase == old(currentPurchase)
    {
      if num in purchasedNumbers {
        return;
      }
      ToggleKeepsDisjoint(selectedNumbers, purchasedNumbers, num);
      if num in selectedNumbers {
        selectedNumbers := selectedNumbers - {num};
      } else {
        selectedNumbers := selectedNumbers + {num};
      }
    }

    /** `selectRandomNumbers(count)`: the shuffle and slice pick an arbitrary
        subset of the candidates of the size the slice keeps; every old
        selection stays and every added number is a candidate. */
    method SelectRandomNumbers(count: int)
      requires Valid()
      modifies this
      ensures Valid()
      ensures old(selectedNumbers) <= selectedNumbers
      ensures selectedNumbers - old(selectedNumbers)
        <= Candidates(config.totalNumbers, purchasedNumbers, old(selectedNumbers))
      ensures |selectedNumbers| == |old(selectedNumbers)|
        + TakeCount(count, |Candidates(config.totalNumbers, purchasedNumbers, old(selectedNumbers))|)
      ensures config == old(config) && purchasedNumbers == old(purchasedNumbers)
      ensures purchases == old(purchases) && currentPurchase == old(currentPurchase)
    {
      var available := CollectAvailable(config.totalNumbers, purchasedNumbers, selectedNumbers);
      var k := TakeCount(count, |available|);
      AscendingCardinality(available);
      ghost var prefix := available[..k];
      assert StrictlyAscending(prefix);
      AscendingCardinality(prefix);
      assert Elements(prefix) <= Elements(available);
      var toSelect: set<int> :| toSelect <= Elements(available) && |toSelect| == k;
      assert toSelect !! selectedNumbers;
      selectedNumbers := selectedNumbers + toSelect;
    }

    method ClearSelection()
      requires Valid()
      modifies this
      ensures Valid()
      ensures selectedNumbers == {}
      ensures config == old(config) && purchasedNumbers == old(purchasedNumbers)
      ensures purchases == old(purchases) && currentPurchase == old(currentPurchase)
    {
      selectedNumbers := {};
    }

    /** `addNumberManually(num)`: refuses a number out of range or sold and
        changes nothing; otherwise adds it (a no-op for a number already
        selected) and reports success. */
    method AddNumberManually(num: int) returns (ok: bool)
      requires Valid()
      modifies this
      ensures Valid()
      ensures ok <==> 1 <= num <= config.totalNumbers && num !in purchasedNumbers
      ensures selectedNumbers == if ok then old(selectedNumbers) + {num} else old(selectedNumbers)
      ensures config == old(config) && purchasedNumbers == old(purchasedNumbers)
      ensures purchases == old(purchases) && currentPurchase == old(currentPurchase)
    {
      if num < 1 || num > config.totalNumbers {
        return false;
      }
      if num in purchasedNumbers {
        return false;
      }
      selectedNumbers := selectedNumbers + {num};
      ok := true;
    }

    /** `totalAmount`: the price of the current selection. */
    function TotalAmount(): (amount: int)
      reads this
      ensures selectedNumbers == {} ==> amount == 0
      ensures config.pricePerNumber >= 0 ==> amount >= 0
    {
      |selectedNumbers| * config.pricePerNumber
    }

    /** `createPurchase`, with the clock and the code's random draws as
        parameters: the pending slot now holds a pending purchase of the
        selection in ascending order, priced at the unit price per number.
        Neither an empty selection nor an earlier pending purchase stops it. */
    method CreatePurchase(now: nat, draws: seq<real>) returns (purchase: Purchase)
      requires Valid() && IsRandomDraws(draws)
      modifies this
      ensures Valid()
      ensures currentPurchase == Some(purchase)
      ensures purchase.id == "PUR-" + NatToDecimal(now)
      ensures purchase.status == Pending && purchase.createdAt == now && purchase.confirmedAt == None
      ensures StrictlyAscending(purchase.numbers) && Elements(purchase.numbers) == selectedNumbers
      ensures |purchase.numbers| == |selectedNumbers|
      ensures purchase.amount == |purchase.numbers| * config.pricePerNumber
      ensures purchase.pixCode.Some? && IsPixCode(purchase.pixCode.value)
      ensures config == old(config) && purchasedNumbers == old(purchasedNumbers)
      ensures selectedNumbers == old(selectedNumbers) && purchases == old(purchases)
    {
      var numbers := SortedElements(selectedNumbers);
      var code := GeneratePixCode(draws);
      purchase := Purchase("PUR-" + NatToDecimal(now), numbers, TotalAmount(), Pending, now, None, Some(code));
      currentPurchase := Some(purchase);
    }

    /** `confirmPurchase`, with the clock as a parameter. Without a pending
        purchase nothing happens and nothing is returned. Otherwise the
        purchase, stamped confirmed, is appended to the history, its numbers
        become sold, and the selection and the pending slot are emptied. */
    method ConfirmPurchase(now: nat) returns (confirmed: Option<Purchase>)
      requires Valid()
      modifies this
      ensures Valid()
      ensures config == old(config)
      ensures old(currentPurchase).None? ==>
        && confirmed == None
        && purchasedNumbers == old(purchasedNumbers) && selectedNumbers == old(selectedNumbers)
        && purchases == old(purchases) && currentPurchase == None
      ensures old(currentPurchase).Some? ==>
        && confirmed == Some(old(currentPurchase).value.(status := Confirmed, confirmedAt := Some(now)))
        && purchases == old(purchases) + [confirmed.value]
        && purchasedNumbers == old(purchasedNumbers) + Elements(old(currentPurchase).value.numbers)
        && selectedNumbers == {} && currentPurchase == None
    {
      if currentPurchase.None? {
        return None;
      }
      var p := currentPurchase.value.(status := Confirmed, confirmedAt := Some(now));
      AscendingCardinality(p.numbers);
      AppendConfirmedCount(purchases, p);
      purchases := purchases + [p];
      purchasedNumbers := purchasedNumbers + Elements(currentPurchase.value.numbers);
      selectedNumbers := {};
      currentPurchase := None;
      confirmed := Some(p);
    }

    /** `cancelPurchase`: empties the pending slot and nothing else. */
    method CancelPurchase()
      requires Valid()
      modifies this
      ensures Valid()
      ensures currentPurchase == None
      ensures config == old(config) && purchasedNumbers == old(purchasedNumbers)
      ensures selectedNumbers == old(selectedNumbers) && purchases == old(purchases)
    {
      currentPurchase := None;
    }

    /** `updateConfig(updates)`: merges a partial configuration over the
        current one and changes nothing else. */
    method UpdateConfig(updates: ConfigUpdate)
      requires Valid()
      modifies this
      ensures Valid()
      ensures config == Merge(old(config), updates)
      ensures purchasedNumbers == old(purchasedNumbers) && selectedNumbers == old(selectedNumbers)
      ensures purchases == old(purchases) && currentPurchase == old(currentPurchase)
    {
      config := Merge(config, updates);
    }
  }
}
