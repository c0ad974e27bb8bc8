/** The payment screen: a ten-minute countdown that cancels the purchase
    when it runs out, the "mm:ss" rendering of the time left, and the
    payment status that moves from pending to processing to confirmed.
    Timer callbacks are discrete steps. */
module PaymentScreen {
  import opened Text

  /** The screen's own payment status. */
  datatype PaymentStatus = Pending | Processing | Confirmed

  /** Seconds on the clock when the screen opens. */
  const InitialTime := 600

  /** Below this many seconds the clock is shown as a warning. */
  const WarningThreshold := 60

  /** The order in which the statuses are reached. */
  function StatusRank(s: PaymentStatus): nat {
    match s
    case Pending => 0
    case Processing => 1
    case Confirmed => 2
  }

  /** The countdown's state updater: at one second or less it stops at
      zero (and the screen asks to cancel), otherwise it takes one second
      off. The time left is never negative. */
  function NextTime(prev: int): (t: nat)
    ensures prev <= 1 ==> t == 0
    ensures prev > 1 ==> t == prev - 1
  {
    if prev <= 1 then 0 else prev - 1
  }

  /** Whether the tick that starts from `prev` seconds is the one that
      expires the payment. */
  predicate ExpiresOn(prev: int) {
    prev <= 1
  }

  /** The time left after `k` ticks that did not expire. */
  function TimeAfter(start: int, k: nat): int {
    if k == 0 then start else NextTime(TimeAfter(start, k - 1))
  }

  /** From `start` seconds, the first `start - 1` ticks each take one
      second off, so none of them expires. */
  lemma {:induction false} CountdownSteps(start: int, k: nat)
    requires k < start
    ensures TimeAfter(start, k) == start - k
  {
    if k > 0 {
      CountdownSteps(start, k - 1);
    }
  }

  /** From a full clock the expiry fires on exactly the 600th tick: the
      i-th tick expires the payment if and only if i is 600. */
  lemma ExpiresOnTick(i: nat)
    requires 1 <= i <= InitialTime
    ensures ExpiresOn(TimeAfter(InitialTime, i - 1)) <==> i == InitialTime
  {
    CountdownSteps(InitialTime, i - 1);
  }

  /** `formatTime`: minutes and seconds, each padded to two digits. */
  function FormatTime(seconds: nat): (r: string)
  {
    PadStart(NatToDecimal(seconds / 60), 2, '0') + ":" + PadStart(NatToDecimal(seconds % 60), 2, '0')
  }

  /** Below 100 minutes the clock reads "mm:ss": five characters, and the
      two fields read back as the minutes and seconds of the time, which
      together give the time back. */
  lemma FormatTimeReadsBack(seconds: nat)
    requires seconds < 6000
    ensures var r := FormatTime(seconds);
      && |r| == 5 && r[2] == ':'
      && AllDigits(r[..2]) && AllDigits(r[3..])
      && DecimalValue(r[..2]) == seconds / 60
      && DecimalValue(r[3..]) == seconds % 60 < 60
      && DecimalValue(r[..2]) * 60 + DecimalValue(r[3..]) == seconds
  {
    var mins := PadStart(NatToDecimal(seconds / 60), 2, '0');
    var secs := PadStart(NatToDecimal(seconds % 60), 2, '0');
    ZeroPaddingKeepsValue(NatToDecimal(seconds / 60), 2);
    ZeroPaddingKeepsValue(NatToDecimal(seconds % 60), 2);
    var r := FormatTime(seconds);
    assert r == mins + ":" + secs;
    assert r[..2] == mins;
    assert r[3..] == secs;
  }

  /** The clock is shown as a warning under one minute. */
  predicate TimerWarning(timeLeft: int) {
    timeLeft < WarningThreshold
  }

  /** From a full clock the warning style appears after the 540th tick:
      of the first 600 ticks, exactly the last 60 leave under a minute. */
  lemma WarningFromTick(k: nat)
    requires k < InitialTime
    ensures TimerWarning(TimeAfter(InitialTime, k)) <==> k > InitialTime - WarningThreshold
  {
    CountdownSteps(InitialTime, k);
  }

  /** Both action buttons are enabled only while the payment is pending. */
  predicate ActionsEnabled(status: PaymentStatus) {
    status == Pending
  }

  /** The confirm button's caption in each status. */
  function ConfirmLabel(status: PaymentStatus): (caption: string)
    ensures ActionsEnabled(status) <==> caption == "Já paguei"
  {
    match status
    case Pending => "Já paguei"
    case Processing => "Verificando..."
    case Confirmed => "Concluído!"
  }

  /** The payment screen's state. `intervalCleared` records that the
      countdown stopped itself after expiring; `handOffScheduled` that the
      2-second hand-off of the confirmation is waiting to fire. The ghost
      flags record the payment's history: `confirmStarted` that the user
      has pressed confirm, `handedOn` that the confirmation was handed to
      the caller. */
  class PaymentState {
    var timeLeft: int
    var status: PaymentStatus
    var intervalCleared: bool
    var handOffScheduled: bool
    ghost var confirmStarted: bool
    ghost var handedOn: bool

    /** The clock is never negative and never above its start; the status
        has left pending exactly when the confirmation has started; a
        scheduled or completed hand-off only exists once confirmed, and a
        completed one is never scheduled again. */
    ghost predicate Valid()
      reads this
    {
      && 0 <= timeLeft <= InitialTime
      && (confirmStarted <==> status != Pending)
      && (handOffScheduled ==> status == Confirmed && !handedOn)
      && (handedOn ==> status == Confirmed)
    }

    constructor ()
      ensures Valid()
      ensures timeLeft == InitialTime && status == Pending && !intervalCleared
      ensures !handOffScheduled && !confirmStarted && !handedOn
    {
      timeLeft := InitialTime;
      status := Pending;
      intervalCleared := false;
      handOffScheduled := false;
      confirmStarted := false;
      handedOn := false;
    }

    /** One second of the countdown. The interval runs only while the
        status is pending and until it has expired; the tick that expires
        sets the clock to zero, stops the interval and asks the caller to
        cancel the purchase. Once the confirmation has started no tick asks
        to cancel. */
    method Tick() returns (cancel: bool)
      requires Valid()
      modifies this
      ensures Valid()
      ensures status == old(status) && handOffScheduled == old(handOffScheduled)
      ensures confirmStarted == old(confirmStarted) && handedOn == old(handedOn)
      ensures cancel ==> !confirmStarted
      ensures old(status) == Pending && !old(intervalCleared) ==>
        && cancel == ExpiresOn(old(timeLeft))
        && timeLeft == NextTime(old(timeLeft))
        && intervalCleared == cancel
      ensures !(old(status) == Pending && !old(intervalCleared)) ==>
        !cancel && timeLeft == old(timeLeft) && intervalCleared == old(intervalCleared)
    {
      cancel := false;
      if status != Pending || intervalCleared {
        return;
      }
      if timeLeft <= 1 {
        intervalCleared := true;
        cancel := true;
        timeLeft := 0;
        return;
      }
      timeLeft := timeLeft - 1;
    }

    /** `handleConfirmPayment` through the confirm button, which is enabled
        only while pending: the payment starts processing. Afterwards the
        confirmation has started, whatever the status was. */
    method PressConfirm()
      requires Valid()
      modifies this
      ensures Valid()
      ensures confirmStarted
      ensures status == if ActionsEnabled(old(status)) then Processing else old(status)
      ensures StatusRank(old(status)) <= StatusRank(status) <= StatusRank(old(status)) + 1
      ensures timeLeft == old(timeLeft) && intervalCleared == old(intervalCleared)
      ensures handOffScheduled == old(handOffScheduled) && handedOn == old(handedOn)
    {
      if ActionsEnabled(status) {
        status := Processing;
        confirmStarted := true;
      }
    }

    /** The 3-second delay after confirming: processing becomes confirmed
        and the 2-second hand-off is scheduled. The delay is only ever
        scheduled by `PressConfirm`. */
    method ProcessingElapsed()
      requires Valid()
      modifies this
      ensures Valid()
      ensures status == if old(status) == Processing then Confirmed else old(status)
      ensures StatusRank(old(status)) <= StatusRank(status) <= StatusRank(old(status)) + 1
      ensures handOffScheduled == (old(handOffScheduled) || old(status) == Processing)
      ensures timeLeft == old(timeLeft) && intervalCleared == old(intervalCleared)
      ensures confirmStarted == old(confirmStarted) && handedOn == old(handedOn)
    {
      if status == Processing {
        status := Confirmed;
        handOffScheduled := true;
      }
    }

    /** The scheduled hand-off fires: the screen passes the confirmation to
        its caller. It does so only after the payment was confirmed, and at
        most once in the screen's life. */
    method ConfirmedElapsed() returns (confirm: bool)
      requires Valid()
      modifies this
      ensures Valid()
      ensures confirm == old(handOffScheduled) && !handOffScheduled
      ensures confirm ==> status == Confirmed && !old(handedOn) && handedOn
      ensures !confirm ==> handedOn == old(handedOn)
      ensures status == old(status) && confirmStarted == old(confirmStarted)
      ensures timeLeft == old(timeLeft) && intervalCleared == old(intervalCleared)
    {
      confirm := handOffScheduled;
      if confirm {
        handOffScheduled := false;
        handedOn := true;
      }
    }

    /** The cancel button, enabled only while pending, asks the caller to
        cancel exactly when the confirmation has not started. */
    method PressCancel() returns (cancel: bool)
      requires Valid()
      ensures cancel <==> !confirmStarted
    {
      cancel := ActionsEnabled(status);
    }

    /** Closing the drawer or the dialog asks the caller to cancel exactly
        when the confirmation has not started. */
    method RequestClose() returns (cancel: bool)
      requires Valid()
      ensures cancel <==> !confirmStarted
    {
      cancel := status == Pending;
    }
  }
}
