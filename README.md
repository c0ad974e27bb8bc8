# Neon raffle: a Dafny model of the raffle session and its screens

This project models the logic of the neon-rifa raffle web application in
Dafny. The raffle sells numbered tickets: a user picks numbers on a paged
grid, by hand or at random, buys them with a PIX payment code and waits on
a ten-minute payment screen until the payment is confirmed.

The model follows the application's own structure, one module per source
file:

- `RaffleTypes` (`raffle_types.dfy`): the records of `src/types/raffle.ts`.
  - It also holds the partial-configuration merge, the ascending snapshot of
    a set of numbers, and the count of numbers in confirmed purchases.
- `Text` (`text.dfy`): decimal spelling of integers and `padStart`, which
  the labels, the purchase ids and the countdown clock use.
- `UseRaffle` (`use_raffle.dfy`): the `useRaffle` hook as the class
  `RaffleSession`.
  - The class has five state slots: configuration, sold numbers, selected
    numbers, purchase history and pending purchase.
  - Each hook operation is one method.
  - `Valid()` is the session invariant. Selection and sold numbers are
    disjoint. Every history record is confirmed and sold. The pending
    purchase holds distinct unsold numbers. The sold numbers are the seed
    plus exactly as many numbers as the confirmed records hold.
  - `GeneratePixCode` builds the payment code.
- `NumberGrid` (`number_grid.dfy`): the pages of 100 numbers, the numbers on
  show, the per-status counting loop and the page selector.
- `SelectionPanel` (`selection_panel.dfy`): the manual-entry validation with
  its error messages, the quick-pick buttons, and the labels and enablement
  of the purchase button.
- `PaymentScreen` (`payment_screen.dfy`): the countdown, the `mm:ss` clock,
  the pending → processing → confirmed status and the gating of cancel and
  close.
- `IndexPage` (`index_page.dfy`): the page's view state machine (main →
  purchase → payment → main, and the dashboard) composed with the session,
  and the header's count of confirmed numbers.
- `ImageSlider` (`image_slider.dfy`): the image fallback, the modular
  arrow arithmetic and the transition lock.

Outside inputs become parameters:
- the clock (`now`, in milliseconds);
- the draws of `Math.random()` that the payment code consumes (`draws`);
- the parsed value of the manual-entry box (`Option<int>`).

The random choice of numbers is a nondeterministic choice of a subset of the
candidates with the size the slice keeps. Timer callbacks are discrete
steps, such as `Tick`, `ProcessingElapsed` and `TransitionEnded`. Toast
notifications become the handlers' boolean results. Money is an integer
amount.

The modals of the page open only when the view matches and, for the
purchase summary and the payment screen, a purchase is pending
(`ShowPurchaseModal`, `ShowPaymentScreen`, `ShowDashboard`). The timer
switches to its warning style under 60 seconds (`TimerWarning`).

## Model

| member | source | states |
|---|---|---|
| RaffleTypes.Merge | src/hooks/useRaffle.ts:111-113 | for each of the six fields (price, total, title, description, images, draw date), a present field of the partial configuration wins, an absent one keeps the previous value |
| RaffleTypes.MergeIdempotent | src/hooks/useRaffle.ts:111-113 | applying the same update twice equals applying it once; the empty update changes nothing |
| RaffleTypes.SortedElements | src/components/raffle/SelectionPanel.tsx:61 | `sortedNumbers` holds each selected number exactly once, in strictly ascending order, and has as many entries as the set |
| RaffleTypes.AscendingCardinality | src/hooks/useRaffle.ts:76 | a strictly ascending list has no duplicates, so its element set is as large as the list |
| RaffleTypes.ConfirmedNumberCountAppend | src/pages/Index.tsx:65-67 | the confirmed-numbers count of a concatenation is the sum of the counts |
| RaffleTypes.AppendConfirmedCount | src/pages/Index.tsx:65-67 | appending a confirmed record raises the count by the length of its numbers |
| Text.NatToDecimal | src/hooks/useRaffle.ts:75 | `toString()` of a natural number is a digit string without a leading zero that reads back as the number; one digit below 10, two below 100 |
| Text.IntToDecimal | src/components/raffle/SelectionPanel.tsx:42 | `toString()` of an integer reads back as it; negative numbers get a leading minus |
| Text.PadStart | src/components/raffle/PaymentScreen.tsx:59 | `padStart` reaches the width with fill characters in front and keeps the string as its suffix |
| Text.ZeroPaddingKeepsValue | src/components/raffle/PaymentScreen.tsx:59 | padding a digit string with zeros keeps its value |
| UseRaffle.AlphabetIndex | src/hooks/useRaffle.ts:138 | `Math.floor(Math.random() * chars.length)` is a valid index into the alphabet |
| UseRaffle.PixAlphabetChars | src/hooks/useRaffle.ts:135 | the alphabet has 36 characters, all upper-case letters or digits |
| UseRaffle.PixFrame | src/hooks/useRaffle.ts:136-140 | the fixed prefix has 32 characters, the suffix 65 and ends in "6304" |
| UseRaffle.GeneratePixCode | src/hooks/useRaffle.ts:134-142 | the code is prefix, 36 letters or digits, suffix: 133 characters ending in "6304", the middle characters picked by the draws |
| UseRaffle.Toggled | src/hooks/useRaffle.ts:25-37 | a sold number leaves the selection as it is; any other number flips its membership and nothing else changes |
| UseRaffle.ToggleTwice | src/hooks/useRaffle.ts:25-37 | toggling the same number twice restores the selection |
| UseRaffle.ToggleKeepsDisjoint | src/hooks/useRaffle.ts:25-37 | toggling never puts a sold number into the selection |
| UseRaffle.Candidates | src/hooks/useRaffle.ts:41-45 | the candidates are the numbers 1..total that are neither sold nor selected |
| UseRaffle.CollectAvailable | src/hooks/useRaffle.ts:40-45 | the loop collects exactly the candidates, in ascending order |
| UseRaffle.TakeCount | src/hooks/useRaffle.ts:48 | `slice(0, Math.min(count, length))` keeps at most the whole list, and min(count, length) items for a non-negative count |
| UseRaffle.RaffleSession.constructor | src/hooks/useRaffle.ts:12-17 | the configuration is the defaults merged with the initial one; seven seed numbers are sold; nothing selected, bought or pending |
| UseRaffle.RaffleSession.GetNumberStatus | src/hooks/useRaffle.ts:19-23 | selected first, then sold, else available; under the invariant a sold number always shows as sold |
| UseRaffle.RaffleSession.ToggleNumber | src/hooks/useRaffle.ts:25-37 | the selection becomes `Toggled` of the old one, all else is unchanged and the invariant is kept |
| UseRaffle.RaffleSession.SelectRandomNumbers | src/hooks/useRaffle.ts:39-55 | the old selection is kept; every added number is a candidate; exactly as many are added as the slice keeps |
| UseRaffle.RaffleSession.ClearSelection | src/hooks/useRaffle.ts:57-59 | only the selection changes, and it becomes empty |
| UseRaffle.RaffleSession.AddNumberManually | src/hooks/useRaffle.ts:61-67 | succeeds exactly for an unsold number in 1..total, which is then selected (a no-op if it already was); on failure nothing changes |
| UseRaffle.RaffleSession.TotalAmount | src/hooks/useRaffle.ts:69-71 | the total is zero for an empty selection and never negative for a non-negative price |
| UseRaffle.RaffleSession.CreatePurchase | src/hooks/useRaffle.ts:73-84 | the pending slot holds a pending purchase of the selection in strictly ascending order, priced at count × unit price, with a well-formed payment code; the selection is unchanged |
| UseRaffle.RaffleSession.ConfirmPurchase | src/hooks/useRaffle.ts:86-105 | without a pending purchase nothing changes and nothing is returned; otherwise exactly one confirmed copy is appended, its numbers are sold, selection and pending slot are emptied |
| UseRaffle.RaffleSession.CancelPurchase | src/hooks/useRaffle.ts:107-109 | only the pending slot changes, and it becomes empty |
| UseRaffle.RaffleSession.UpdateConfig | src/hooks/useRaffle.ts:111-113 | the configuration becomes the merge; nothing else changes |
| NumberGrid.RangeCount | src/components/raffle/NumberGrid.tsx:25 | the fewest pages of 100 that hold all numbers, none for a non-positive total |
| NumberGrid.Ranges | src/components/raffle/NumberGrid.tsx:24-31 | page i starts at i·100+1; pages are non-empty, at most 100 long, contiguous, and run from 1 to the total |
| NumberGrid.RangesCover | src/components/raffle/NumberGrid.tsx:24-31 | every number 1..total lies on page (n−1)/100, and no page holds a number outside 1..total |
| NumberGrid.VisibleNumbers | src/components/raffle/NumberGrid.tsx:34-38 | the numbers start..end of the selected page, consecutive; empty when the index names no page |
| NumberGrid.CountsPartition | src/components/raffle/NumberGrid.tsx:43-56 | the three status counts add up to the number of numbers counted |
| NumberGrid.RangeStats | src/components/raffle/NumberGrid.tsx:43-56 | each counter is the number of visible numbers with that status, and the three add up to the page size |
| NumberGrid.PreviousRange | src/components/raffle/NumberGrid.tsx:137 | one page back, never below the first page |
| NumberGrid.NextRange | src/components/raffle/NumberGrid.tsx:147 | one page on, never past the last page |
| NumberGrid.NavigationStaysOnPages | src/components/raffle/NumberGrid.tsx:137-148 | with at least one page both buttons keep the index on a page, and each undoes the other away from the ends |
| NumberGrid.DisabledButtonsAreNoOps | src/components/raffle/NumberGrid.tsx:137-148 | whenever the selector disables "previous" or "next", that button would leave the page index unchanged |
| NumberGrid.RangeSelector.constructor | src/components/raffle/NumberGrid.tsx:20-21 | the first page is shown and the dropdown is closed |
| NumberGrid.RangeSelector.Previous | src/components/raffle/NumberGrid.tsx:137 | the page index becomes `PreviousRange` of the old one; the dropdown is untouched |
| NumberGrid.RangeSelector.Next | src/components/raffle/NumberGrid.tsx:147 | the page index becomes `NextRange` of the old one; the dropdown is untouched |
| NumberGrid.RangeSelector.ToggleDropdown | src/components/raffle/NumberGrid.tsx:65 | the dropdown flips between open and closed; the page stays |
| NumberGrid.RangeSelector.ChooseRange | src/components/raffle/NumberGrid.tsx:86-89 | the chosen page is shown and the dropdown closes |
| SelectionPanel.RangeError | src/components/raffle/SelectionPanel.tsx:42 | the range error is a fixed text followed by the maximum, which reads back from it |
| SelectionPanel.ErrorsDistinct | src/components/raffle/SelectionPanel.tsx:35-52 | the three error messages differ from one another |
| SelectionPanel.Plural | src/components/raffle/SelectionPanel.tsx:137 | the plural "s" appears exactly when the count exceeds one |
| SelectionPanel.PurchaseLabel | src/components/raffle/SelectionPanel.tsx:175 | the prompt for an empty selection; otherwise "Comprar ", then digits that read back as the count, then "número", with the plural "s" exactly when the count exceeds one |
| SelectionPanel.SelectedCountLabel | src/components/raffle/SelectionPanel.tsx:137 | the caption ends in a colon, preceded by the plural "s" exactly when the count exceeds one |
| SelectionPanel.DisabledShowsPrompt | src/components/raffle/SelectionPanel.tsx:166-176 | the purchase button is disabled exactly when its caption is the prompt |
| SelectionPanel.QuickPick | src/components/raffle/SelectionPanel.tsx:86-91 | a quick-pick button keeps the old selection and adds min(2, 5, 10 or 20, candidates left) numbers, all of them candidates of the state before the click; configuration, sold numbers, history and pending purchase are unchanged |
| SelectionPanel.ManualEntry.constructor | src/components/raffle/SelectionPanel.tsx:32-33 | the box and the error start empty |
| SelectionPanel.ManualEntry.OnInputChange | src/components/raffle/SelectionPanel.tsx:109-112 | typing replaces the text and always clears the error |
| SelectionPanel.ManualEntry.HandleAddManual | src/components/raffle/SelectionPanel.tsx:35-52 | unreadable or out-of-range input only sets its error; an accepted number is selected and clears box and error; a refused one keeps the text and shows the taken error, which with the raffle's own maximum means exactly that the number is sold |
| PaymentScreen.NextTime | src/components/raffle/PaymentScreen.tsx:42-50 | a tick from one second or less stops at zero, any other takes one second off; never negative |
| PaymentScreen.CountdownSteps | src/components/raffle/PaymentScreen.tsx:42-50 | before expiry each tick takes exactly one second off |
| PaymentScreen.ExpiresOnTick | src/components/raffle/PaymentScreen.tsx:42-50 | from the initial 600 seconds the payment expires on exactly the 600th tick |
| PaymentScreen.FormatTimeReadsBack | src/components/raffle/PaymentScreen.tsx:56-60 | below 6000 seconds the clock is "mm:ss", five characters whose fields read back as minutes and seconds, and mins·60+secs is the time |
| PaymentScreen.WarningFromTick | src/components/raffle/PaymentScreen.tsx:120 | from a full clock the warning style shows from the 541st tick on |
| PaymentScreen.ConfirmLabel | src/components/raffle/PaymentScreen.tsx:201 | the confirm button invites payment exactly when the actions are enabled |
| PaymentScreen.PaymentState.constructor | src/components/raffle/PaymentScreen.tsx:33-34 | the clock starts at 600 seconds, the payment pending, no confirmation started and no hand-off scheduled |
| PaymentScreen.PaymentState.Tick | src/components/raffle/PaymentScreen.tsx:38-54 | ticks run only while pending and before expiry; the expiring tick zeroes the clock, stops the interval and asks to cancel; no tick asks to cancel once the confirmation has started |
| PaymentScreen.PaymentState.PressConfirm | src/components/raffle/PaymentScreen.tsx:76-83 | a pending payment starts processing; afterwards the confirmation has started; the status never moves back or skips a step |
| PaymentScreen.PaymentState.ProcessingElapsed | src/components/raffle/PaymentScreen.tsx:78-81 | processing becomes confirmed and the hand-off is scheduled; the status never moves back or skips a step |
| PaymentScreen.PaymentState.ConfirmedElapsed | src/components/raffle/PaymentScreen.tsx:81 | the hand-off fires exactly when it was scheduled; it hands on the confirmation only once the payment is confirmed, and at most once in the screen's life |
| PaymentScreen.PaymentState.PressCancel | src/components/raffle/PaymentScreen.tsx:190-191 | the cancel button asks to cancel exactly when the confirmation has not started |
| PaymentScreen.PaymentState.RequestClose | src/components/raffle/PaymentScreen.tsx:208 | closing the drawer or dialog asks to cancel exactly when the confirmation has not started |
| IndexPage.RafflePage.constructor | src/pages/Index.tsx:32-37 | the session starts with price 10 and 1000 numbers, nothing selected or pending, on the main view |
| IndexPage.RafflePage.HeaderCount | src/pages/Index.tsx:65-67 | the header's count of confirmed numbers is how many numbers were sold since the page opened |
| IndexPage.RafflePage.HandlePurchaseClick | src/pages/Index.tsx:39-46 | an empty selection only raises the error and changes no view or purchase; otherwise a pending purchase of the selection is created and its summary is shown |
| IndexPage.RafflePage.HandleProceedToPayment | src/pages/Index.tsx:48-50 | the payment view opens, and its screen shows exactly when a purchase is pending |
| IndexPage.RafflePage.HandleConfirmPayment | src/pages/Index.tsx:52-58 | back to the main view with no pending purchase and the configuration unchanged; with a pending purchase its confirmed copy is appended to the history, its numbers are sold, the selection emptied and the header count rises by their number; without one, history, sold numbers, selection and count are unchanged |
| IndexPage.RafflePage.HandleCancelPurchase | src/pages/Index.tsx:60-63 | the pending purchase is dropped; configuration, selection, sold numbers and history are kept; no overlay is shown |
| IndexPage.RafflePage.OpenDashboard | src/pages/Index.tsx:74 | the dashboard is shown and no purchase overlay is |
| IndexPage.RafflePage.CloseDashboard | src/pages/Index.tsx:197 | back to the main view with no overlay |
| ImageSlider.DisplayImages | src/components/raffle/ImageSlider.tsx:18-20 | the given images when there are any, otherwise the three defaults; never empty |
| ImageSlider.NextIndex | src/components/raffle/ImageSlider.tsx:30 | "next" keeps the index inside the carousel |
| ImageSlider.PrevIndex | src/components/raffle/ImageSlider.tsx:34 | "previous" keeps the index inside the carousel |
| ImageSlider.StepsWrap | src/components/raffle/ImageSlider.tsx:29-35 | "next" moves one on and wraps from last to first; "previous" moves one back and wraps from first to last |
| ImageSlider.ArrowsInverse | src/components/raffle/ImageSlider.tsx:29-35 | previous(next(i)) = i and next(previous(i)) = i |
| ImageSlider.AdvanceCompose | src/components/raffle/ImageSlider.tsx:29-31 | a presses of "next" followed by b presses are a + b presses |
| ImageSlider.FullCycle | src/components/raffle/ImageSlider.tsx:29-31 | n presses of "next" on n images come back to the starting slide |
| ImageSlider.Slider.constructor | src/components/raffle/ImageSlider.tsx:15-20 | the carousel shows the display images from the first slide, unlocked |
| ImageSlider.Slider.GoToSlide | src/components/raffle/ImageSlider.tsx:22-27 | ignored while transitioning; otherwise shows the slide and takes the lock |
| ImageSlider.Slider.TransitionEnded | src/components/raffle/ImageSlider.tsx:26 | the lock is released and the slide stays |
| ImageSlider.Slider.NextSlide | src/components/raffle/ImageSlider.tsx:29-31 | the next slide, unless a transition is under way |
| ImageSlider.Slider.PrevSlide | src/components/raffle/ImageSlider.tsx:33-35 | the previous slide, unless a transition is under way |

## Left out

- Rendering, styling and widgets are not modelled: JSX, CSS classes, drawers, dialogs, icons, and the QR placeholder's random cells.
- Legend.tsx, RaffleHeader.tsx, NumberCard.tsx, PurchaseModal.tsx and UserDashboard.tsx only present data and forward callbacks, so they are not part of this model. UserDashboard's sum of amounts is floating point.
- Timer durations are not modelled. These are the 1 s countdown, the 3 s and 2 s confirmation delays, the 500 ms slide transition and the 4 s autoplay. Each callback is a discrete step the caller takes.
- Randomness is not modelled as a distribution. The random-comparator shuffle is a nondeterministic choice of a subset of the candidates, and the payment code takes its draws as a parameter.
- `Date.now()` and `new Date()` become one parameter `now`, used for both the purchase id and `createdAt` (they are read a moment apart in the application).
- Money is an integer amount. Floating-point prices and `Intl.NumberFormat`/`Intl.DateTimeFormat` are foreign code, so they are left out.
- `parseInt` is not modelled: leading blanks, signs and trailing junk are its business. The manual entry takes the parsed value, with `None` for NaN.
- The payment code only imitates the layout of the BR Code (EMV QR Code Specification for Payment Systems, merchant-presented mode). Its TLV lengths and CRC-16 are not checked: tag 59 declares 25 characters for a 12-character name, and the CRC value after "6304" is missing.
- Stale closures, batched `setState` updaters, memoisation dependencies, the clipboard and toasts are not modelled. Each handler is one atomic step, and toasts are boolean results.
- `ConfigUpdate`: an explicitly `undefined` field of a partial configuration overrides the previous value in the application. Here a field is either present (`Some`) or absent.
- The slider's images are fixed when it is created. A change of the `images` prop while it is shown is not modelled.
- `UseRaffle.RaffleSession.TotalAmount`: states only the empty-selection and sign facts. Its value is count × price, and `CreatePurchase` states that the amount equals the number of numbers times the price.
