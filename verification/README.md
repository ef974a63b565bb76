# Prediction history row and mobile view selection

A Dafny model of the two pieces of decision logic in the predictions page of
the PancakeSwap front end:

- **HistoricalBet** (`historical_bet.dfy`): one row of a user's bet history.
  From a bet (stake, side BULL/BEAR, claimed flag, round with epoch, lock price
  and close price), the current epoch and the "round canceled" flag, the row
  classifies the bet as WIN, LOSE, CANCELED or LIVE. It then picks a theme
  colour and a sign prefix, the amount it computes (payout for a winner, stake
  otherwise, displayed only inside a signed amount), the result area ("Live Now", or the "Your Result" caption over
  "Cancelled" or a signed amount), and the buttons: Collect, Reclaim and the expand toggle.
  `RenderBet` gathers all of these into one record.
- **Mobile** (`mobile.dfy`): the small-screen page. `GetView` picks one of
  three views from the history-pane and chart-pane flags, with priority
  HISTORY > CHART > POSITIONS. `Render` lays out the three guarded subtrees as
  the page does. Inside POSITIONS it shows the positions list when the status
  is LIVE and an error notification otherwise.

Both are total, pure functions of explicit inputs. Hooks become parameters:
current epoch, canceled flag, panel flags and status. The payout helper is the
function parameter `getPayout: Bet -> int`. Prices and amounts are `int`.
Only `>` is ever applied to prices, and amounts are passed through unchanged.

Two behaviours of the code are kept exactly:

- A closed round whose price did not move counts for the BEAR side. A BULL bet
  on it loses and a BEAR bet wins.
- The LIVE result covers `epoch >= currentEpoch - 1`. The "Live Now" display
  covers only `epoch == currentEpoch - 1`. So a bet on the round still taking
  entries (`epoch == currentEpoch`) is LIVE, yet it is shown as plain text
  colour, no sign and the stake.

Further facts of the code that the model keeps:

- A canceled result's colour is `textDisabled`. Outside the running round it is
  shown as the "Cancelled" label in that colour; in the running round the
  result area shows "Live Now" instead.
- The LIVE result has no upper bound on the epoch: any epoch
  `>= currentEpoch - 1` is LIVE, however far in the future.
- A LIVE bet outside the running round shows its stake, with no sign.
- A canceled bet shows the label "Cancelled" rather than an amount. In the
  running round it shows "Live Now" instead, and the Reclaim button still
  appears (`CanceledLiveRoundOffersReclaim`).

The functions are deterministic, so the same inputs always give the same
row or view.

## Model

| member | source | states |
|---|---|---|
| HistoricalBet.RoundResultPosition | src/views/Predictions/components/History/HistoricalBet.tsx:47 | The paying side is BULL exactly when the close price is above the lock price. It is BEAR when the price is equal or lower. |
| HistoricalBet.HasClosed | src/views/Predictions/components/History/HistoricalBet.tsx:56 | A round has closed iff its epoch is at most the current epoch and is neither the current epoch (taking entries) nor the one before (running). This is the negation of the LIVE test. |
| HistoricalBet.IsLiveRound | src/views/Predictions/components/History/HistoricalBet.tsx:95 | A bet is in the running round iff its round has not closed now but will have closed one epoch later. |
| HistoricalBet.ThemeKey | src/views/Predictions/components/History/HistoricalBet.tsx:63-74 | The theme keys are among success, failure, textDisabled and text. Each names its colour back, so no two colours share a key. |
| HistoricalBet.GetRoundResult | src/views/Predictions/components/History/HistoricalBet.tsx:51-61 | CANCELED iff the round is canceled. LIVE iff not canceled and the round has not closed. WIN iff closed, not canceled and the bet's side agrees with the price move (BULL iff price rose). LOSE iff closed, not canceled and the side disagrees. |
| HistoricalBet.GetRoundColor | src/views/Predictions/components/History/HistoricalBet.tsx:63-74 | Each result gets its own colour, and the colour maps back to the result. Theme key success iff WIN, failure iff LOSE, textDisabled iff CANCELED, text iff LIVE. |
| HistoricalBet.GetRoundPrefix | src/views/Predictions/components/History/HistoricalBet.tsx:76-86 | The prefix is "-" iff LOSE and "+" iff WIN. It is empty iff CANCELED or LIVE. |
| HistoricalBet.ShownAmount | src/views/Predictions/components/History/HistoricalBet.tsx:97-98 | The amount the row computes is the payout on WIN and the stake otherwise. It is displayed only in a signed amount, never for a CANCELED bet or a bet in the running round (see RenderBet). |
| HistoricalBet.RenderBet | src/views/Predictions/components/History/HistoricalBet.tsx:92-153 | "Live Now" appears iff the bet is in the running round. "Cancelled" appears iff canceled and not the running round, and it is painted textDisabled. A signed amount carries the result's colour and the shown amount. Its sign is "+" iff WIN, "-" iff LOSE and empty iff LIVE. Collect appears iff WIN and unclaimed, and carries the round's epoch and the payout. Reclaim appears iff CANCELED and unclaimed, and carries the round's epoch. The two never appear together. Once claimed, only the expand toggle remains. The toggle appears exactly once, as the last button, and is disabled iff the bet is in the running round. |
| HistoricalBet.CanceledWhateverElse | src/views/Predictions/components/History/HistoricalBet.tsx:52-54 | A canceled round is CANCELED with result colour textDisabled, for every epoch, side and price. Outside the running round the result area is the "Cancelled" label in that colour; in the running round it is "Live Now". |
| HistoricalBet.CollectCarriesShownAmount | src/views/Predictions/components/History/HistoricalBet.tsx:98-139 | For an unclaimed WIN, the result area shows "+" and the amount of line 98 in colour success, and the first button is Collect carrying that same amount and the round's epoch. |
| HistoricalBet.TieGoesToBear | src/views/Predictions/components/History/HistoricalBet.tsx:47-60 | In a closed, uncanceled round with an unchanged price, a BULL bet loses and a BEAR bet wins. |
| HistoricalBet.OppositeSidesOppositeResults | src/views/Predictions/components/History/HistoricalBet.tsx:47-60 | In a closed, uncanceled round, a bet is WIN iff the opposite-side bet on the same round is LOSE. Both are settled (WIN or LOSE). |
| HistoricalBet.ResultStableAsEpochAdvances | src/views/Predictions/components/History/HistoricalBet.tsx:56-60 | For an unchanged canceled flag: as the current epoch grows, a result can only move from LIVE to WIN or LOSE. A non-LIVE result never changes, and a later LIVE implies an earlier LIVE. |
| HistoricalBet.ResultMovesAsEpochAdvances | src/views/Predictions/components/History/HistoricalBet.tsx:45-60 | When the canceled flag may change between two epochs, a settled WIN or LOSE either stays as it was or becomes CANCELED. A later LIVE was LIVE or CANCELED before. The later result is CANCELED iff the later flag is set. |
| HistoricalBet.ResultIgnoresStakeAndClaim | src/views/Predictions/components/History/HistoricalBet.tsx:51-61 | Two bets with the same side and round get the same result, whatever their stake, id or claimed flag. |
| HistoricalBet.EveryResultOccurs | src/views/Predictions/components/History/HistoricalBet.tsx:51-61 | Each of WIN, LOSE, CANCELED and LIVE is produced for some input. |
| HistoricalBet.LiveRoundIsLive | src/views/Predictions/components/History/HistoricalBet.tsx:95 | A bet in the running round (`isLiveRound`) of an uncanceled round is classified LIVE (line 56). |
| HistoricalBet.LiveWithoutLiveRound | src/views/Predictions/components/History/HistoricalBet.tsx:56-58 | The converse fails: some uncanceled bet is LIVE while `isLiveRound` is false. |
| HistoricalBet.EnteringRoundShowsStake | src/views/Predictions/components/History/HistoricalBet.tsx:114-132 | A bet on the round taking entries (`epoch == currentEpoch`) is LIVE. Yet it is shown with colour text, empty prefix and its stake, and only an enabled expand toggle. |
| HistoricalBet.CanceledLiveRoundOffersReclaim | src/views/Predictions/components/History/HistoricalBet.tsx:114-150 | A canceled, unclaimed bet in the running round shows "Live Now" together with a Reclaim button and a disabled expand toggle. |
| HistoricalBet.ExpandDisabledIffLiveRound | src/views/Predictions/components/History/HistoricalBet.tsx:151 | The row holds a disabled expand toggle iff the bet is in the running round. |
| HistoricalBet.WorkedExamples | src/views/Predictions/components/History/HistoricalBet.tsx:47-60 | Three BULL bets, each five rounds back. Price 100 to 110: WIN, shown as "+" and the payout in colour success. Price 100 to 90: LOSE, shown as "-" and the stake in colour failure. Price stays at 100: LOSE. |
| Mobile.GetView | src/views/Predictions/Mobile.tsx:29-39 | HISTORY iff the history pane is open. CHART iff history is closed and the chart is open. POSITIONS iff both are closed. |
| Mobile.Render | src/views/Predictions/Mobile.tsx:50-56 | Exactly one subtree is rendered, and it belongs to the chosen view. Inside POSITIONS, the positions list is rendered iff the status is LIVE, and the error notification iff it is not. |
| Mobile.MobilePage | src/views/Predictions/Mobile.tsx:41-57 | History open renders only the history pane. History closed and chart open renders only the chart. Both closed renders the positions list or the error notification, by status. |
| Mobile.HistoryHidesChart | src/views/Predictions/Mobile.tsx:30-36 | With the history pane open the view is HISTORY and the chart is never rendered, whatever the chart flag. |
| Mobile.EveryViewReachable | src/views/Predictions/Mobile.tsx:29-39 | Each of the three views is chosen by some pair of flags. |
| Mobile.EverySubtreeReachable | src/views/Predictions/Mobile.tsx:50-56 | Each of the four subtrees is the whole page body for some flags and status, so no guarded branch is dead. |

## Left out

- ResultStableAsEpochAdvances: holds only for one canceled flag at both epochs. The flag comes from `useIsRoundCanceled`, whose code is not part of this model, so it is an input independent of the epoch. The moves allowed when it changes are stated by `ResultMovesAsEpochAdvances`.

- Hooks (`useWeb3React`, `useAppDispatch`, `useGetCurrentEpoch`, `useIsRoundCanceled`, `useIsHistoryPaneOpen`, `useIsChartPaneOpen`, `useGetPredictionsStatus`): their implementations are not part of this model. Their values are parameters.
- `getPayout` and `formatBnb` come from the predictions helpers, which are not part of this model. `getPayout` is an uninterpreted function parameter. Number formatting and floating-point amounts are not modelled: amounts are integers passed through unchanged.
- `PredictionStatus` is defined outside this model. Only its comparison with LIVE is modelled, as `Live | Other(name)`.
- `toLocaleString` and `TranslateString`: string lookup and formatting. The result text is modelled by which label is shown, not its wording.
- `handleSuccess` dispatching `markBetAsCollected`, and the Collect/Reclaim transactions: external chain and store side effects.
- The `isOpen`/`toggleOpen` local state and the `BetDetails` subtree: a UI toggle and a component that is not part of this model.
- Styled components, theme CSS, icons and the always-present `MobileMenu`: presentation only.
