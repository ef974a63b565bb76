/**
 A model of one row of the prediction-market bet history: how a past bet is
 classified (won, lost, canceled or still running), which colour and sign its
 result is shown with, which amount is shown, and which action buttons appear.

 The hooks that supply the current epoch and the "round canceled" flag, and
 the payout helper, are not part of this model: their values are parameters.
 Prices and amounts are integers; only `>` is ever applied to prices.
 */
module HistoricalBet {

  /** The two sides a bet can take. */
  datatype Position = Bull | Bear

  /** A prediction round: its epoch and the prices fixed when it locked and closed. */
  datatype Round = Round(epoch: int, lockPrice: int, closePrice: int)

  /** A user's bet on one round. */
  datatype Bet = Bet(id: string, amount: int, position: Position, claimed: bool, round: Round)

  /** The classification of a bet, as shown in the history list. */
  datatype Result = Win | Lose | Canceled | Live

  /** The theme colours a result can be painted with. */
  datatype Color = Success | Failure | TextDisabled | Text

  /** The theme key a colour is looked up by; distinct colours have distinct
      keys, so the key names the colour back. */
  function ThemeKey(c: Color): (key: string)
    ensures ColorOfKey(key) == c
    ensures key in {"success", "failure", "textDisabled", "text"}
  {
    match c
    case Success => "success"
    case Failure => "failure"
    case TextDisabled => "textDisabled"
    case Text => "text"
  }

  /** The colour a theme key names; unknown keys fall back to plain text. */
  function ColorOfKey(key: string): Color {
    if key == "success" then Success
    else if key == "failure" then Failure
    else if key == "textDisabled" then TextDisabled
    else Text
  }

  /** What the "Your Result" area of the row shows. */
  datatype ResultText =
    | LiveNow
    | CancelledLabel(color: Color)
    | SignedAmount(color: Color, prefix: string, amount: int)

  /** The buttons of a row, left to right. */
  datatype Button =
    | Collect(epoch: int, payout: int, hasClaimed: bool)
    | Reclaim(epoch: int)
    | Expand(disabled: bool)

  /** Everything the row decides for one bet. */
  datatype BetRow = BetRow(result: Result, text: ResultText, buttons: seq<Button>)

  /** The current epoch is the round taking entries and the one before it is
      running; only rounds older than both have a close price. */
  function HasClosed(round: Round, currentEpoch: int): (closed: bool)
    ensures closed <==>
      && round.epoch <= currentEpoch
      && round.epoch != currentEpoch
      && round.epoch != currentEpoch - 1
  {
    round.epoch < currentEpoch - 1
  }

  /** The side a closed round paid out to: Bull when the price rose, Bear
      otherwise, so an unchanged price counts for Bear. */
  function RoundResultPosition(round: Round): (side: Position)
    ensures side == Bull <==> round.closePrice > round.lockPrice
    ensures side == Bear <==> round.closePrice <= round.lockPrice
  {
    if round.closePrice > round.lockPrice then Bull else Bear
  }

  /** The classification of a bet: cancellation first, then whether the round
      has closed, then whether the bet was on the side the price moved to. */
  function GetRoundResult(bet: Bet, currentEpoch: int, isRoundCanceled: bool): (r: Result)
    ensures r == Canceled <==> isRoundCanceled
    ensures r == Live <==> !isRoundCanceled && !HasClosed(bet.round, currentEpoch)
    ensures r == Win <==>
      && !isRoundCanceled
      && HasClosed(bet.round, currentEpoch)
      && (bet.position == Bull <==> bet.round.closePrice > bet.round.lockPrice)
    ensures r == Lose <==>
      && !isRoundCanceled
      && HasClosed(bet.round, currentEpoch)
      && (bet.position == Bull <==> bet.round.closePrice <= bet.round.lockPrice)
  {
    if isRoundCanceled then Canceled
    else if bet.round.epoch >= currentEpoch - 1 then Live
    else if bet.position == RoundResultPosition(bet.round) then Win
    else Lose
  }

  /** The result a colour stands for; the inverse of GetRoundColor. */
  function ResultOfColor(c: Color): Result {
    match c
    case Success => Win
    case Failure => Lose
    case TextDisabled => Canceled
    case Text => Live
  }

  /** The colour a result is painted with; every result has its own colour. */
  function GetRoundColor(r: Result): (c: Color)
    ensures ResultOfColor(c) == r
    ensures ThemeKey(c) == "success" <==> r == Win
    ensures ThemeKey(c) == "failure" <==> r == Lose
    ensures ThemeKey(c) == "textDisabled" <==> r == Canceled
    ensures ThemeKey(c) == "text" <==> r == Live
  {
    match r
    case Win => Success
    case Lose => Failure
    case Canceled => TextDisabled
    case Live => Text
  }

  /** The sign put in front of the shown amount. */
  function GetRoundPrefix(r: Result): (p: string)
    ensures p == "-" <==> r == Lose
    ensures p == "+" <==> r == Win
    ensures p == "" <==> r == Canceled || r == Live
  {
    match r
    case Lose => "-"
    case Win => "+"
    case Canceled | Live => ""
  }

  /** Whether the bet's round is the one running now (locked, not yet closed). */
  function IsLiveRound(bet: Bet, currentEpoch: int): (live: bool)
    ensures live <==> !HasClosed(bet.round, currentEpoch) && HasClosed(bet.round, currentEpoch + 1)
  {
    bet.round.epoch == currentEpoch - 1
  }

  /** The amount the row computes for a bet: the payout for a winner, the stake
      otherwise. It is displayed only inside a signed amount, so never for a
      canceled bet or a bet in the running round. */
  function ShownAmount(bet: Bet, r: Result, getPayout: Bet -> int): (a: int)
    ensures r == Win ==> a == getPayout(bet)
    ensures r != Win ==> a == bet.amount
  {
    if r == Win then getPayout(bet) else bet.amount
  }

  /** Whether a row offers to collect winnings. */
  predicate ShowsCollect(buttons: seq<Button>) {
    exists b :: b in buttons && b.Collect?
  }

  /** Whether a row offers to reclaim a stake. */
  predicate ShowsReclaim(buttons: seq<Button>) {
    exists b :: b in buttons && b.Reclaim?
  }

  /** All decisions of one history row. */
  function RenderBet(bet: Bet, currentEpoch: int, isRoundCanceled: bool, getPayout: Bet -> int): (row: BetRow)
    ensures row.result == GetRoundResult(bet, currentEpoch, isRoundCanceled)
    ensures row.text == LiveNow <==> IsLiveRound(bet, currentEpoch)
    ensures row.text.CancelledLabel? <==> isRoundCanceled && !IsLiveRound(bet, currentEpoch)
    ensures row.text.CancelledLabel? ==> row.text.color == TextDisabled
    ensures row.text.SignedAmount? ==>
      && ResultOfColor(row.text.color) == row.result
      && row.text.amount == ShownAmount(bet, row.result, getPayout)
      && (row.text.prefix == "+" <==> row.result == Win)
      && (row.text.prefix == "-" <==> row.result == Lose)
      && (row.text.prefix == "" <==> row.result == Live)
    ensures ShowsCollect(row.buttons) <==> row.result == Win && !bet.claimed
    ensures ShowsReclaim(row.buttons) <==> row.result == Canceled && !bet.claimed
    ensures !(ShowsCollect(row.buttons) && ShowsReclaim(row.buttons))
    ensures bet.claimed ==> row.buttons == [Expand(IsLiveRound(bet, currentEpoch))]
    ensures 1 <= |row.buttons| <= 2
    ensures row.buttons[|row.buttons| - 1] == Expand(IsLiveRound(bet, currentEpoch))
    ensures forall b :: b in row.buttons && b.Collect? ==>
      b == Collect(bet.round.epoch, getPayout(bet), bet.claimed)
    ensures forall b :: b in row.buttons && b.Reclaim? ==> b == Reclaim(bet.round.epoch)
    ensures forall i :: 0 <= i < |row.buttons| - 1 ==> !row.buttons[i].Expand?
  {
    var result := GetRoundResult(bet, currentEpoch, isRoundCanceled);
    var color := GetRoundColor(result);
    var prefix := GetRoundPrefix(result);
    var live := IsLiveRound(bet, currentEpoch);
    var payout := ShownAmount(bet, result, getPayout);
    var text :=
      if live then LiveNow
      else if result == Canceled then CancelledLabel(color)
      else SignedAmount(color, prefix, payout);
    var collect := if result == Win && !bet.claimed then [Collect(bet.round.epoch, payout, bet.claimed)] else [];
    var reclaim := if result == Canceled && !bet.claimed then [Reclaim(bet.round.epoch)] else [];
    var buttons := collect + reclaim + [Expand(live)];
    assert collect != [] ==> buttons[0] in buttons && buttons[0].Collect?;
    assert reclaim != [] ==> buttons[0] in buttons && buttons[0].Reclaim?;
    BetRow(result, text, buttons)
  }

  /** A canceled round is reported as canceled whatever the epochs, side or prices. */
  lemma CanceledWhateverElse(bet: Bet, currentEpoch: int, getPayout: Bet -> int)
    ensures GetRoundResult(bet, currentEpoch, true) == Canceled
    ensures ThemeKey(GetRoundColor(GetRoundResult(bet, currentEpoch, true))) == "textDisabled"
    ensures !IsLiveRound(bet, currentEpoch) ==>
      RenderBet(bet, currentEpoch, true, getPayout).text == CancelledLabel(TextDisabled)
    ensures IsLiveRound(bet, currentEpoch) ==>
      RenderBet(bet, currentEpoch, true, getPayout).text == LiveNow
  {
  }

  /** The amount an unclaimed winner's Collect button carries is the amount its
      result area shows, outside the running round. */
  lemma CollectCarriesShownAmount(bet: Bet, currentEpoch: int, getPayout: Bet -> int)
    requires GetRoundResult(bet, currentEpoch, false) == Win && !bet.claimed
    ensures var row := RenderBet(bet, currentEpoch, false, getPayout);
      && row.text == SignedAmount(Success, "+", ShownAmount(bet, Win, getPayout))
      && row.buttons[0] == Collect(bet.round.epoch, ShownAmount(bet, Win, getPayout), false)
  {
  }

  /** On an unchanged price a closed round goes to Bear: Bull loses and Bear wins. */
  lemma TieGoesToBear(round: Round, currentEpoch: int, stake: int)
    requires round.closePrice == round.lockPrice
    requires HasClosed(round, currentEpoch)
    ensures GetRoundResult(Bet("", stake, Bull, false, round), currentEpoch, false) == Lose
    ensures GetRoundResult(Bet("", stake, Bear, false, round), currentEpoch, false) == Win
  {
  }

  /** In a closed, uncanceled round exactly one side wins: two bets on
      opposite sides get opposite results. */
  lemma OppositeSidesOppositeResults(b1: Bet, b2: Bet, currentEpoch: int)
    requires b1.round == b2.round && b1.position != b2.position
    requires HasClosed(b1.round, currentEpoch)
    ensures GetRoundResult(b1, currentEpoch, false) == Win <==> GetRoundResult(b2, currentEpoch, false) == Lose
    ensures GetRoundResult(b1, currentEpoch, false) in {Win, Lose}
  {
  }

  /** For an unchanged canceled flag, as the epoch advances a result can only
      move from Live to Win or Lose; a settled result never changes again. */
  lemma ResultStableAsEpochAdvances(bet: Bet, earlier: int, later: int, isRoundCanceled: bool)
    requires earlier <= later
    ensures GetRoundResult(bet, earlier, isRoundCanceled) != Live ==>
      GetRoundResult(bet, later, isRoundCanceled) == GetRoundResult(bet, earlier, isRoundCanceled)
    ensures GetRoundResult(bet, later, isRoundCanceled) == Live ==>
      GetRoundResult(bet, earlier, isRoundCanceled) == Live
  {
  }

  /** The canceled flag is an input of its own and may change between two
      epochs. Then a settled result either stays as it was or becomes
      Canceled, and a result that is Live later was Live or Canceled before. */
  lemma ResultMovesAsEpochAdvances(bet: Bet, earlier: int, later: int, canceledBefore: bool, canceledAfter: bool)
    requires earlier <= later
    ensures var before := GetRoundResult(bet, earlier, canceledBefore);
      var after := GetRoundResult(bet, later, canceledAfter);
      && (before == Win || before == Lose ==> after == before || after == Canceled)
      && (after == Live ==> before == Live || before == Canceled)
      && (after == Canceled <==> canceledAfter)
  {
  }

  /** The result depends on the side and the round only, not on the stake,
      the id or whether the bet was claimed. */
  lemma ResultIgnoresStakeAndClaim(b1: Bet, b2: Bet, currentEpoch: int, isRoundCanceled: bool)
    requires b1.position == b2.position && b1.round == b2.round
    ensures GetRoundResult(b1, currentEpoch, isRoundCanceled) == GetRoundResult(b2, currentEpoch, isRoundCanceled)
  {
  }

  /** Whether some bet, at some epoch, is classified as `r`. */
  ghost predicate ResultOccurs(r: Result) {
    exists bet: Bet, currentEpoch: int, canceled: bool :: GetRoundResult(bet, currentEpoch, canceled) == r
  }

  /** Every one of the four results occurs for some bet. */
  lemma EveryResultOccurs()
    ensures forall r: Result :: ResultOccurs(r)
  {
    var bull := Bet("", 1, Bull, false, Round(0, 100, 110));
    forall r: Result
      ensures ResultOccurs(r)
    {
      match r
      case Canceled => assert GetRoundResult(bull, 5, true) == r;
      case Live => assert GetRoundResult(bull, 1, false) == r;
      case Win => assert GetRoundResult(bull, 5, false) == r;
      case Lose => assert GetRoundResult(bull.(position := Bear), 5, false) == r;
    }
  }

  /** A running round that was not canceled is classified Live. */
  lemma LiveRoundIsLive(bet: Bet, currentEpoch: int)
    requires IsLiveRound(bet, currentEpoch)
    ensures GetRoundResult(bet, currentEpoch, false) == Live
  {
  }

  /** The converse fails: a bet on the round still taking entries is Live
      without being in the running round. */
  lemma LiveWithoutLiveRound()
    ensures exists bet: Bet, currentEpoch: int ::
      GetRoundResult(bet, currentEpoch, false) == Live && !IsLiveRound(bet, currentEpoch)
  {
    var bet := Bet("", 1, Bull, false, Round(7, 0, 0));
    assert GetRoundResult(bet, 7, false) == Live && !IsLiveRound(bet, 7);
  }

  /** A bet on the round still taking entries is shown outside the "Live Now"
      branch: plain text colour, no sign, the stake as the amount, and the
      row can be expanded. */
  lemma EnteringRoundShowsStake(bet: Bet, currentEpoch: int, getPayout: Bet -> int)
    requires bet.round.epoch == currentEpoch
    ensures var row := RenderBet(bet, currentEpoch, false, getPayout);
      && row.result == Live
      && row.text == SignedAmount(Text, "", bet.amount)
      && row.buttons == [Expand(false)]
  {
  }

  /** A canceled running round shows "Live Now" and yet offers to reclaim the
      stake, with the expand button disabled. */
  lemma CanceledLiveRoundOffersReclaim(bet: Bet, currentEpoch: int, getPayout: Bet -> int)
    requires IsLiveRound(bet, currentEpoch) && !bet.claimed
    ensures var row := RenderBet(bet, currentEpoch, true, getPayout);
      && row.text == LiveNow
      && row.buttons == [Reclaim(bet.round.epoch), Expand(true)]
  {
  }

  /** The expand button is disabled exactly for the running round. */
  lemma ExpandDisabledIffLiveRound(bet: Bet, currentEpoch: int, isRoundCanceled: bool, getPayout: Bet -> int)
    ensures var row := RenderBet(bet, currentEpoch, isRoundCanceled, getPayout);
      Expand(true) in row.buttons <==> IsLiveRound(bet, currentEpoch)
  {
    var row := RenderBet(bet, currentEpoch, isRoundCanceled, getPayout);
    var last := |row.buttons| - 1;
    if Expand(true) in row.buttons {
      var i :| 0 <= i < |row.buttons| && row.buttons[i] == Expand(true);
      assert i == last;
    } else {
      assert row.buttons[last] in row.buttons;
    }
  }

  /** Worked cases: a Bull bet five rounds back wins with "+" when the price
      went from 100 to 110, loses with "-" and shows its stake when it went
      to 90, and loses when the price stayed at 100. */
  lemma WorkedExamples(getPayout: Bet -> int)
    ensures var up := Bet("", 3, Bull, false, Round(5, 100, 110));
      && GetRoundResult(up, 10, false) == Win
      && RenderBet(up, 10, false, getPayout).text == SignedAmount(Success, "+", getPayout(up))
    ensures var down := Bet("", 3, Bull, false, Round(5, 100, 90));
      && GetRoundResult(down, 10, false) == Lose
      && RenderBet(down, 10, false, getPayout).text == SignedAmount(Failure, "-", 3)
    ensures GetRoundResult(Bet("", 3, Bull, false, Round(5, 100, 100)), 10, false) == Lose
  {
  }
}
