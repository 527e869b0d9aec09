/**
 * The points-to-tokens panel (client/src/components/rewards/token-conversion.tsx): its
 * state, the parsing of the amount field, the convert button's enabled predicate and the
 * guarded conversion handler talking to the mock wallet.
 */
module TokenConversionPanel {
  import opened Wrappers
  import opened Text
  import opened Polygon

  /** A toast notification: title and description. */
  datatype Toast = Toast(title: string, description: string)

  const EnterAmountMessage := "Please enter the amount of points to convert"
  const NotEnoughMessage := "You don't have enough points to convert"

  /** `parseInt(value) || 0`: anything that does not read as a number becomes 0. */
  function ParsePointsInput(text: string): (r: int)
    ensures ParseInt(text).None? ==> r == 0
    ensures ParseInt(text).Some? ==> r == ParseInt(text).value
  {
    ParseInt(text).GetOr(0)
  }

  /** Typing a number shows that number back in the field. */
  lemma InputRoundTrip(n: nat)
    ensures ParsePointsInput(DecimalString(n)) == n
  {
    ParseIntOfDecimal(n);
  }

  /** Text without any digit reads as 0; so does the empty field. */
  lemma NonNumericInputIsZero(text: string)
    requires forall i :: 0 <= i < |text| ==> !IsDigit(text[i])
    ensures ParsePointsInput(text) == 0
  {
    var t := TrimStart(text);
    assert forall i :: 0 <= i < |t| ==> t[i] == text[|text| - |t| + i];
    var rest := Unsigned(t);
    assert forall i :: 0 <= i < |rest| ==> !IsDigit(rest[i]);
    if |rest| > 0 {
      assert rest[0] != '0';
      assert DigitPrefix(rest) == [];
    }
    assert Magnitude(rest) == None;
  }

  /** The success toast's text for a conversion of `points` points. */
  function SuccessMessage(points: nat): string {
    "Successfully converted " + DecimalString(points) + " points to tokens!"
  }

  class TokenConversion {
    // The component's props.
    const walletAddress: string
    const availablePoints: int
    const wallet: MockWallet
    // Its state.
    var isLoading: bool
    var tokenBalance: Option<real>
    var pointsToConvert: int
    var isLoadingBalance: bool
    // What it has told the outside world: the `onPointsConverted` calls and the toasts shown.
    var converted: seq<int>
    var toasts: seq<Toast>

    constructor(walletAddress: string, availablePoints: int, wallet: MockWallet)
      ensures this.walletAddress == walletAddress && this.availablePoints == availablePoints && this.wallet == wallet
      ensures !isLoading && tokenBalance.None? && pointsToConvert == 0 && isLoadingBalance
      ensures converted == [] && toasts == []
    {
      this.walletAddress := walletAddress;
      this.availablePoints := availablePoints;
      this.wallet := wallet;
      isLoading := false;
      tokenBalance := None;
      pointsToConvert := 0;
      isLoadingBalance := true;
      converted := [];
      toasts := [];
    }

    /** The amount field's `onChange`. */
    method SetPointsInput(text: string)
      modifies this`pointsToConvert
      ensures pointsToConvert == ParsePointsInput(text)
    {
      pointsToConvert := ParsePointsInput(text);
    }

    /** The button is disabled while loading, for an amount of 0 or less, and above the available points. */
    predicate ConvertEnabled()
      reads this`isLoading, this`pointsToConvert
    {
      !(isLoading || pointsToConvert <= 0 || pointsToConvert > availablePoints)
    }

    /** `loadTokenBalance`: reads the wallet's balance into the panel. */
    method LoadTokenBalance()
      modifies this`isLoadingBalance, this`tokenBalance, wallet`connectedWalletAddress
      ensures tokenBalance == Some(wallet.mockTokenBalance)
      ensures wallet.connectedWalletAddress == walletAddress
      ensures !isLoadingBalance
    {
      isLoadingBalance := true;
      var balance := wallet.GetTokenBalance(walletAddress);
      tokenBalance := Some(balance);
      isLoadingBalance := false;
    }

    /**
     * `handleConvertPoints`. An amount of 0 or less, or one above the available points, is
     * refused with a toast before the wallet is asked. Otherwise the wallet converts; on
     * success the parent is told the amount, the balance reloaded and the field reset to 0,
     * and on failure the wallet's error is shown and nothing else happens.
     */
    method HandleConvert()
      requires wallet.Valid()
      modifies this`isLoading, this`pointsToConvert, this`tokenBalance, this`isLoadingBalance
      modifies this`converted, this`toasts, wallet
      ensures wallet.Valid()
      ensures !(0 < old(pointsToConvert) <= availablePoints) ==> isLoading == old(isLoading)
      ensures 0 < old(pointsToConvert) <= availablePoints ==> !isLoading
      ensures old(pointsToConvert) <= 0 ==>
        toasts == old(toasts) + [Toast("Error", EnterAmountMessage)] &&
        converted == old(converted) && pointsToConvert == old(pointsToConvert) &&
        tokenBalance == old(tokenBalance) && isLoadingBalance == old(isLoadingBalance) &&
        unchanged(wallet)
      ensures 0 < old(pointsToConvert) && old(pointsToConvert) > availablePoints ==>
        toasts == old(toasts) + [Toast("Error", NotEnoughMessage)] &&
        converted == old(converted) && pointsToConvert == old(pointsToConvert) &&
        tokenBalance == old(tokenBalance) && isLoadingBalance == old(isLoadingBalance) &&
        unchanged(wallet)
      ensures 0 < old(pointsToConvert) <= availablePoints && !old(wallet.isWalletConnected) ==>
        toasts == old(toasts) + [Toast("Conversion Error", NotConnectedError)] &&
        converted == old(converted) && pointsToConvert == old(pointsToConvert) &&
        tokenBalance == old(tokenBalance) && isLoadingBalance == old(isLoadingBalance) &&
        unchanged(wallet)
      ensures (0 < old(pointsToConvert) <= availablePoints && old(wallet.isWalletConnected) &&
               old(pointsToConvert) < PointsToTokenRate) ==>
        toasts == old(toasts) + [Toast("Conversion Error", MinimumPointsError)] &&
        converted == old(converted) && pointsToConvert == old(pointsToConvert) &&
        tokenBalance == old(tokenBalance) && isLoadingBalance == old(isLoadingBalance) &&
        unchanged(wallet)
      ensures (0 < old(pointsToConvert) <= availablePoints && old(wallet.isWalletConnected) &&
               old(pointsToConvert) >= PointsToTokenRate) ==>
        toasts == old(toasts) + [Toast("Success", SuccessMessage(old(pointsToConvert)))] &&
        converted == old(converted) + [old(pointsToConvert)] && pointsToConvert == 0 &&
        wallet.mockTokenBalance == old(wallet.mockTokenBalance) + old(pointsToConvert) as real / PointsToTokenRate as real &&
        tokenBalance == Some(wallet.mockTokenBalance) && wallet.connectedWalletAddress == walletAddress &&
        !isLoadingBalance
      ensures wallet.isWalletConnected == old(wallet.isWalletConnected)
    {
      var amount := pointsToConvert;
      if amount <= 0 {
        toasts := toasts + [Toast("Error", EnterAmountMessage)];
        return;
      }
      if amount > availablePoints {
        toasts := toasts + [Toast("Error", NotEnoughMessage)];
        return;
      }
      isLoading := true;
      var result := wallet.ConvertPointsToTokens(walletAddress, amount);
      if result.Converted? {
        LoadTokenBalance();
        converted := converted + [amount];
        pointsToConvert := 0;
        toasts := toasts + [Toast("Success", SuccessMessage(amount))];
      } else {
        toasts := toasts + [Toast("Conversion Error", result.error)];
      }
      isLoading := false;
    }
  }
}
