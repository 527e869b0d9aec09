/**
 * The mock Polygon wallet (client/src/lib/polygon.ts). The library keeps three module-wide
 * variables (the connection flag, the connected address and the token balance); here they
 * are the fields of one `MockWallet` object that the rewards panel holds a reference to.
 */
module Polygon {
  import opened Text

  /** 100 points make one token. */
  const PointsToTokenRate := 100

  const NotConnectedError := "Wallet not connected. Please connect your wallet first."
  const MinimumPointsError := "Minimum 100 points required for conversion."

  /** What `convertPointsToTokens` resolves to (the mock transaction hash is not modelled). */
  datatype Conversion = Converted | ConversionFailed(error: string)

  class MockWallet {
    var isWalletConnected: bool
    var connectedWalletAddress: string
    var mockTokenBalance: real

    /** Tokens are only ever added, so the balance is never negative. */
    ghost predicate Valid()
      reads this
    {
      mockTokenBalance >= 0.0
    }

    constructor()
      ensures Valid()
      ensures !isWalletConnected && connectedWalletAddress == "" && mockTokenBalance == 0.0
    {
      isWalletConnected := false;
      connectedWalletAddress := "";
      mockTokenBalance := 0.0;
    }

    /** A key that is empty or shorter than 10 characters is refused and the flag is left alone. */
    method InitializePolygon(privateKey: string) returns (ok: bool)
      modifies this`isWalletConnected
      ensures ok <==> |privateKey| >= 10
      ensures ok ==> isWalletConnected
      ensures !ok ==> isWalletConnected == old(isWalletConnected)
    {
      if |privateKey| == 0 || |privateKey| < 10 {
        return false;
      }
      isWalletConnected := true;
      return true;
    }

    /**
     * Fails without touching the balance when no wallet is connected or fewer than 100 points
     * are offered; otherwise credits points / 100 tokens.
     */
    method ConvertPointsToTokens(userWalletAddress: string, pointsToConvert: int) returns (r: Conversion)
      requires Valid()
      modifies this`mockTokenBalance
      ensures Valid()
      ensures !isWalletConnected ==>
        r == ConversionFailed(NotConnectedError) && mockTokenBalance == old(mockTokenBalance)
      ensures isWalletConnected && pointsToConvert < PointsToTokenRate ==>
        r == ConversionFailed(MinimumPointsError) && mockTokenBalance == old(mockTokenBalance)
      ensures isWalletConnected && pointsToConvert >= PointsToTokenRate ==>
        r == Converted &&
        mockTokenBalance == old(mockTokenBalance) + pointsToConvert as real / PointsToTokenRate as real
      ensures r.Converted? <==> mockTokenBalance != old(mockTokenBalance)
    {
      if !isWalletConnected {
        return ConversionFailed(NotConnectedError);
      }
      if pointsToConvert < PointsToTokenRate {
        return ConversionFailed(MinimumPointsError);
      }
      var tokensToMint := pointsToConvert as real / PointsToTokenRate as real;
      mockTokenBalance := mockTokenBalance + tokensToMint;
      return Converted;
    }

    /** Answers the balance and remembers the queried address as the connected one. */
    method GetTokenBalance(walletAddress: string) returns (balance: real)
      modifies this`connectedWalletAddress
      ensures balance == mockTokenBalance
      ensures connectedWalletAddress == walletAddress
    {
      if walletAddress == connectedWalletAddress {
        return mockTokenBalance;
      }
      connectedWalletAddress := walletAddress;
      return mockTokenBalance;
    }

    /** Reports the connection flag. */
    method CheckPolygonConnection() returns (connected: bool)
      ensures connected == isWalletConnected
    {
      return isWalletConnected;
    }
  }

  /** Shortens an address of 10 or more characters to its first 6, "..." and its last 4. */
  function FormatWalletAddress(address: string): (r: string)
    ensures |address| < 10 ==> r == address
    ensures |address| >= 10 ==> r == address[..6] + "..." + address[|address| - 4..]
    ensures |address| >= 10 ==> |r| == 13
  {
    if |address| == 0 || |address| < 10 then address
    else Substring(address, 0, 6) + "..." + SubstringFrom(address, |address| - 4)
  }
}
