/**
 * The funding action of the App component (components/App.tsx, openBuyCrypto,
 * also bound as handleTopUp): a guard on the provider, the checkout modal as
 * the primary path and the wallet UI's funding page as the fallback.
 */
module Funding {
  import opened Session
  import opened Gate

  /** How the awaited `showCheckout(...)` settled. */
  datatype CheckoutOutcome = CheckoutOpened | CheckoutFailed

  /**
   * How the un-awaited `showWalletUI(...)` behaved: it returned, it threw
   * before returning, or it returned a promise that later rejected.
   */
  datatype WalletUIOutcome = WalletUIOpened | WalletUIThrew | WalletUIRejected

  const NotConnected := "Wallet not connected"
  const CheckoutFailedMessage := "Failed to open Buy. Please try again."
  const BuyToastId := "buy-crypto"
  const FundingCall := ShowWalletUI(true, "wallet/funding")
  const CheckoutCall := ShowCheckout(true, ["USD"], ["USDC"])

  /** Calls that reach the wallet SDK rather than the toast library or the console. */
  predicate IsSdkCall(c: Call) {
    c.GetUserInfo? || c.SwitchChain? || c.ShowCheckout? || c.ShowWalletUI?
  }

  /**
   * openBuyCrypto, returning every call it makes in order. Without a provider
   * it raises one error toast and touches no SDK; otherwise it opens the
   * checkout for USD to USDC, and only when that fails does it report one
   * error and open the funding page once. A synchronous failure of the
   * fallback is logged; a later rejection is not awaited and so is not.
   */
  method OpenBuyCrypto(provider: ProviderRef, checkout: CheckoutOutcome, fallback: WalletUIOutcome)
    returns (calls: seq<Call>)
    ensures !ProviderTruthy(provider) ==> calls == [ToastError(NotConnected)]
    ensures !ProviderTruthy(provider) ==> forall i :: 0 <= i < |calls| ==> !IsSdkCall(calls[i])
    ensures ProviderTruthy(provider) ==>
      |calls| >= 4 && calls[0] == ToastLoading("Opening Buy…", BuyToastId) && calls[1] == CheckoutCall &&
      forall i :: 0 <= i < |calls| && calls[i].ShowCheckout? ==> i == 1
    ensures ProviderTruthy(provider) && checkout.CheckoutOpened? ==>
      calls[2..] == [ToastDismiss(BuyToastId), ToastSuccess("Buy opened")] &&
      forall i :: 0 <= i < |calls| ==> !calls[i].ShowWalletUI? && !calls[i].ToastError?
    ensures ProviderTruthy(provider) && checkout.CheckoutFailed? ==>
      |calls| >= 6 &&
      calls[2..6] == [ConsoleError("Error opening checkout:"), ToastDismiss(BuyToastId),
                      ToastError(CheckoutFailedMessage), FundingCall] &&
      (forall i :: 0 <= i < |calls| && calls[i].ShowWalletUI? ==> i == 5) &&
      (forall i :: 0 <= i < |calls| && calls[i].ToastError? ==> i == 4) &&
      calls[6..] == if fallback.WalletUIThrew? then [ConsoleError("Fallback also failed:")] else []
  {
    calls := [];
    if !ProviderTruthy(provider) {
      calls := calls + [ToastError(NotConnected)];
      return;
    }
    calls := calls + [ToastLoading("Opening Buy…", BuyToastId), CheckoutCall];
    if checkout.CheckoutOpened? {
      calls := calls + [ToastDismiss(BuyToastId), ToastSuccess("Buy opened")];
    } else {
      calls := calls + [ConsoleError("Error opening checkout:"), ToastDismiss(BuyToastId),
                        ToastError(CheckoutFailedMessage), FundingCall];
      if fallback.WalletUIThrew? {
        calls := calls + [ConsoleError("Fallback also failed:")];
      }
    }
  }
}
