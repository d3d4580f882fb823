# TopupGo session gate — a Dafny model

This project models the client-side session gate of the TopupGo wallet front
end and the console filter installed around it.

The App component (`components/App.tsx`) reads signals from the embedded-wallet
SDK and from wagmi: the provider handle, `isConnected`, the connect-in-flight
flag, the wallet address, the chain id and the hook-reported user profile. From
them it keeps three state cells: `isInitializing`, `userInfo` and
`hasShownWelcomeToast`. It chooses between a loading view, a logged-out view and
a logged-in view. As side effects it fetches user info while a restored session
settles, shows a welcome toast for a new login, switches the wallet to the
Polygon chain, and runs the "Top Up" funding action.

`ConsoleFilter` (`components/provider.tsx`) patches `console.warn` and
`console.error` so that hCaptcha/localhost noise is dropped, and restores both
on teardown.

Modules:

- `Wrappers` — `Option`, standing for a present value versus `null`/`undefined`.
- `Session` — the signal snapshot and the component's pure decisions:
  `IsAuthenticated`, `ChooseView`, the user-info instance lookup, the
  auto-switch guard and `TruncateAddress`.
- `Gate` — class `AppGate`, holding the three state cells, the pending
  asynchronous work and a log of every call made to the outside world. There is
  one method per effect run and one per timer or promise that settles. Its
  invariant `Valid()` says the welcome toast is in the log at most once.
- `Funding` — `OpenBuyCrypto` (also bound as `handleTopUp`), returning the calls
  it makes, in order.
- `ConsoleFilter` — the suppression predicate, the patched console functions and
  the install/restore lifecycle.

Outside inputs are parameters. The SDK hooks are a `Signals` snapshot per
render. Each SDK promise is an outcome argument of the event method that
settles it. The 100 ms and 500 ms timers are "elapsed" and "fired" events.
`POLYGON_CHAIN_ID` comes from a configuration file that is not part of this
model, so it is the constant `polygonChainId` given to the constructor.

The provider handle is a three-valued `ProviderRef` (`Null`, `Undefined`,
`Present`). The code tests it with `!== null` in `isAuthenticated` and in the
welcome effect, but for truthiness in checkSession, the auto-switch guard and
the funding guard, and the two tests disagree on `undefined`.

## Model

| member | source | states |
|---|---|---|
| Session.IsAuthenticated | components/App.tsx:119 | authenticated exactly unless the provider is `null`, `isConnected` is false and the address is `undefined`; a truthy provider or a non-empty address always authenticates |
| Session.ChooseView | components/App.tsx:419-438 | the loading view exactly while initializing; otherwise the logged-out view exactly when not authenticated; the logged-out view is never chosen while a provider is present |
| Session.FirstPresent | components/App.tsx:72-75 | `a \|\| b \|\| …` over objects: present exactly when some candidate is, and then equal to the first present candidate |
| Session.SelectInstance | components/App.tsx:67-76 | the user-info instance is the first present one among `web3Auth`, `provider.web3AuthInstance`, `provider.provider.web3AuthInstance` and `provider._web3AuthInstance` |
| Session.ShouldAutoSwitch | components/App.tsx:135-145 | a switch is requested exactly when the captured snapshot has a truthy provider and address and a chain other than the target; the `isAuthenticated` test is implied |
| Session.ProviderTruthy | components/App.tsx:63 | the provider handle is truthy exactly when it is neither `null` nor `undefined` (the same test at lines 137 and 229) |
| Session.AddressTruthy | components/App.tsx:137 | the address is truthy exactly when it is neither `undefined` nor the empty string (the same test as `!addr` at line 173) |
| Session.NestedInstance | components/App.tsx:74 | `provider?.provider?.web3AuthInstance`: absent when the nested provider is absent, otherwise that provider's instance |
| Session.SliceTo | components/App.tsx:174 | `addr.slice(0, n)` counted in characters (code points): a prefix of length `n`, or the whole string when shorter |
| Session.SliceLast | components/App.tsx:174 | `addr.slice(-n)` for `n > 0`, counted in characters (code points): the last `n` characters, or the whole string when shorter |
| Session.TruncateAddress | components/App.tsx:172-175 | `""` exactly for an undefined or empty address; otherwise the first 6 characters (all of a shorter address), then `"..."`, then the last 4 characters (all of a shorter address); length 13 and the exact first 6 and last 4 characters whenever the address has at least 10 |
| Gate.AppGate.constructor | components/App.tsx:25-29 | mounts with `isInitializing` true, no `userInfo`, the welcome flag (line 183) false, nothing pending and no calls |
| Gate.AppGate.StartSessionCheck | components/App.tsx:59-99 | with a truthy provider: one `getUserInfo` call on the selected instance when it has that function, else straight to the delay, `isInitializing` untouched; with none: `isInitializing` cleared unless a connect is in flight, else unchanged |
| Gate.AppGate.UserInfoSettled | components/App.tsx:78-86 | a truthy fetched profile overwrites `userInfo`; a falsy one or a rejection leaves it unchanged (a rejection is logged); the run proceeds to its delay either way |
| Gate.AppGate.InitDelayElapsed | components/App.tsx:88-90 | after the delay `isInitializing` is false, whether the fetch succeeded or threw |
| Gate.AppGate.SyncHookUserInfo | components/App.tsx:106-110 | a present hook profile unconditionally overwrites `userInfo`; an absent one changes nothing |
| Gate.AppGate.ScheduleAutoSwitch | components/App.tsx:156-162 | re-running the effect replaces the pending 500 ms timer, which cancels the previous attempt |
| Gate.AppGate.AutoSwitchTimerFired | components/App.tsx:134-154 | no switch request when the captured snapshot lacks a provider or address or is already on the target chain; otherwise exactly one `switchChain(POLYGON_CHAIN_ID)`, whose failure is only logged |
| Gate.AppGate.WelcomeEffect | components/App.tsx:185-220 | when connected, initialized and not yet shown, the flag becomes true in both branches and the toast is emitted only for a `null` provider; invariant `Valid()`: at most one welcome toast per component lifetime |
| Funding.OpenBuyCrypto | components/App.tsx:227-261 | no provider: exactly one "Wallet not connected" error and no SDK call; otherwise one checkout with `["USD"]`/`["USDC"]`; success: no fallback and no error toast; failure: one error toast followed by exactly one `showWalletUI({path: "wallet/funding"})`, whose synchronous failure is only logged |
| ConsoleFilter.Includes | components/provider.tsx:39-44 | `String.prototype.includes`: true exactly when the needle occurs at some index |
| ConsoleFilter.IncludesSubstring | components/provider.tsx:40-41 | a string containing `t` contains every substring of `t` (so `"[hCaptcha]"` implies `"hCaptcha"`) |
| ConsoleFilter.Message | components/provider.tsx:37 | the message is `""` for a missing, `null` or `undefined` first argument, else the first argument's string form; later arguments are never read |
| ConsoleFilter.Suppressed | components/provider.tsx:39-44 | suppressed exactly when the message contains `"hCaptcha"`, `"localhost detected"` or `"Please use a valid host"`; the empty message is not suppressed |
| ConsoleFilter.Invoke | components/provider.tsx:36-63 | a patched function prints nothing for a suppressed message and otherwise reaches the original function with the argument list unchanged |
| ConsoleFilter.LaterArgumentsIgnored | components/provider.tsx:36-62 | two calls of a patched function with the same first argument are both dropped or both printed, whatever their later arguments; a printed call reaches the replaced function with the full argument list unchanged |
| ConsoleFilter.Install | components/provider.tsx:30-64 | with `window` defined both slots are wrapped and the originals saved; without it nothing is patched |
| ConsoleFilter.Restore | components/provider.tsx:65-68 | teardown puts back exactly the saved `console.warn` and `console.error` |

## Left out

- JSX rendering, styling, toast options and layout. The chosen view is the `View` enum and toasts are entries of the call log.
- `uiConsole` and `copyToClipboard` (App.tsx:164-179). They touch the DOM and the clipboard.
- The connect and disconnect buttons and the inline error messages. They only call the SDK or display its state.
- `components/wagmi/getBalance.tsx`, the `Web3AuthProvider`/`QueryClientProvider`/`WagmiProvider`/`Toaster` configuration, `cookieToWeb3AuthState`, `next.config.js`, `app/layout.tsx`, `components/ClientProviders.tsx` and the `lib/*` stubs. These are outside SDK configuration, build settings and shims, and are not part of this model.
- Real time and React scheduling. Which effects run after a render (dependency comparison) is decided by the caller of the gate's methods. An elapsed delay or a fired timer is an explicit event.
- The effect methods read the state cells as they are when the method runs. A React effect reads the values of the render that scheduled it, so a caller that wants React's exact view must order the calls accordingly. For example, a checkSession that clears `isInitializing` in the same commit is seen by a later `WelcomeEffect` call, whereas React's welcome effect (App.tsx:188) would still see `true`.
- Unmounting the App component. The cleanup of the auto-switch timer on unmount, and React ignoring state updates after unmount, are not modelled.
- Gate.AppGate.AutoSwitchTimerFired: the log entry of a failed switch is appended right after the request, not when the promise later rejects.
- Gate.AppGate.UserInfoSettled: console messages keep only their first argument; the error object is dropped. The same holds for every `ConsoleError`/`ConsoleLog` entry.
- Session.TruncateAddress, Session.SliceTo, Session.SliceLast: lengths and indices count Unicode code points, while JavaScript's `slice` counts UTF-16 code units. Results therefore differ for characters outside the Basic Multilingual Plane, such as emoji. They agree on input where every character is in that plane, which includes ASCII input such as hex wallet addresses.
- ConsoleFilter.Message: `args[0]?.toString()` throws a TypeError when the first argument has no callable `toString` (such as `Object.create(null)`) or when its `toString` throws; the patched function then throws to its caller instead of forwarding. The model's `Arg` has no such value, so it does not capture that path.
- Funding.OpenBuyCrypto: `showWalletUI` is not awaited, so only a synchronous throw reaches its `catch`. A later rejection leaves the function as an unhandled rejection, and the model records nothing for it.
- The welcome effect does not observe a transition of `connected`. The comment at App.tsx:181-182 speaks of a toast "on new login (not on page refresh)". The code decides on each welcome-effect run where its gate holds, from whether the provider is `null` at that moment, and the model does the same.
- The chain switch has no in-flight guard. Two timers fired after separate dependency changes can each issue a `switchChain` request while the first is still pending; the code only cancels a timer that has not fired (App.tsx:161), and the model does the same.
- The direct user-info fetch is not limited to the first appearance of the provider. The code re-runs checkSession, and with it the fetch, on every change of the provider or of `connectLoading` while the provider is truthy (App.tsx:99), and the model does the same.
