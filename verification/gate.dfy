/**
 * The session gate of the App component (components/App.tsx): the state cells
 * `isInitializing`, `userInfo` and `hasShownWelcomeToast`, updated by the
 * component's effects. Each effect run is a method taking the signal snapshot
 * of the render that triggered it. The awaits inside checkSession and the
 * 500 ms auto-switch timer are split into separate "settled" and "fired"
 * events, so any interleaving the browser may choose is a sequence of calls.
 * Everything the component asks of the outside world is appended to `calls`.
 */
module Gate {
  import opened Wrappers
  import opened Session

  /** A request the component makes of an SDK, the toast library or the console. */
  datatype Call =
    | GetUserInfo(instance: Instance)
    | SwitchChain(chainId: int)
    | ShowCheckout(show: bool, fiatList: seq<string>, tokenList: seq<string>)
    | ShowWalletUI(show: bool, path: string)
    | WelcomeToast
    | ToastLoading(message: string, id: string)
    | ToastDismiss(id: string)
    | ToastSuccess(message: string)
    | ToastError(message: string)
    | ConsoleError(message: string)
    | ConsoleLog(message: string)

  /** How an awaited `getUserInfo()` settled. */
  datatype FetchOutcome = Resolved(info: Option<Profile>) | Rejected

  /** How an awaited `switchChain(...)` settled. */
  datatype SwitchOutcome = Switched | SwitchFailed

  class AppGate {
    /** POLYGON_CHAIN_ID, a configuration constant defined outside the component. */
    const polygonChainId: int

    var isInitializing: bool
    var userInfo: Option<Profile>
    var hasShownWelcomeToast: bool

    /** checkSession runs waiting for `getUserInfo()` to settle. */
    var fetching: nat
    /** checkSession runs waiting for their 100 ms delay. */
    var delaying: nat
    /** The pending 500 ms auto-switch timer, with the snapshot its closure captured. */
    var switchTimer: Option<Signals>

    /** Everything requested of the outside world so far, oldest first. */
    var calls: seq<Call>

    /**
     * The welcome toast has been emitted at most once, and if it has, the flag
     * that stops it is already set.
     */
    ghost predicate Valid()
      reads this
    {
      multiset(calls)[WelcomeToast] <= 1 &&
      (multiset(calls)[WelcomeToast] == 1 ==> hasShownWelcomeToast)
    }

    /** Mount: `useState(true)`, `useState(null)`, `useState(false)`. */
    constructor (polygonChainId: int)
      ensures Valid()
      ensures this.polygonChainId == polygonChainId
      ensures isInitializing && userInfo == None && !hasShownWelcomeToast
      ensures fetching == 0 && delaying == 0 && switchTimer == None && calls == []
    {
      this.polygonChainId := polygonChainId;
      isInitializing := true;
      userInfo := None;
      hasShownWelcomeToast := false;
      fetching, delaying := 0, 0;
      switchTimer := None;
      calls := [];
    }

    /**
     * The session effect runs checkSession (its dependencies, the provider and
     * connectLoading, changed). With a truthy provider it starts a user-info
     * fetch when the selected instance has `getUserInfo`, or goes straight to
     * the 100 ms delay; with no provider it clears `isInitializing` unless a
     * connect is in flight.
     */
    method StartSessionCheck(s: Signals)
      requires Valid()
      modifies this
      ensures Valid()
      ensures isInitializing ==> old(isInitializing)
      ensures userInfo == old(userInfo) && hasShownWelcomeToast == old(hasShownWelcomeToast)
      ensures switchTimer == old(switchTimer)
      ensures ProviderTruthy(s.provider) ==>
        isInitializing == old(isInitializing) &&
        var instance := SelectInstance(s.web3Auth, s.provider.handle);
        if instance.Some? && instance.value.hasGetUserInfo then
          calls == old(calls) + [GetUserInfo(instance.value)] &&
          fetching == old(fetching) + 1 && delaying == old(delaying)
        else
          calls == old(calls) && fetching == old(fetching) && delaying == old(delaying) + 1
      ensures !ProviderTruthy(s.provider) ==>
        isInitializing == (old(isInitializing) && s.connectLoading) &&
        calls == old(calls) && fetching == old(fetching) && delaying == old(delaying)
    {
      if ProviderTruthy(s.provider) {
        var instance := SelectInstance(s.web3Auth, s.provider.handle);
        if instance.Some? && instance.value.hasGetUserInfo {
          calls := calls + [GetUserInfo(instance.value)];
          fetching := fetching + 1;
        } else {
          delaying := delaying + 1;
        }
      } else if !s.connectLoading {
        isInitializing := false;
      }
    }

    /**
     * One pending `getUserInfo()` settles. A truthy result is stored, a falsy one
     * is ignored, a rejection is logged; in every case that run of checkSession
     * moves on to its 100 ms delay.
     */
    method UserInfoSettled(outcome: FetchOutcome)
      requires Valid()
      requires fetching > 0
      modifies this
      ensures Valid()
      ensures fetching == old(fetching) - 1 && delaying == old(delaying) + 1
      ensures userInfo == if outcome.Resolved? && outcome.info.Some? then outcome.info else old(userInfo)
      ensures calls == old(calls) + if outcome.Rejected? then [ConsoleError("Error fetching user info:")] else []
      ensures isInitializing == old(isInitializing) && hasShownWelcomeToast == old(hasShownWelcomeToast)
      ensures switchTimer == old(switchTimer)
    {
      match outcome {
        case Resolved(info) =>
          if info.Some? {
            userInfo := info;
          }
        case Rejected =>
          calls := calls + [ConsoleError("Error fetching user info:")];
      }
      fetching := fetching - 1;
      delaying := delaying + 1;
    }

    /** The 100 ms delay of one checkSession run elapses: initialization is over. */
    method InitDelayElapsed()
      requires Valid()
      requires delaying > 0
      modifies this
      ensures Valid()
      ensures !isInitializing
      ensures delaying == old(delaying) - 1 && fetching == old(fetching)
      ensures userInfo == old(userInfo) && hasShownWelcomeToast == old(hasShownWelcomeToast)
      ensures switchTimer == old(switchTimer) && calls == old(calls)
    {
      delaying := delaying - 1;
      isInitializing := false;
    }

    /** The hook user-info effect: a present hook profile overwrites `userInfo`. */
    method SyncHookUserInfo(hookUserInfo: Option<Profile>)
      requires Valid()
      modifies this
      ensures Valid()
      ensures userInfo == if hookUserInfo.Some? then hookUserInfo else old(userInfo)
      ensures hookUserInfo.Some? ==> userInfo.Some?
      ensures isInitializing == old(isInitializing) && hasShownWelcomeToast == old(hasShownWelcomeToast)
      ensures fetching == old(fetching) && delaying == old(delaying)
      ensures switchTimer == old(switchTimer) && calls == old(calls)
    {
      if hookUserInfo.Some? {
        userInfo := hookUserInfo;
      }
    }

    /**
     * The auto-switch effect runs (one of its dependencies changed): the cleanup
     * of the previous run clears any pending timer, and a new 500 ms timer is
     * set whose closure holds this render's snapshot.
     */
    method ScheduleAutoSwitch(s: Signals)
      requires Valid()
      modifies this
      ensures Valid()
      ensures switchTimer == Some(s)
      ensures isInitializing == old(isInitializing) && userInfo == old(userInfo)
      ensures hasShownWelcomeToast == old(hasShownWelcomeToast)
      ensures fetching == old(fetching) && delaying == old(delaying) && calls == old(calls)
    {
      switchTimer := Some(s);
    }

    /**
     * The pending 500 ms timer fires. It requests at most one switch to the
     * target chain, and none when the captured snapshot lacks a provider or an
     * address or is already on the target chain; a failed switch is only logged.
     */
    method AutoSwitchTimerFired(outcome: SwitchOutcome)
      requires Valid()
      requires switchTimer.Some?
      modifies this
      ensures Valid()
      ensures switchTimer == None
      ensures var s := old(switchTimer).value;
        if ShouldAutoSwitch(s, polygonChainId) then
          calls == old(calls) + [SwitchChain(polygonChainId)] +
            (if outcome.SwitchFailed? then [ConsoleLog("Auto-switch to Polygon:")] else [])
        else
          calls == old(calls)
      ensures old(switchTimer).value.chainId == polygonChainId ==> calls == old(calls)
      ensures isInitializing == old(isInitializing) && userInfo == old(userInfo)
      ensures hasShownWelcomeToast == old(hasShownWelcomeToast)
      ensures fetching == old(fetching) && delaying == old(delaying)
    {
      var s := switchTimer.value;
      switchTimer := None;
      if ShouldAutoSwitch(s, polygonChainId) {
        calls := calls + [SwitchChain(polygonChainId)];
        if outcome.SwitchFailed? {
          calls := calls + [ConsoleLog("Auto-switch to Polygon:")];
        }
      }
    }

    /**
     * The welcome effect runs. Once connected, initialized and not yet shown,
     * the flag is set in both branches, and the toast is emitted only when the
     * provider is `null` (a new login rather than a restored one).
     */
    method WelcomeEffect(s: Signals)
      requires Valid()
      modifies this
      ensures Valid()
      ensures s.isConnected && !old(isInitializing) && !old(hasShownWelcomeToast) ==>
        hasShownWelcomeToast &&
        calls == old(calls) + if s.provider.Null? then [WelcomeToast] else []
      ensures !(s.isConnected && !old(isInitializing) && !old(hasShownWelcomeToast)) ==>
        hasShownWelcomeToast == old(hasShownWelcomeToast) && calls == old(calls)
      ensures isInitializing == old(isInitializing) && userInfo == old(userInfo)
      ensures fetching == old(fetching) && delaying == old(delaying) && switchTimer == old(switchTimer)
    {
      if s.isConnected && !isInitializing && !hasShownWelcomeToast {
        var wasRestored := s.provider != Null;
        if !wasRestored {
          calls := calls + [WelcomeToast];
          hasShownWelcomeToast := true;
        } else {
          hasShownWelcomeToast := true;
        }
      }
    }
  }
}
