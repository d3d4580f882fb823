/**
 * The pure decisions of the App component (components/App.tsx): the signal
 * snapshot it reads from the wallet SDK hooks, the derived authentication
 * flag, the three-way view choice, the instance used to fetch user info, the
 * guard of the chain auto-switch and the address shortener.
 */
module Session {
  import opened Wrappers

  /** A profile as the identity provider reports it. */
  datatype Profile = Profile(name: Option<string>, email: Option<string>, profileImage: Option<string>)

  /**
   * An SDK instance reachable from the hooks or the provider handle;
   * `hasGetUserInfo` is whether `typeof instance.getUserInfo === 'function'`.
   */
  datatype Instance = Instance(id: nat, hasGetUserInfo: bool)

  /** The object at `provider.provider`, of which only `web3AuthInstance` is read. */
  datatype NestedProvider = NestedProvider(web3AuthInstance: Option<Instance>)

  /** The provider handle, restricted to the three properties the component probes. */
  datatype Handle = Handle(
    web3AuthInstance: Option<Instance>,
    provider: Option<NestedProvider>,
    underscoreWeb3AuthInstance: Option<Instance>)

  /**
   * The provider handle as a JavaScript value. The component tests it both with
   * `!== null` and for truthiness, and `undefined` answers those differently.
   */
  datatype ProviderRef = Null | Undefined | Present(handle: Handle)

  /** A snapshot of every external signal the component reads during one render. */
  datatype Signals = Signals(
    provider: ProviderRef,        // useWeb3Auth().provider
    web3Auth: Option<Instance>,   // useWeb3Auth().web3Auth
    isConnected: bool,            // useWeb3AuthConnect().isConnected
    connectLoading: bool,         // useWeb3AuthConnect().loading
    address: Option<string>,      // useAccount().address
    chainId: int,                 // useChainId()
    hookUserInfo: Option<Profile>) // useWeb3AuthUser().userInfo

  /** The screen the component renders. */
  datatype View = Loading | LoggedOut | LoggedIn

  /** `if (web3AuthProvider)`: only a present handle is truthy. */
  predicate ProviderTruthy(p: ProviderRef)
    ensures ProviderTruthy(p) <==> p != Null && p != Undefined
  {
    p.Present?
  }

  /** `if (address)`: undefined and the empty string are falsy. */
  predicate AddressTruthy(a: Option<string>)
    ensures AddressTruthy(a) <==> a != None && a != Some("")
  {
    a.Some? && a.value != ""
  }

  /**
   * `isAuthenticated`: any one of the three signals is taken as evidence of a
   * live session. A truthy provider always authenticates, and the user counts
   * as logged out only when all three signals are absent.
   */
  function IsAuthenticated(s: Signals): (r: bool)
    ensures ProviderTruthy(s.provider) ==> r
    ensures AddressTruthy(s.address) ==> r
    ensures !r <==> s.provider.Null? && !s.isConnected && s.address.None?
  {
    s.provider != Null || s.isConnected || s.address != None
  }

  /**
   * The view chosen at the end of a render: the loading view while
   * initializing, then the logged-out view exactly when not authenticated.
   */
  function ChooseView(isInitializing: bool, s: Signals): (v: View)
    ensures v == Loading <==> isInitializing
    ensures v == LoggedOut <==> !isInitializing && !IsAuthenticated(s)
    ensures v == LoggedOut ==> s.provider.Null? && !s.isConnected && s.address.None?
    ensures ProviderTruthy(s.provider) ==> v != LoggedOut
    ensures v == LoggedIn ==> s.provider != Null || s.isConnected || s.address.Some?
  {
    if isInitializing then Loading
    else if !IsAuthenticated(s) then LoggedOut
    else LoggedIn
  }

  /**
   * JavaScript's `a || b || ...` over values that are objects or absent: the
   * first present one, or absent when none is.
   */
  function FirstPresent<T>(xs: seq<Option<T>>): (r: Option<T>)
    ensures r.Some? <==> exists i :: 0 <= i < |xs| && xs[i].Some?
    ensures r.Some? ==> exists i :: 0 <= i < |xs| && xs[i] == r && forall j :: 0 <= j < i ==> xs[j].None?
  {
    if xs == [] then None
    else if xs[0].Some? then xs[0]
    else
      var r := FirstPresent(xs[1..]);
      assert forall i :: 1 <= i < |xs| ==> xs[i] == xs[1..][i - 1];
      r
  }

  /** `provider?.provider?.web3AuthInstance`. */
  function NestedInstance(h: Handle): (r: Option<Instance>)
    ensures h.provider.None? ==> r == None
    ensures h.provider.Some? ==> r == h.provider.value.web3AuthInstance
  {
    if h.provider.Some? then h.provider.value.web3AuthInstance else None
  }

  /**
   * The instance checkSession asks for user info: `web3Auth` when present,
   * otherwise the first present one of the three provider paths.
   */
  function SelectInstance(web3Auth: Option<Instance>, h: Handle): (r: Option<Instance>)
    ensures r == FirstPresent([web3Auth, h.web3AuthInstance, NestedInstance(h), h.underscoreWeb3AuthInstance])
    ensures web3Auth.Some? ==> r == web3Auth
  {
    var candidates := [web3Auth, h.web3AuthInstance, NestedInstance(h), h.underscoreWeb3AuthInstance];
    var rest := candidates[1..];
    assert web3Auth.None? ==> FirstPresent(candidates) == FirstPresent(rest);
    assert h.web3AuthInstance.None? ==> FirstPresent(rest) == FirstPresent(rest[1..]);
    assert NestedInstance(h).None? ==> FirstPresent(rest[1..]) == FirstPresent(rest[1..][1..]);
    var instance := web3Auth;
    if instance.Some? then instance
    else if h.web3AuthInstance.Some? then h.web3AuthInstance
    else if NestedInstance(h).Some? then NestedInstance(h)
    else h.underscoreWeb3AuthInstance
  }

  /**
   * The guard of autoSwitchToPolygon, evaluated on the snapshot the 500 ms
   * timer captured. The `isAuthenticated` test is implied by the provider test,
   * so a switch is requested exactly when a provider and an address are present
   * and the chain is not already the target.
   */
  function ShouldAutoSwitch(s: Signals, target: int): (r: bool)
    ensures r <==> ProviderTruthy(s.provider) && AddressTruthy(s.address) && s.chainId != target
  {
    if !IsAuthenticated(s) || !ProviderTruthy(s.provider) || !AddressTruthy(s.address) then false
    else if s.chainId == target then false
    else true
  }

  /** `str.slice(0, n)` for n >= 0, counting characters rather than UTF-16 code units. */
  function SliceTo(str: string, n: nat): (r: string)
    ensures |r| == if |str| < n then |str| else n
    ensures r <= str
  {
    if |str| < n then str else str[..n]
  }

  /**
   * `str.slice(-n)` for n > 0: the last n characters, or all of a shorter
   * string, counting characters rather than UTF-16 code units.
   */
  function SliceLast(str: string, n: nat): (r: string)
    requires n > 0
    ensures |r| == if |str| < n then |str| else n
    ensures forall k :: 0 <= k < |r| ==> r[k] == str[|str| - |r| + k]
  {
    if |str| < n then str else str[|str| - n..]
  }

  /**
   * truncateAddress: "" for an undefined or empty address, otherwise the first
   * six characters, "..." and the last four.
   */
  function TruncateAddress(addr: Option<string>): (r: string)
    ensures r == "" <==> !AddressTruthy(addr)
    ensures AddressTruthy(addr) ==>
      var a := addr.value;
      |r| == (if |a| < 6 then |a| else 6) + 3 + (if |a| < 4 then |a| else 4) &&
      r[..|r| - (if |a| < 4 then |a| else 4)] == SliceTo(a, 6) + "..." &&
      r[|r| - (if |a| < 4 then |a| else 4)..] == a[|a| - (if |a| < 4 then |a| else 4)..]
    ensures AddressTruthy(addr) && |addr.value| >= 10 ==>
      var a := addr.value;
      |r| == 13 && r[..6] == a[..6] && r[6..9] == "..." && r[9..] == a[|a| - 4..]
  {
    if !AddressTruthy(addr) then ""
    else SliceTo(addr.value, 6) + "..." + SliceLast(addr.value, 4)
  }
}
