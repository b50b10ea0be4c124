/**
 * The wallet-connection dialog of components/wallet-connect-modal.tsx: the
 * static table of wallets, the per-chain filter, the install probe, the
 * address shortener and the `select -> connecting -> signing -> success`
 * step machine driven by `handleWalletSelect`.
 *
 * The browser's injected providers are an abstract `Window` (what the probes
 * see) and a `ProviderOutcome` (what the provider calls answer or throw).
 */
module WalletConnectModal {
  import opened Options

  datatype Chain = Solana | Ethereum

  datatype Step = Select | Connecting | Signing | Success

  /** The `id` strings of `walletOptions`: "phantom", "metamask", "coinbase", "walletconnect", "solflare", "trust". */
  datatype WalletId = PhantomId | MetaMaskId | CoinbaseId | WalletConnectId | SolflareId | TrustId

  /** An entry of `walletOptions` (the icon and the load-time `installed` flag are not read by the logic). */
  datatype WalletOption = WalletOption(id: WalletId, name: string, chains: seq<Chain>, downloadUrl: string)

  const Phantom := WalletOption(PhantomId, "Phantom", [Solana], "https://phantom.app/download")
  const MetaMask := WalletOption(MetaMaskId, "MetaMask", [Ethereum], "https://metamask.io/download/")
  const Coinbase := WalletOption(CoinbaseId, "Coinbase Wallet", [Ethereum, Solana], "https://www.coinbase.com/wallet")
  const WalletConnect := WalletOption(WalletConnectId, "WalletConnect", [Ethereum], "https://walletconnect.com/")
  const Solflare := WalletOption(SolflareId, "Solflare", [Solana], "https://solflare.com/")
  const Trust := WalletOption(TrustId, "Trust Wallet", [Ethereum, Solana], "https://trustwallet.com/")

  /** `walletOptions`, in table order. */
  const WalletOptions: seq<WalletOption> := [Phantom, MetaMask, Coinbase, WalletConnect, Solflare, Trust]

  // ---------------------------------------------------------------------
  // The per-chain filter
  // ---------------------------------------------------------------------

  /** `ws.filter(w => w.chains.includes(chain))`. */
  function OnChain(ws: seq<WalletOption>, chain: Chain): (r: seq<WalletOption>)
    ensures |r| <= |ws|
  {
    if ws == [] then []
    else (if chain in ws[0].chains then [ws[0]] else []) + OnChain(ws[1..], chain)
  }

  /** The filter keeps exactly the wallets that list the chain. */
  lemma {:induction false} OnChainMembers(ws: seq<WalletOption>, chain: Chain, w: WalletOption)
    ensures w in OnChain(ws, chain) <==> w in ws && chain in w.chains
  {
    if ws != [] {
      OnChainMembers(ws[1..], chain, w);
      assert w in ws <==> w == ws[0] || w in ws[1..];
    }
  }

  /** `OnChainMembers` for every wallet at once. */
  lemma OnChainFilters(ws: seq<WalletOption>, chain: Chain)
    ensures forall w :: w in OnChain(ws, chain) <==> w in ws && chain in w.chains
  {
    forall w {
      OnChainMembers(ws, chain, w);
    }
  }

  /**
   * `filteredWallets`: the wallets shown for the selected chain, which are
   * exactly the table entries that list it.
   */
  function FilteredWallets(chain: Chain): (r: seq<WalletOption>)
    ensures forall w :: w in r <==> w in WalletOptions && chain in w.chains
  {
    OnChainFilters(WalletOptions, chain);
    OnChain(WalletOptions, chain)
  }

  /** The ids of a list of wallets. */
  function Ids(ws: seq<WalletOption>): (r: seq<WalletId>)
    ensures |r| == |ws|
  {
    if ws == [] then [] else [ws[0].id] + Ids(ws[1..])
  }

  /** The ids of a four-wallet list, one by one. */
  lemma IdsOfFour(a: WalletOption, b: WalletOption, c: WalletOption, d: WalletOption)
    ensures Ids([a, b, c, d]) == [a.id, b.id, c.id, d.id]
  {
    assert [d][1..] == [];
    assert Ids([d]) == [d.id];
    assert [c, d][1..] == [d];
    assert Ids([c, d]) == [c.id, d.id];
    assert [b, c, d][1..] == [c, d];
    assert Ids([b, c, d]) == [b.id, c.id, d.id];
    assert [a, b, c, d][1..] == [b, c, d];
  }

  /** The filter over the whole table for Solana, step by step. */
  lemma OnChainSolana()
    ensures OnChain(WalletOptions, Solana) == [Phantom, Coinbase, Solflare, Trust]
    ensures Ids(OnChain(WalletOptions, Solana)) == [PhantomId, CoinbaseId, SolflareId, TrustId]
  {
    var ws := WalletOptions;
    assert OnChain(ws[6..], Solana) == [];
    assert OnChain(ws[5..], Solana) == [Trust];
    assert OnChain(ws[4..], Solana) == [Solflare, Trust];
    assert OnChain(ws[3..], Solana) == [Solflare, Trust];
    assert OnChain(ws[2..], Solana) == [Coinbase, Solflare, Trust];
    assert OnChain(ws[1..], Solana) == [Coinbase, Solflare, Trust];
    assert OnChain(ws, Solana) == [Phantom, Coinbase, Solflare, Trust];
    IdsOfFour(Phantom, Coinbase, Solflare, Trust);
  }

  /** The wallets shown for Solana, in table order. */
  lemma ShownOnSolana()
    ensures FilteredWallets(Solana) == [Phantom, Coinbase, Solflare, Trust]
    ensures Ids(FilteredWallets(Solana)) == [PhantomId, CoinbaseId, SolflareId, TrustId]
  {
    OnChainSolana();
    assert FilteredWallets(Solana) == OnChain(WalletOptions, Solana);
  }

  /** The filter over the whole table for Ethereum, step by step. */
  lemma OnChainEthereum()
    ensures OnChain(WalletOptions, Ethereum) == [MetaMask, Coinbase, WalletConnect, Trust]
    ensures Ids(OnChain(WalletOptions, Ethereum)) == [MetaMaskId, CoinbaseId, WalletConnectId, TrustId]
  {
    var ws := WalletOptions;
    assert OnChain(ws[6..], Ethereum) == [];
    assert OnChain(ws[5..], Ethereum) == [Trust];
    assert OnChain(ws[4..], Ethereum) == [Trust];
    assert OnChain(ws[3..], Ethereum) == [WalletConnect, Trust];
    assert OnChain(ws[2..], Ethereum) == [Coinbase, WalletConnect, Trust];
    assert OnChain(ws[1..], Ethereum) == [MetaMask, Coinbase, WalletConnect, Trust];
    assert OnChain(ws, Ethereum) == [MetaMask, Coinbase, WalletConnect, Trust];
    IdsOfFour(MetaMask, Coinbase, WalletConnect, Trust);
  }

  /** The wallets shown for Ethereum, in table order. */
  lemma ShownOnEthereum()
    ensures FilteredWallets(Ethereum) == [MetaMask, Coinbase, WalletConnect, Trust]
    ensures Ids(FilteredWallets(Ethereum)) == [MetaMaskId, CoinbaseId, WalletConnectId, TrustId]
  {
    OnChainEthereum();
    assert FilteredWallets(Ethereum) == OnChain(WalletOptions, Ethereum);
  }

  // ---------------------------------------------------------------------
  // The address shortener
  // ---------------------------------------------------------------------

  /** `formatAddress`: first six characters, "...", last four, for addresses over ten characters. */
  function FormatAddress(address: string): (r: string)
    ensures |address| > 10 ==>
      |r| == 13 && r[..6] == address[..6] && r[6..9] == "..." && r[9..] == address[|address| - 4..]
    ensures |address| <= 10 ==> r == address
  {
    if |address| > 10 then address[..6] + "..." + address[|address| - 4..] else address
  }

  /** Shortening an already shortened address changes nothing. */
  lemma FormatAddressIdempotent(address: string)
    ensures FormatAddress(FormatAddress(address)) == FormatAddress(address)
  {
    var r := FormatAddress(address);
    if |address| > 10 {
      assert r == r[..6] + r[6..9] + r[9..];
    }
  }

  /** An address of eleven or twelve characters comes out longer than it went in. */
  lemma FormatAddressCanLengthen(address: string)
    requires 10 < |address| < 13
    ensures |FormatAddress(address)| > |address|
  {
  }

  // ---------------------------------------------------------------------
  // The install probe
  // ---------------------------------------------------------------------

  /** What the probes find on `window` (each flag is the truthiness of one injected object). */
  datatype Window = Window(
    phantomSolana: bool,       // window.phantom?.solana
    metaMask: bool,            // window.ethereum?.isMetaMask
    coinbaseExtension: bool,   // window.coinbaseWalletExtension
    solflare: bool,            // window.solflare
    trustWallet: bool)         // window.trustwallet

  /** Every wallet id. */
  const AllIds: set<WalletId> := {PhantomId, MetaMaskId, CoinbaseId, WalletConnectId, SolflareId, TrustId}

  /** What the probe should find for one wallet; WalletConnect needs no extension. */
  function Detected(window: Window, id: WalletId): (r: bool)
    ensures id == WalletConnectId ==> r
  {
    match id
    case PhantomId => window.phantomSolana
    case MetaMaskId => window.metaMask
    case CoinbaseId => window.coinbaseExtension
    case WalletConnectId => true
    case SolflareId => window.solflare
    case TrustId => window.trustWallet
  }

  /** The install states the probe should record: every wallet, with what was detected. */
  function InstallStates(window: Window): (m: map<WalletId, bool>)
    ensures m.Keys == AllIds
    ensures forall id :: id in m ==> m[id] == Detected(window, id)
  {
    map id | id in AllIds :: Detected(window, id)
  }

  /** The ids of the first `n` entries of `walletOptions`. */
  ghost function ProbedIds(n: nat): set<WalletId>
    requires n <= |WalletOptions|
  {
    set j | 0 <= j < n :: WalletOptions[j].id
  }

  /** Probing one more entry adds its id. */
  lemma ProbedIdsStep(n: nat)
    requires n < |WalletOptions|
    ensures ProbedIds(n + 1) == ProbedIds(n) + {WalletOptions[n].id}
  {
  }

  /** The table holds every wallet id. */
  lemma ProbedIdsAll()
    ensures ProbedIds(|WalletOptions|) == AllIds
  {
    assert WalletOptions[0].id == PhantomId && WalletOptions[1].id == MetaMaskId;
    assert WalletOptions[2].id == CoinbaseId && WalletOptions[3].id == WalletConnectId;
    assert WalletOptions[4].id == SolflareId && WalletOptions[5].id == TrustId;
  }

  /** The body of the probe's `forEach`: the check for one wallet. */
  method ProbeOne(window: Window, id: WalletId) returns (found: bool)
    ensures found == Detected(window, id)
  {
    if id == PhantomId {
      found := window.phantomSolana;
    } else if id == MetaMaskId {
      found := window.metaMask;
    } else if id == CoinbaseId {
      found := window.coinbaseExtension;
    } else if id == SolflareId {
      found := window.solflare;
    } else if id == TrustId {
      found := window.trustWallet;
    } else {
      found := true;
    }
  }

  /** The probe's `forEach` over `walletOptions`, filling `states`. */
  method ProbeInstallStates(window: Window) returns (states: map<WalletId, bool>)
    ensures states == InstallStates(window)
  {
    states := map[];
    var i := 0;
    while i < |WalletOptions|
      invariant 0 <= i <= |WalletOptions|
      invariant states.Keys == ProbedIds(i)
      invariant forall k :: k in states ==> states[k] == Detected(window, k)
    {
      var id := WalletOptions[i].id;
      var found := ProbeOne(window, id);
      states := states[id := found];
      ProbedIdsStep(i);
      i := i + 1;
    }
    ProbedIdsAll();
  }

  /** `walletInstallStates[id]` as a condition: a missing entry is falsy. */
  function IsInstalled(states: map<WalletId, bool>, id: WalletId): (r: bool)
    ensures id !in states ==> !r
    ensures id in states ==> r == states[id]
  {
    id in states && states[id]
  }

  /** After a probe a wallet reads as installed exactly when its probe found it. */
  lemma InstalledIffDetected(window: Window, id: WalletId)
    ensures IsInstalled(InstallStates(window), id) <==> Detected(window, id)
  {
    assert id in AllIds;
  }

  /** After a probe WalletConnect always reads as installed. */
  lemma WalletConnectAlwaysInstalled(window: Window)
    ensures IsInstalled(InstallStates(window), WalletConnectId)
  {
    assert WalletConnectId in AllIds;
  }

  // ---------------------------------------------------------------------
  // The step machine
  // ---------------------------------------------------------------------

  const PhantomNotFound: string := "Phantom wallet not found. Please install it."
  const MetaMaskNotFound: string := "MetaMask not found. Please install it."
  const WalletConnectSoon: string := "WalletConnect integration coming soon"
  const IntegrationSoon: string := "This wallet integration is coming soon"
  const ConnectFailed: string := "Failed to connect wallet"

  /** A handler suspended at its first provider call, with what it captured at the click. */
  datatype Pending = Pending(wallet: WalletOption, chain: Chain, clickStep: Step)

  /** How the synchronous part of `handleWalletSelect` ends. */
  datatype Selection =
    | OpenedDownload(url: Option<string>)   // not installed: `window.open` of the download page
    | Settled                               // returned without calling a provider
    | AwaitingProvider(pending: Pending)    // suspended at the provider's connect call

  /**
   * What the provider calls do: answer, throw a value whose `message` is
   * read (`""` when it has none), or reject with `null` or `undefined`, where
   * reading `err.message` throws inside the `catch` itself. `afterConnect`
   * says whether the connect call had answered, so that the step had been
   * set to signing; before that the handler never sets the step again.
   */
  datatype ProviderOutcome =
    | Answered(address: string, signature: string)
    | Threw(message: string)
    | RejectedWithNothing(afterConnect: bool)

  /** The parent callbacks the success timer calls 1500 ms later. */
  datatype ParentCall = OnConnect(wallet: WalletOption, address: string, signature: string) | OnClose

  /** The wallets that get as far as a provider call: Phantom on Solana, MetaMask on Ethereum. */
  function HasIntegration(wallet: WalletOption, chain: Chain): (r: bool)
    ensures r ==> wallet.id == PhantomId || wallet.id == MetaMaskId
    ensures wallet.id == PhantomId ==> (r <==> chain == Solana)
    ensures wallet.id == MetaMaskId ==> (r <==> chain == Ethereum)
  {
    (wallet.id == PhantomId && chain == Solana) || (wallet.id == MetaMaskId && chain == Ethereum)
  }

  /**
   * Of the wallets shown for a chain exactly one gets as far as a provider
   * call: Phantom on Solana, MetaMask on Ethereum.
   */
  lemma OneIntegratedWalletPerChain(chain: Chain)
    ensures var only := if chain == Solana then Phantom else MetaMask;
      only in FilteredWallets(chain) && HasIntegration(only, chain)
      && forall w :: w in FilteredWallets(chain) && HasIntegration(w, chain) ==> w == only
  {
    forall w | w in FilteredWallets(chain) && HasIntegration(w, chain)
      ensures w == (if chain == Solana then Phantom else MetaMask)
    {
      assert w in WalletOptions;
    }
  }

  /** The message shown when a wallet has no integration. */
  function ComingSoonMessage(wallet: WalletOption): (r: string)
    ensures wallet.id == WalletConnectId ==> r == WalletConnectSoon
    ensures wallet.id != WalletConnectId ==> r == IntegrationSoon
  {
    if wallet.id == WalletConnectId then WalletConnectSoon else IntegrationSoon
  }

  class Modal {
    var selectedChain: Chain
    var connecting: Option<WalletId>
    var error: Option<string>
    var step: Step
    var connectedAddress: Option<string>
    var installStates: map<WalletId, bool>

    /**
     * A wallet is only marked connecting while the connecting step shows, and
     * the success step always has an address to show.
     */
    ghost predicate Valid()
      reads this
    {
      (connecting.Some? ==> step == Connecting) && (step == Success ==> connectedAddress.Some?)
    }

    constructor ()
      ensures Valid()
      ensures selectedChain == Solana && step == Select && installStates == map[]
      ensures connecting == None && error == None && connectedAddress == None
    {
      selectedChain := Solana;
      connecting := None;
      error := None;
      step := Select;
      connectedAddress := None;
      installStates := map[];
    }

    /** The `disabled` rule of a wallet button. */
    function ButtonDisabled(id: WalletId): (r: bool)
      reads this
      ensures connecting == None ==> !r
      ensures connecting.Some? ==> (r <==> id != connecting.value)
    {
      connecting != None && connecting != Some(id)
    }

    /** While a wallet is connecting, its own button is the only one left enabled. */
    lemma OnlyConnectingButtonEnabled(a: WalletId, b: WalletId)
      requires connecting.Some?
      ensures !ButtonDisabled(connecting.value)
      ensures !ButtonDisabled(a) && !ButtonDisabled(b) ==> a == b
    {
    }

    /**
     * The wallet buttons render only in the select step, and there no wallet
     * is connecting: the `disabled` rule never disables a rendered button.
     */
    lemma NoRenderedButtonIsDisabled(id: WalletId)
      requires Valid() && step == Select
      ensures !ButtonDisabled(id)
    {
    }

    /** The two `[open]` effects: probe when opened, reset when closed. */
    method OpenChanged(open: bool, window: Window)
      requires Valid()
      modifies this
      ensures Valid() && selectedChain == old(selectedChain)
      ensures open ==>
        installStates == InstallStates(window) && step == old(step) && error == old(error)
        && connecting == old(connecting) && connectedAddress == old(connectedAddress)
      ensures !open ==>
        installStates == old(installStates) && step == Select && error == None
        && connecting == None && connectedAddress == None
    {
      if open {
        installStates := ProbeInstallStates(window);
      }
      if !open {
        step := Select;
        error := None;
        connecting := None;
        connectedAddress := None;
      }
    }

    /** A chain button, shown in the select step. */
    method SelectChain(chain: Chain)
      requires Valid() && step == Select
      modifies this`selectedChain
      ensures Valid() && selectedChain == chain
    {
      selectedChain := chain;
    }

    /**
     * `handleWalletSelect` up to its first `await`, for a click on a shown
     * wallet button (they exist only in the select step, for the selected
     * chain); `window` is what the handler sees at the click.
     */
    method SelectWallet(wallet: WalletOption, window: Window) returns (result: Selection)
      requires Valid() && step == Select && wallet in FilteredWallets(selectedChain)
      modifies this`connecting, this`error, this`step
      ensures Valid()
      // the download page opens exactly for a wallet that is not installed
      ensures result.OpenedDownload? <==>
        !IsInstalled(installStates, wallet.id) && wallet.id != WalletConnectId
      // and then nothing else happens
      ensures result.OpenedDownload? ==>
        result.url == (if wallet.downloadUrl != "" then Some(wallet.downloadUrl) else None)
        && unchanged(this)
      // installed, with an integration and its provider present: suspended
      ensures result.AwaitingProvider? <==>
        (IsInstalled(installStates, wallet.id) || wallet.id == WalletConnectId)
        && HasIntegration(wallet, selectedChain)
        && (if wallet.id == PhantomId then window.phantomSolana else window.metaMask)
      ensures result.AwaitingProvider? ==>
        result.pending == Pending(wallet, selectedChain, Select)
        && connecting == Some(wallet.id) && error == None && step == Connecting
        && (forall other :: other != wallet.id ==> ButtonDisabled(other))
      // every other installed case: back at select with a fixed message
      ensures result.Settled? ==>
        step == Select && connecting == None && error == Some(
          if !HasIntegration(wallet, selectedChain) then ComingSoonMessage(wallet)
          else if wallet.id == PhantomId then PhantomNotFound
          else MetaMaskNotFound)
    {
      if !IsInstalled(installStates, wallet.id) && wallet.id != WalletConnectId {
        result := OpenedDownload(if wallet.downloadUrl != "" then Some(wallet.downloadUrl) else None);
        return;
      }
      var clickStep := step;
      connecting := Some(wallet.id);
      error := None;
      step := Connecting;
      if wallet.id == PhantomId && selectedChain == Solana {
        if !window.phantomSolana {
          error := Some(PhantomNotFound);
          step := Select;
          connecting := None;
          result := Settled;
        } else {
          result := AwaitingProvider(Pending(wallet, selectedChain, clickStep));
        }
      } else if wallet.id == MetaMaskId && selectedChain == Ethereum {
        if !window.metaMask {
          error := Some(MetaMaskNotFound);
          step := Select;
          connecting := None;
          result := Settled;
        } else {
          result := AwaitingProvider(Pending(wallet, selectedChain, clickStep));
        }
      } else if wallet.id == WalletConnectId {
        error := Some(WalletConnectSoon);
        step := Select;
        connecting := None;
        result := Settled;
      } else {
        error := Some(IntegrationSoon);
        step := Select;
        connecting := None;
        result := Settled;
      }
      // the `finally` block of a handler that returned early
      if result.Settled? && clickStep != Success {
        connecting := None;
      }
    }

    /**
     * The rest of `handleWalletSelect`, once the provider calls have answered
     * or failed. `finally` tests the step captured at the click, which is
     * always the select step, so `connecting` ends cleared on every path.
     * Returns the calls the success timer makes: `onConnect`, then `onClose`.
     */
    method FinishSelect(pending: Pending, outcome: ProviderOutcome) returns (scheduled: seq<ParentCall>)
      requires Valid() && pending.clickStep == Select
      modifies this`connecting, this`error, this`step, this`connectedAddress
      ensures Valid() && connecting == None
      ensures outcome.Answered? && outcome.address != "" && outcome.signature != "" ==>
        step == Success && connectedAddress == Some(outcome.address) && error == old(error)
        && scheduled == [OnConnect(pending.wallet, outcome.address, outcome.signature), OnClose]
      ensures outcome.Answered? && (outcome.address == "" || outcome.signature == "") ==>
        step == Signing && scheduled == [] && error == old(error)
        && connectedAddress == old(connectedAddress)
      ensures outcome.Threw? ==>
        step == Select && scheduled == [] && connectedAddress == old(connectedAddress)
        && error == Some(if outcome.message != "" then outcome.message else ConnectFailed)
      // the `catch` block itself throws: only `finally` runs after it
      ensures outcome.RejectedWithNothing? ==>
        step == (if outcome.afterConnect then Signing else old(step))
        && scheduled == [] && error == old(error) && connectedAddress == old(connectedAddress)
      // success is only reached with the calls scheduled, unless it was already showing
      ensures scheduled != [] ==> step == Success
      ensures step == Success ==> scheduled != [] || old(step) == Success
    {
      scheduled := [];
      match outcome {
        case Answered(address, signature) =>
          step := Signing;
          if address != "" && signature != "" {
            connectedAddress := Some(address);
            step := Success;
            scheduled := [OnConnect(pending.wallet, address, signature), OnClose];
          }
        case Threw(message) =>
          error := Some(if message != "" then message else ConnectFailed);
          step := Select;
        case RejectedWithNothing(afterConnect) =>
          if afterConnect {
            step := Signing;
          }
      }
      if pending.clickStep != Success {
        connecting := None;
      }
    }
  }
}
