/**
 * The session store of contexts/wallet-context.tsx: the eight-field
 * `walletState`, the browser's cookie jar and the `Authorization` header of
 * the shared API client, changed only by the mount-time restore, the token
 * check, `authenticate`, `disconnect` and the balance refresh.
 *
 * Every network answer is a parameter. Each operation is first a function
 * on a `Store` value; the `WalletProvider` class keeps the same three parts
 * in fields and its methods follow those functions.
 */
module WalletContext {
  import opened Options

  /** The backend's `user` object, held as it arrived. */
  datatype User = User(json: string)

  /** `WalletState`. `chain` holds whatever string the cookie or caller gave. */
  datatype WalletState = WalletState(
    isConnected: bool,
    address: Option<string>,
    chain: Option<string>,
    walletType: Option<string>,
    balance: real,
    isAuthenticated: bool,
    authToken: Option<string>,
    user: Option<User>)

  /** The state on first render and after `disconnect`. */
  const InitialState: WalletState := WalletState(false, None, None, None, 0.0, false, None, None)

  const TokenCookie: string := "auth_token"
  const AddressCookie: string := "wallet_address"
  const ChainCookie: string := "wallet_chain"
  const TypeCookie: string := "wallet_type"

  /** The four cookies `disconnect` removes. */
  const SessionCookies: set<string> := {TokenCookie, AddressCookie, ChainCookie, TypeCookie}

  /** Everything the provider changes: its state, the cookie jar and the API client's header. */
  datatype Store = Store(state: WalletState, cookies: map<string, string>, authHeader: Option<string>)

  /** The backend's answer to `POST /auth/wallet`. */
  datatype AuthAnswer = AuthNotOk | AuthThrew | AuthOk(token: string, user: Option<User>)

  /** The backend's answer to `GET /auth/verify`. */
  datatype VerifyAnswer = VerifyNotOk | VerifyThrew | VerifyOk(user: Option<User>)

  /** What a balance query produced, already converted to whole coins. */
  datatype BalanceAnswer = BalanceOk(balance: real) | BalanceThrew | NoEthereumProvider

  /** `Cookies.get(key)`: undefined when the cookie is absent. */
  function CookieValue(cookies: map<string, string>, key: string): (r: Option<string>)
    ensures r.Some? <==> key in cookies
    ensures r.Some? ==> r.value == cookies[key]
  {
    if key in cookies then Some(cookies[key]) else None
  }

  /** A JavaScript truthiness test on an optional string. */
  predicate Truthy(v: Option<string>) {
    v.Some? && v.value != ""
  }

  /** The header value for a token. */
  function Bearer(token: string): (r: string)
    ensures |r| == |token| + 7 && r[..7] == "Bearer " && r[7..] == token
  {
    "Bearer " + token
  }

  // ---------------------------------------------------------------------
  // The invariant
  // ---------------------------------------------------------------------

  /** The two flags and the token agree. */
  predicate FlagsAgree(s: WalletState) {
    s.isConnected == s.isAuthenticated && s.isAuthenticated == s.authToken.Some?
  }

  /**
   * The store invariant: the flags agree with the token; an authenticated
   * session's token, address and chain are the ones the cookies hold; and a
   * header, when present, carries the session's token.
   */
  predicate SessionValid(st: Store) {
    FlagsAgree(st.state)
    && (st.state.isAuthenticated ==>
          CookieValue(st.cookies, TokenCookie) == st.state.authToken
          && CookieValue(st.cookies, AddressCookie) == st.state.address
          && CookieValue(st.cookies, ChainCookie) == st.state.chain)
    && (st.authHeader.Some? ==>
          st.state.authToken.Some? && st.authHeader.value == Bearer(st.state.authToken.value))
  }

  /** The store before mount: initial state, the jar as the browser has it, no header. */
  function Initial(cookies: map<string, string>): (r: Store)
    ensures SessionValid(r)
    ensures !r.state.isConnected && !r.state.isAuthenticated && r.state.authToken == None
  {
    Store(InitialState, cookies, None)
  }

  // ---------------------------------------------------------------------
  // The operations, as functions on the store
  // ---------------------------------------------------------------------

  /** The mount-time condition: token, address and chain cookies all present and non-empty. */
  function CanRestore(cookies: map<string, string>): (r: bool)
    ensures r ==> TokenCookie in cookies && AddressCookie in cookies && ChainCookie in cookies
    ensures r ==> cookies[TokenCookie] != "" && cookies[AddressCookie] != "" && cookies[ChainCookie] != ""
  {
    Truthy(CookieValue(cookies, TokenCookie))
    && Truthy(CookieValue(cookies, AddressCookie))
    && Truthy(CookieValue(cookies, ChainCookie))
  }

  /**
   * The mount effect: with a complete saved session, copy the cookies into
   * the state and set both flags; otherwise change nothing. It installs no
   * header and keeps balance and user.
   */
  function Restore(st: Store): (r: Store)
    ensures SessionValid(st) ==> SessionValid(r)
    ensures r.cookies == st.cookies && r.authHeader == st.authHeader
    ensures r.state.balance == st.state.balance && r.state.user == st.state.user
    ensures !CanRestore(st.cookies) ==> r == st
    ensures CanRestore(st.cookies) ==>
      r.state.isConnected && r.state.isAuthenticated
      && r.state.authToken == CookieValue(st.cookies, TokenCookie)
      && r.state.address == CookieValue(st.cookies, AddressCookie)
      && r.state.chain == CookieValue(st.cookies, ChainCookie)
      && r.state.walletType == CookieValue(st.cookies, TypeCookie)
  {
    if CanRestore(st.cookies) then
      st.(state := st.state.(
        isConnected := true,
        address := CookieValue(st.cookies, AddressCookie),
        chain := CookieValue(st.cookies, ChainCookie),
        walletType := CookieValue(st.cookies, TypeCookie),
        isAuthenticated := true,
        authToken := CookieValue(st.cookies, TokenCookie)))
    else st
  }

  /** `disconnect`'s effect on the store: four cookies removed, header deleted, state reset. */
  function Disconnected(st: Store): (r: Store)
    ensures SessionValid(r)
    ensures r.state == InitialState && r.authHeader == None
    ensures forall k :: k in r.cookies <==> k in st.cookies && k !in SessionCookies
    ensures forall k :: k in r.cookies ==> r.cookies[k] == st.cookies[k]
  {
    Store(InitialState, st.cookies - SessionCookies, None)
  }

  /**
   * `authenticate`: on an OK answer write the token, address and chain
   * cookies, update the state (walletType and balance stay), set the header,
   * and report success; on a non-OK answer or an exception change nothing.
   */
  function AfterAuthenticate(st: Store, address: string, chain: string, answer: AuthAnswer): (r: (Store, bool))
    ensures SessionValid(st) ==> SessionValid(r.0)
    ensures r.1 <==> answer.AuthOk?
    ensures !r.1 ==> r.0 == st
    ensures r.1 ==>
      r.0.state.isConnected && r.0.state.isAuthenticated
      && r.0.state.authToken == Some(answer.token) && r.0.state.user == answer.user
      && r.0.state.address == Some(address) && r.0.state.chain == Some(chain)
      && r.0.state.walletType == st.state.walletType && r.0.state.balance == st.state.balance
      && r.0.authHeader == Some(Bearer(answer.token))
      && r.0.cookies == st.cookies[TokenCookie := answer.token][AddressCookie := address][ChainCookie := chain]
  {
    match answer
    case AuthOk(token, user) =>
      var cookies := st.cookies[TokenCookie := token][AddressCookie := address][ChainCookie := chain];
      var state := st.state.(
        isConnected := true,
        address := Some(address),
        chain := Some(chain),
        isAuthenticated := true,
        authToken := Some(token),
        user := user);
      (Store(state, cookies, Some(Bearer(token))), true)
    case _ => (st, false)
  }

  /** `verifyAuth`: an accepted token updates only `user`; anything else disconnects. */
  function Verify(st: Store, answer: VerifyAnswer): (r: Store)
    ensures SessionValid(st) ==> SessionValid(r)
    ensures answer.VerifyOk? ==> r == st.(state := st.state.(user := answer.user))
    ensures !answer.VerifyOk? ==> r == Disconnected(st)
  {
    match answer
    case VerifyOk(user) => st.(state := st.state.(user := user))
    case _ => Disconnected(st)
  }

  /** The balance source a refresh asks, with the address it asks about. */
  datatype BalanceQuery = SolanaQuery(address: string) | EthereumQuery(address: string)

  /**
   * The start of `refreshBalance`, on the `walletState` its closure captured
   * when the effect scheduled it: no query without a truthy address and
   * chain, a Solana RPC query or an Ethereum provider query for those two
   * chains, and none for any other chain.
   */
  function RefreshQuery(captured: WalletState): (r: Option<BalanceQuery>)
    ensures r.Some? <==> Truthy(captured.address) && captured.chain in {Some("solana"), Some("ethereum")}
    ensures r.Some? ==> captured.address == Some(r.value.address)
    ensures r.Some? ==> (r.value.SolanaQuery? <==> captured.chain == Some("solana"))
  {
    if !Truthy(captured.address) || !Truthy(captured.chain) then None
    else if captured.chain == Some("solana") then Some(SolanaQuery(captured.address.value))
    else if captured.chain == Some("ethereum") then Some(EthereumQuery(captured.address.value))
    else None
  }

  /**
   * The end of `refreshBalance`: the functional update `prev => ({...prev,
   * balance})` on the store as it is when the answer arrives. Nothing is
   * checked again, so only the answer decides; a failure or a missing
   * Ethereum provider changes nothing.
   */
  function WithBalance(st: Store, answer: BalanceAnswer): (r: Store)
    ensures SessionValid(st) ==> SessionValid(r)
    ensures r.cookies == st.cookies && r.authHeader == st.authHeader
    ensures r.state == st.state.(balance := r.state.balance)
    ensures answer.BalanceOk? ==> r.state.balance == answer.balance
    ensures !answer.BalanceOk? ==> r == st
  {
    match answer
    case BalanceOk(balance) => st.(state := st.state.(balance := balance))
    case _ => st
  }

  // ---------------------------------------------------------------------
  // Properties of the operations
  // ---------------------------------------------------------------------

  /** Disconnecting twice leaves the store as disconnecting once. */
  lemma DisconnectIdempotent(st: Store)
    ensures Disconnected(Disconnected(st)) == Disconnected(st)
  {
    assert st.cookies - SessionCookies - SessionCookies == st.cookies - SessionCookies;
  }

  /**
   * `authenticate` is all or nothing: it leaves the session authenticated
   * with its three cookies and the header set, or returns false with the
   * store as it was.
   */
  lemma AuthenticateAllOrNothing(st: Store, address: string, chain: string, answer: AuthAnswer)
    requires SessionValid(st)
    ensures var (r, ok) := AfterAuthenticate(st, address, chain, answer);
      (ok && r.state.isAuthenticated && r.state.isConnected && r.authHeader.Some?
        && TokenCookie in r.cookies && AddressCookie in r.cookies && ChainCookie in r.cookies)
      || (!ok && r == st)
  {
  }

  /** A successful `authenticate` never writes the wallet type: neither cookie nor field. */
  lemma AuthenticateKeepsWalletType(st: Store, address: string, chain: string, answer: AuthAnswer)
    ensures var r := AfterAuthenticate(st, address, chain, answer).0;
      r.state.walletType == st.state.walletType
      && CookieValue(r.cookies, TypeCookie) == CookieValue(st.cookies, TypeCookie)
  {
  }

  /**
   * After a restore the session is authenticated although the API client
   * still carries no header: requests go out unauthenticated until the next
   * `authenticate`.
   */
  lemma RestoreLeavesHeaderAbsent(cookies: map<string, string>)
    requires CanRestore(cookies)
    ensures Restore(Initial(cookies)).state.isAuthenticated
    ensures Restore(Initial(cookies)).authHeader == None
  {
  }

  /** A rejected token check on mount wipes the restored session. */
  lemma RejectedTokenClearsRestore(cookies: map<string, string>, answer: VerifyAnswer)
    requires !answer.VerifyOk?
    ensures Verify(Restore(Initial(cookies)), answer).state == InitialState
    ensures forall k :: k in SessionCookies ==> k !in Verify(Restore(Initial(cookies)), answer).cookies
  {
  }

  /**
   * A restore right after a successful `authenticate` finds the cookies
   * that call wrote and so keeps the same token, address and chain.
   */
  lemma RestoreAfterAuthenticate(st: Store, address: string, chain: string, token: string, user: Option<User>)
    requires token != "" && address != "" && chain != ""
    ensures var r := AfterAuthenticate(st, address, chain, AuthOk(token, user)).0;
      Restore(r).state.authToken == r.state.authToken
      && Restore(r).state.address == r.state.address
      && Restore(r).state.chain == r.state.chain
  {
  }

  /**
   * The `wallet_type` cookie plays no part in whether a session is
   * restored: setting or removing it never changes the decision.
   */
  lemma WalletTypeIsOptional(cookies: map<string, string>, walletType: string)
    ensures CanRestore(cookies[TypeCookie := walletType]) == CanRestore(cookies)
    ensures CanRestore(cookies - {TypeCookie}) == CanRestore(cookies)
  {
    var c1 := cookies[TypeCookie := walletType];
    var c2 := cookies - {TypeCookie};
    assert CookieValue(c1, TokenCookie) == CookieValue(cookies, TokenCookie);
    assert CookieValue(c1, AddressCookie) == CookieValue(cookies, AddressCookie);
    assert CookieValue(c1, ChainCookie) == CookieValue(cookies, ChainCookie);
    assert CookieValue(c2, TokenCookie) == CookieValue(cookies, TokenCookie);
    assert CookieValue(c2, AddressCookie) == CookieValue(cookies, AddressCookie);
    assert CookieValue(c2, ChainCookie) == CookieValue(cookies, ChainCookie);
  }

  /**
   * A refresh in flight is not cancelled by `disconnect`: a Solana answer
   * that arrives after it writes its balance into the reset state, which
   * then shows a balance while disconnected. The invariant still holds.
   */
  lemma StaleBalanceAfterDisconnect(st: Store, balance: real)
    requires SessionValid(st) && st.state.isAuthenticated
    requires Truthy(st.state.address) && st.state.chain == Some("solana")
    ensures RefreshQuery(st.state) == Some(SolanaQuery(st.state.address.value))
    ensures var r := WithBalance(Disconnected(st), BalanceOk(balance));
      SessionValid(r) && !r.state.isConnected && r.state == InitialState.(balance := balance)
  {
  }

  /**
   * Nor is it cancelled by a new `authenticate`: the balance queried for the
   * old address lands in the session of the new one.
   */
  lemma StaleBalanceAcrossSessions(st: Store, address: string, chain: string, token: string,
                                   user: Option<User>, balance: real)
    requires SessionValid(st) && RefreshQuery(st.state).Some? && st.state.address != Some(address)
    ensures var (next, _) := AfterAuthenticate(st, address, chain, AuthOk(token, user));
      var r := WithBalance(next, BalanceOk(balance));
      SessionValid(r) && r.state.isAuthenticated && r.state.address == Some(address)
      && r.state.balance == balance && RefreshQuery(st.state).value.address != address
  {
  }

  // ---------------------------------------------------------------------
  // The provider
  // ---------------------------------------------------------------------

  /** `useWallet`: the context, or the error thrown outside a provider. */
  datatype ContextLookup<C> = Found(context: C) | Thrown(message: string)

  const OutsideProvider: string := "useWallet must be used within a WalletProvider"

  function UseWallet<C>(context: Option<C>): (r: ContextLookup<C>)
    ensures context.Some? ==> r == Found(context.value)
    ensures context.None? ==> r == Thrown(OutsideProvider)
  {
    match context
    case Some(c) => Found(c)
    case None => Thrown(OutsideProvider)
  }

  class WalletProvider {
    var state: WalletState
    var cookies: map<string, string>
    var authHeader: Option<string>
    var showConnectModal: bool

    /** The three parts the operations change, as one value. */
    function Snapshot(): Store
      reads this
    {
      Store(state, cookies, authHeader)
    }

    ghost predicate Valid()
      reads this
    {
      SessionValid(Snapshot())
    }

    /** First render, before the mount effect, over the browser's existing cookies. */
    constructor (jar: map<string, string>)
      ensures Valid() && Snapshot() == Initial(jar) && !showConnectModal
    {
      state := InitialState;
      cookies := jar;
      authHeader := None;
      showConnectModal := false;
    }

    /**
     * The mount effect. Returns the token whose check it starts, if it
     * restored a session.
     */
    method RestoreOnMount() returns (check: Option<string>)
      requires Valid()
      modifies this`state
      ensures Valid() && Snapshot() == Restore(old(Snapshot()))
      ensures check.Some? <==> CanRestore(cookies)
      ensures check.Some? ==> check == state.authToken
    {
      var savedToken := CookieValue(cookies, TokenCookie);
      var savedAddress := CookieValue(cookies, AddressCookie);
      var savedChain := CookieValue(cookies, ChainCookie);
      var savedWalletType := CookieValue(cookies, TypeCookie);
      check := None;
      if Truthy(savedToken) && Truthy(savedAddress) && Truthy(savedChain) {
        state := state.(
          isConnected := true,
          address := savedAddress,
          chain := savedChain,
          walletType := savedWalletType,
          isAuthenticated := true,
          authToken := savedToken);
        check := savedToken;
      }
    }

    /** Clears the cookies, the header and the state. */
    method ClearSession()
      requires Valid()
      modifies this`state, this`cookies, this`authHeader
      ensures Valid() && Snapshot() == Disconnected(old(Snapshot()))
    {
      cookies := cookies - {TokenCookie};
      cookies := cookies - {AddressCookie};
      cookies := cookies - {ChainCookie};
      cookies := cookies - {TypeCookie};
      authHeader := None;
      state := InitialState;
    }

    /**
     * `disconnect`, as the UI calls it. Returns whether it also asks the
     * Phantom provider to disconnect: when the chain was Solana and the
     * provider is present.
     */
    method Disconnect(phantomPresent: bool) returns (disconnectPhantom: bool)
      requires Valid()
      modifies this`state, this`cookies, this`authHeader
      ensures Valid() && Snapshot() == Disconnected(old(Snapshot()))
      ensures disconnectPhantom <==> old(state.chain) == Some("solana") && phantomPresent
    {
      var chain := state.chain;
      ClearSession();
      disconnectPhantom := chain == Some("solana") && phantomPresent;
    }

    /**
     * `verifyAuth` with the answer of the check. It runs from the mount
     * effect, whose `disconnect` saw the first render's null chain, so a
     * failed check never asks the Phantom provider to disconnect.
     */
    method VerifyAuth(answer: VerifyAnswer)
      requires Valid()
      modifies this`state, this`cookies, this`authHeader
      ensures Valid() && Snapshot() == Verify(old(Snapshot()), answer)
    {
      match answer {
        case VerifyOk(user) =>
          state := state.(user := user);
        case _ =>
          ClearSession();
      }
    }

    /** `authenticate` with the backend's answer. */
    method Authenticate(address: string, signature: string, chain: string, answer: AuthAnswer)
      returns (ok: bool)
      requires Valid()
      modifies this`state, this`cookies, this`authHeader
      ensures Valid()
      ensures (Snapshot(), ok) == AfterAuthenticate(old(Snapshot()), address, chain, answer)
    {
      if !answer.AuthOk? {
        return false;
      }
      var token := answer.token;
      cookies := cookies[TokenCookie := token];
      cookies := cookies[AddressCookie := address];
      cookies := cookies[ChainCookie := chain];
      state := state.(
        isConnected := true,
        address := Some(address),
        chain := Some(chain),
        isAuthenticated := true,
        authToken := Some(token),
        user := answer.user);
      authHeader := Some(Bearer(token));
      ok := true;
    }

    /**
     * `refreshBalance` as the effect starts it: the query it sends, decided
     * from the state of the render that scheduled it. Nothing changes yet.
     */
    method StartRefresh() returns (query: Option<BalanceQuery>)
      ensures query == RefreshQuery(state)
    {
      query := None;
      if !Truthy(state.address) || !Truthy(state.chain) {
        return;
      }
      if state.chain == Some("solana") {
        query := Some(SolanaQuery(state.address.value));
      } else if state.chain == Some("ethereum") {
        query := Some(EthereumQuery(state.address.value));
      }
    }

    /**
     * The answer to a query arrives, on whatever the store holds by then:
     * the balance is written without checking the state again.
     */
    method FinishRefresh(answer: BalanceAnswer)
      requires Valid()
      modifies this`state
      ensures Valid() && Snapshot() == WithBalance(old(Snapshot()), answer)
    {
      if answer.BalanceOk? {
        state := state.(balance := answer.balance);
      }
    }

    /** `connect`: asks for the wallet dialog. */
    method Connect()
      modifies this`showConnectModal
      ensures showConnectModal
    {
      showConnectModal := true;
    }
  }
}
