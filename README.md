# DeFAI dashboard: session store, wallet dialog, agent wizard and card tables

A Dafny model of the decision logic of the DeFAI dashboard. The dashboard is a
browser front end for configuring AI trading agents and connecting a Solana
or Ethereum wallet to them. The model covers the five places where the
dashboard decides anything:

- **Session store** (`contexts/wallet-context.tsx`, module `WalletContext`). The store holds three things: the eight-field wallet state, the browser's cookie jar, and the shared API client's `Authorization` header. Each operation is a function on a `Store` value: the mount-time restore, `authenticate`, the token check `verifyAuth`, `disconnect` and `refreshBalance`. The class `WalletProvider` keeps the same parts in fields, and each of its methods is proved to follow its function. Every backend or chain answer is a parameter.
- **Wallet-connect dialog** (`components/wallet-connect-modal.tsx`, module `WalletConnectModal`). It has the static wallet table and the per-chain filter, plus the address shortener. The install probe is a loop that fills a map. The `handleWalletSelect` step machine is the class `Modal`. Provider calls are abstract outcomes: an address and a signature, a thrown value's message, or a rejection with `null`/`undefined`.
- **Create-agent wizard** (`components/create-agent-modal.tsx`, module `CreateAgentModal`). It has the list toggles for protocols and watched tokens, the enable rules of Next and Create Agent, and the class `Wizard`. That class holds the step counter and the form, with Previous, Next, Cancel, submit and the field setters.
- **Agent card** (`components/agent-card.tsx`, module `AgentCard`). It holds the badge and icon switches and the profit style. It also decides which action buttons are shown and which id each callback receives.
- **Colour helpers** (`lib/utils.ts`, module `Utils`). Two lookups, case-insensitive, from an agent status or a risk level to CSS classes.

`Options` holds the `Option` type that stands for `null`/`undefined`.

Behaviour of the code that the model keeps and states as lemmas:

- After a restore from cookies the session is authenticated, but the API client carries no `Authorization` header. The header is installed only by `authenticate`.
- `authenticate` never writes `walletType` or the `wallet_type` cookie. A restored session therefore has a wallet type only if some other code set that cookie.
- `verifyAuth` is started from the mount effect. It calls the `disconnect` of the first render, whose `walletState.chain` is still `null`. So a rejected token clears the session but never asks Phantom to disconnect.
- The `finally` block of `handleWalletSelect` tests the `step` captured at the click, which is always `'select'`. `connecting` is therefore cleared on every path, success included.
- The card's badge switches are case-sensitive, while the colour helpers lower-case their input first.
- `formatAddress` makes an address of 11 or 12 characters longer: the result is always 13 characters.

Four behaviours of the code that a reader might not expect:

- A provider that answers with an empty address or an empty signature leaves the dialog at the `signing` step. No error is set and nothing is called back; the truthiness test at components/wallet-connect-modal.tsx:245 guards only the success branch.
- The restore tests the truthiness of the three cookies, so a cookie with an empty value prevents a restore just as a missing one does.
- While a wallet is connecting, the other wallet buttons are disabled. The code also renders no wallet buttons at all outside the `select` step (`Modal.NoRenderedButtonIsDisabled`).
- `refreshBalance` decides what to query from the `walletState` its closure captured (contexts/wallet-context.tsx:140-160). It writes the answer with a functional update on the latest state (:159, :171), and the effect's cleanup at :223 stops the interval but not a request in flight. So a balance that arrives after `disconnect` lands in the reset state (`StaleBalanceAfterDisconnect`), and one queried for an old address lands in a newly authenticated session (`StaleBalanceAcrossSessions`). The model keeps this write as the code makes it.

## Model

| member | source | states |
|---|---|---|
| Utils.LowerChar | lib/utils.ts:29 | ASCII `A`-`Z` move up by 32; every other character is kept; no upper-case letter comes out |
| Utils.Lower | lib/utils.ts:29 | `toLowerCase` keeps the length and lower-cases each character in place |
| Utils.LowerFixesLower | lib/utils.ts:29 | lower-casing leaves no upper-case letter and fixes a string that has none |
| Utils.LowerIdempotent | lib/utils.ts:29 | lower-casing twice is lower-casing once |
| Utils.StatusColorIsTableLookup | lib/utils.ts:28-43 | `getStatusColor` looks up the lower-cased status in the five-entry table (active, paused, stopped, error, created) and falls back to the muted classes |
| Utils.RiskColorIsTableLookup | lib/utils.ts:45-56 | `getRiskColor` looks up the lower-cased level in the three-entry table (low, medium, high) and falls back to the muted classes |
| Utils.ColorsIgnoreCase | lib/utils.ts:28-56 | two spellings with the same lower-case form get the same status colour and the same risk colour |
| Utils.ColorsOfLowered | lib/utils.ts:28-56 | a string and its lower-cased form get the same colours |
| Utils.GetStatusColor | lib/utils.ts:28-43 | the result is one of the five class strings, and it is the muted one exactly for `stopped` and for any status outside the table |
| Utils.GetRiskColor | lib/utils.ts:45-56 | the result is one of the four class strings, and it is the muted one exactly for a level outside the table |
| Utils.UnknownStatusIsMuted | lib/utils.ts:34-41 | an unknown status gets the same classes as `stopped`, the muted ones |
| Utils.UnknownRiskIsMuted | lib/utils.ts:53-54 | an unknown risk level gets the muted classes |
| Utils.ColorsOfLowerWord | lib/utils.ts:28-56 | a word without capitals is looked up as written, for both helpers |
| Utils.RiskColorsMatchStatusColors | lib/utils.ts:30-52 | low = active = success, medium = paused = warning, high = error = destructive, as equal strings |
| Utils.UpperCaseSpelling | lib/utils.ts:28-56 | `HIGH` and `Error` get the destructive classes |
| AgentCard.StatusIcon | components/agent-card.tsx:31-41 | the clock icon is given exactly to a status outside active, paused and stopped |
| AgentCard.StatusVariant | components/agent-card.tsx:44-56 | the `defi` badge is given exactly to a status outside active, paused, stopped and error |
| AgentCard.RiskVariant | components/agent-card.tsx:59-70 | the `secondary` badge is given exactly to a level outside low, medium and high |
| AgentCard.SwitchesAreTableLookups | components/agent-card.tsx:31-70 | each of the three switches is a table lookup with its default: Clock, `defi` and `secondary` |
| AgentCard.ClockIconStatuses | components/agent-card.tsx:31-56 | among the five statuses, exactly `created` and `error` get the clock icon, and exactly `created` gets the `defi` badge |
| AgentCard.ActionButtons | components/agent-card.tsx:173-204 | Start shown iff the status is created, stopped or paused; otherwise Pause and Stop, together; never the settings button; exactly one button (Start) for a startable status, otherwise two with Pause first |
| AgentCard.StartExcludesPauseAndStop | components/agent-card.tsx:173-204 | Start appears iff neither Pause nor Stop does, and some action is always shown |
| AgentCard.RunningAgentsArePausable | components/agent-card.tsx:173-204 | `active` and `error` both get exactly Pause then Stop |
| AgentCard.Render | components/agent-card.tsx:72-204 | gain style iff profit is strictly positive; protocols shown iff the list is non-empty; description shown iff present and non-empty; settings button first, then the action buttons; the status badge and icon come from the status switches and the risk badge from the risk switch |
| AgentCard.ZeroProfitIsLoss | components/agent-card.tsx:72 | a profit of exactly zero is styled as a loss |
| AgentCard.Press | components/agent-card.tsx:96-201 | a call is made only to a passed callback and always with `agent.id`; the settings button alone calls `onSettings`; `onStart` is reachable only for a startable status, `onPause` and `onStop` only for any other; with all four callbacks passed every shown button calls one; settings calls `onSettings`, Start `onStart`, Pause `onPause` and Stop `onStop`, and nothing when that callback is missing |
| AgentCard.EveryCallbackGetsTheId | components/agent-card.tsx:96-201 | with all callbacks passed, every shown button calls with `agent.id`, no two shown buttons call the same callback, and the callbacks reachable are settings and start for a startable status, settings, pause and stop otherwise |
| AgentCard.MissingCallbackIsNoOp | components/agent-card.tsx:178 | with no `onStart` passed, pressing Start calls nothing |
| AgentCard.BadgeIsCaseSensitive | components/agent-card.tsx:44-56 | `Active` gets the `defi` badge but the success colour from the colour helper |
| CreateAgentModal.Without | components/create-agent-modal.tsx:111 | the filter removes every occurrence of the item, keeps membership of every other value and never lengthens the list |
| CreateAgentModal.Toggle | components/create-agent-modal.tsx:107-114 | the toggled item's membership flips; every other value's membership is unchanged |
| CreateAgentModal.WithoutAppend | components/create-agent-modal.tsx:111 | filtering distributes over concatenation, so relative order is kept |
| CreateAgentModal.WithoutAbsent | components/create-agent-modal.tsx:111 | filtering out an absent item returns the list unchanged |
| CreateAgentModal.WithoutCounts | components/create-agent-modal.tsx:111 | the filtered list has the original multiset with the item's count set to zero |
| CreateAgentModal.WithoutNoDuplicates | components/create-agent-modal.tsx:111 | filtering preserves the absence of duplicates |
| CreateAgentModal.AppendNoDuplicates | components/create-agent-modal.tsx:112 | appending an absent item preserves the absence of duplicates |
| CreateAgentModal.ToggleNoDuplicates | components/create-agent-modal.tsx:107-123 | a toggle preserves the absence of duplicates |
| CreateAgentModal.ToggleRemovesInPlace | components/create-agent-modal.tsx:107-114 | toggling a once-present item removes it in place, keeping the order of the elements before and after it |
| CreateAgentModal.ToggleTwiceAbsent | components/create-agent-modal.tsx:107-123 | toggling an absent item twice restores the original list |
| CreateAgentModal.ToggleTwicePresent | components/create-agent-modal.tsx:107-123 | toggling a present item twice moves it, once, to the end |
| CreateAgentModal.NextDisabled | components/create-agent-modal.tsx:362 | Next is disabled only at step 1, exactly when the name or the strategy is empty |
| CreateAgentModal.SubmitDisabled | components/create-agent-modal.tsx:370 | Create Agent is enabled iff both name and strategy are non-empty |
| CreateAgentModal.SubmitIgnoresLaterFields | components/create-agent-modal.tsx:370 | two forms with the same name and strategy are both enabled or both disabled for Create Agent, whatever their step 2 and 3 fields |
| CreateAgentModal.NextRuleMatchesSubmitRule | components/create-agent-modal.tsx:357-370 | Next is never disabled at step 2, and at step 1 it is disabled exactly when Create Agent would be |
| CreateAgentModal.DefaultFormIsIncomplete | components/create-agent-modal.tsx:74-85 | the initial form can neither pass step 1 nor be submitted |
| CreateAgentModal.Wizard.constructor | components/create-agent-modal.tsx:73-85 | the wizard starts at step 1 with the default form |
| CreateAgentModal.Wizard.SubmitEnabledAtLastStep | components/create-agent-modal.tsx:357-370 | at step 3 the Create Agent button is always enabled |
| CreateAgentModal.Wizard.Previous | components/create-agent-modal.tsx:337-345 | shown only past step 1; decrements the step, which stays in 1..3 |
| CreateAgentModal.Wizard.Next | components/create-agent-modal.tsx:357-365 | shown only below step 3 and only when enabled; increments the step, which stays in 1..3 |
| CreateAgentModal.Wizard.Cancel | components/create-agent-modal.tsx:349-355 | calls `onClose` only, changing neither the form nor the step |
| CreateAgentModal.Wizard.HandleSubmit | components/create-agent-modal.tsx:87-104 | passes the current form to `onSubmit`, then calls `onClose`, then resets to the default form at step 1 |
| CreateAgentModal.Wizard.SetName | components/create-agent-modal.tsx:146 | step 1's name input changes the name only |
| CreateAgentModal.Wizard.SetDescription | components/create-agent-modal.tsx:157 | step 1's description input changes the description only |
| CreateAgentModal.Wizard.ChooseStrategy | components/create-agent-modal.tsx:178 | a strategy card sets `strategy_type` to its id only |
| CreateAgentModal.Wizard.ChooseRisk | components/create-agent-modal.tsx:220 | a risk button sets `risk_level` to its value only |
| CreateAgentModal.Wizard.ToggleProtocol | components/create-agent-modal.tsx:296 | a protocol button toggles that protocol and changes no other field |
| CreateAgentModal.Wizard.ToggleToken | components/create-agent-modal.tsx:319 | a token button toggles that token and changes no other field |
| WalletConnectModal.OnChain | components/wallet-connect-modal.tsx:169 | the chain filter never lengthens the list |
| WalletConnectModal.OnChainMembers | components/wallet-connect-modal.tsx:169 | a wallet survives the filter iff it is in the list and lists the chain |
| WalletConnectModal.FilteredWallets | components/wallet-connect-modal.tsx:169 | a wallet is shown iff the table lists it for the selected chain |
| WalletConnectModal.ShownOnSolana | components/wallet-connect-modal.tsx:38-87 | Solana shows phantom, coinbase, solflare, trust, in table order |
| WalletConnectModal.ShownOnEthereum | components/wallet-connect-modal.tsx:38-87 | Ethereum shows metamask, coinbase, walletconnect, trust, in table order |
| WalletConnectModal.FormatAddress | components/wallet-connect-modal.tsx:272-277 | above ten characters: the first six, `...`, then the last four (13 in all); otherwise the input unchanged |
| WalletConnectModal.FormatAddressIdempotent | components/wallet-connect-modal.tsx:272-277 | shortening a shortened address changes nothing |
| WalletConnectModal.FormatAddressCanLengthen | components/wallet-connect-modal.tsx:272-277 | an address of 11 or 12 characters comes out longer |
| WalletConnectModal.Detected | components/wallet-connect-modal.tsx:151-163 | what the probe should find for one wallet; WalletConnect is always found |
| WalletConnectModal.InstallStates | components/wallet-connect-modal.tsx:147-167 | the probe records every wallet id, each with what was detected for it |
| WalletConnectModal.ProbeOne | components/wallet-connect-modal.tsx:151-163 | the per-wallet check finds exactly the injected object of that wallet; WalletConnect is always found |
| WalletConnectModal.ProbeInstallStates | components/wallet-connect-modal.tsx:147-167 | the `forEach` over the table builds exactly the install-state map |
| WalletConnectModal.IsInstalled | components/wallet-connect-modal.tsx:173 | a wallet without an entry counts as not installed; with one, its entry decides |
| WalletConnectModal.InstalledIffDetected | components/wallet-connect-modal.tsx:148-173 | after the probe a wallet counts as installed exactly when the probe found it |
| WalletConnectModal.WalletConnectAlwaysInstalled | components/wallet-connect-modal.tsx:161-162 | after a probe WalletConnect reads as installed |
| WalletConnectModal.HasIntegration | components/wallet-connect-modal.tsx:188-243 | only Phantom and MetaMask have an integration: Phantom exactly on Solana, MetaMask exactly on Ethereum |
| WalletConnectModal.OneIntegratedWalletPerChain | components/wallet-connect-modal.tsx:169-243 | of the wallets shown for a chain, exactly one reaches a provider call: Phantom on Solana, MetaMask on Ethereum |
| WalletConnectModal.ComingSoonMessage | components/wallet-connect-modal.tsx:231-243 | WalletConnect gets its own coming-soon text; every other wallet without an integration gets the generic one |
| WalletConnectModal.Modal.constructor | components/wallet-connect-modal.tsx:139-144 | the dialog starts on Solana at `select`, with nothing connecting, no error, no address and no install states |
| WalletConnectModal.Modal.ButtonDisabled | components/wallet-connect-modal.tsx:361 | no button is disabled while nothing connects; while a wallet connects, every button but its own is |
| WalletConnectModal.Modal.OnlyConnectingButtonEnabled | components/wallet-connect-modal.tsx:361 | while a wallet connects its own button stays enabled and it is the only enabled one |
| WalletConnectModal.Modal.NoRenderedButtonIsDisabled | components/wallet-connect-modal.tsx:311-361 | in the `select` step, the only step that renders wallet buttons, none of them is disabled |
| WalletConnectModal.Modal.OpenChanged | components/wallet-connect-modal.tsx:280-287 | closing resets step, error, connecting and address; opening only re-probes the install states (lines 147-167) |
| WalletConnectModal.Modal.SelectChain | components/wallet-connect-modal.tsx:321-334 | a chain button changes only the selected chain |
| WalletConnectModal.Modal.SelectWallet | components/wallet-connect-modal.tsx:171-243 | the download page opens iff the wallet is not installed and is not WalletConnect, and then nothing changes. Otherwise the wallet is marked connecting, the error is cleared, the step is `connecting` and every other button is disabled. Only Phantom on Solana or MetaMask on Ethereum, with the provider present, goes on to the provider; every other case returns to `select` with its fixed message |
| WalletConnectModal.Modal.FinishSelect | components/wallet-connect-modal.tsx:245-263 | a non-empty address and signature reach `success`, record the address and schedule `onConnect` then `onClose`. An empty one leaves `signing`. A thrown value returns to `select` with its message or `Failed to connect wallet`. A rejection with `null`/`undefined` leaves the step where it was (`signing` once connect has answered) with no error. `connecting` ends cleared on every path |
| WalletContext.Bearer | contexts/wallet-context.tsx:129 | the header value is `Bearer ` followed by the token |
| WalletContext.CookieValue | contexts/wallet-context.tsx:43-46 | `Cookies.get` is defined iff the cookie exists, and then holds its value |
| WalletContext.CanRestore | contexts/wallet-context.tsx:43-48 | a restore needs the token, address and chain cookies present with non-empty values |
| WalletContext.WalletTypeIsOptional | contexts/wallet-context.tsx:43-48 | setting or removing the `wallet_type` cookie never changes whether a session is restored |
| WalletContext.Initial | contexts/wallet-context.tsx:28-39 | the first-render store satisfies the session invariant, with both flags false and no token |
| WalletContext.Restore | contexts/wallet-context.tsx:42-62 | preserves the invariant. With the three cookies truthy it copies token, address, chain and wallet type and sets both flags; otherwise it changes nothing. Cookies, header, balance and user are untouched |
| WalletContext.Disconnected | contexts/wallet-context.tsx:183-205 | satisfies the invariant; exactly the four session cookies are removed, the header is gone and all eight fields are initial |
| WalletContext.AfterAuthenticate | contexts/wallet-context.tsx:89-137 | preserves the invariant; returns true iff the answer is OK. On success it writes exactly the three cookies and sets address, chain, token, user, both flags and `Bearer` + token, keeping `walletType` and balance. On failure the store is unchanged |
| WalletContext.Verify | contexts/wallet-context.tsx:64-87 | preserves the invariant; an accepted token changes only `user`, and a rejection or exception is a disconnect |
| WalletContext.RefreshQuery | contexts/wallet-context.tsx:139-165 | on the captured state, a query is sent iff the address is truthy and the chain is `solana` or `ethereum`; it asks about that address, by RPC exactly for `solana` |
| WalletContext.WithBalance | contexts/wallet-context.tsx:156-176 | the write checks nothing but the answer: an answer becomes the balance and nothing else changes, the invariant is kept, and a failure or a missing Ethereum provider leaves the store as it is |
| WalletContext.DisconnectIdempotent | contexts/wallet-context.tsx:183-205 | disconnecting twice gives the same store as disconnecting once |
| WalletContext.AuthenticateAllOrNothing | contexts/wallet-context.tsx:105-136 | `authenticate` either authenticates with the three cookies and the header set, or returns false with the store unchanged |
| WalletContext.AuthenticateKeepsWalletType | contexts/wallet-context.tsx:111-125 | `authenticate` writes neither `walletType` nor the `wallet_type` cookie |
| WalletContext.RestoreLeavesHeaderAbsent | contexts/wallet-context.tsx:42-62 | a restored session is authenticated while the API client still has no header |
| WalletContext.RejectedTokenClearsRestore | contexts/wallet-context.tsx:42-87 | a rejected or failed token check on mount returns to the initial state with the session cookies gone |
| WalletContext.StaleBalanceAfterDisconnect | contexts/wallet-context.tsx:139-225 | a Solana refresh started in an authenticated session and answered after `disconnect` leaves the initial state with the answered balance, still satisfying the invariant |
| WalletContext.StaleBalanceAcrossSessions | contexts/wallet-context.tsx:89-225 | a refresh started for one address and answered after `authenticate` with another sets the new session's balance |
| WalletContext.RestoreAfterAuthenticate | contexts/wallet-context.tsx:43-114 | a restore after a successful `authenticate` finds the same token, address and chain |
| WalletContext.UseWallet | contexts/wallet-context.tsx:242-248 | inside a provider the context is returned; outside, the fixed error is thrown |
| WalletContext.WalletProvider.constructor | contexts/wallet-context.tsx:27-39 | the first render is the initial store over the existing cookies, with the dialog flag off |
| WalletContext.WalletProvider.RestoreOnMount | contexts/wallet-context.tsx:42-62 | the mount effect follows `Restore`, and starts a token check with the restored token iff it restored |
| WalletContext.WalletProvider.ClearSession | contexts/wallet-context.tsx:183-205 | the `disconnect` of the first render, whose chain is `null`: follows `Disconnected` and never touches Phantom |
| WalletContext.WalletProvider.Disconnect | contexts/wallet-context.tsx:183-214 | follows `Disconnected`; asks Phantom to disconnect iff the chain was `solana` and the provider is present |
| WalletContext.WalletProvider.VerifyAuth | contexts/wallet-context.tsx:64-87 | follows `Verify`, keeping the invariant |
| WalletContext.WalletProvider.Authenticate | contexts/wallet-context.tsx:89-137 | follows `AfterAuthenticate` and returns its verdict, keeping the invariant |
| WalletContext.WalletProvider.StartRefresh | contexts/wallet-context.tsx:139-165 | changes nothing and returns the query `RefreshQuery` gives for the current state |
| WalletContext.WalletProvider.FinishRefresh | contexts/wallet-context.tsx:156-176 | follows `WithBalance` on the store as it is when the answer arrives, keeping the invariant |
| WalletContext.WalletProvider.Connect | contexts/wallet-context.tsx:179-181 | sets the dialog flag |

## Left out

- Floating point: the balance conversions (`/ 1e9` for lamports, `parseInt(…, 16) / 1e18` for wei) are left out. `BalanceOk` carries the converted value, and a zero or missing Solana value is the caller's `BalanceOk(0)`. A NaN from `parseInt` is not modelled.
- The wizard's three numeric inputs are left out: `max_investment`, `min_profit_threshold` and `stop_loss_percent`, set at step 2 through `parseFloat`, `/ 100` and the `||` fallbacks. No method of the model changes these fields, although the code's number inputs do. `is_public` has no control in the code.
- The number formatters and `cn` in lib/utils.ts format with `Intl` and `toFixed` or merge class names; they are not part of this model.
- `toLowerCase` is modelled for ASCII letters only; Unicode case mapping is not modelled.
- AgentCard.Render: `total_profit` is a Dafny `real`, so a NaN profit, for which `> 0` is false and the loss style is shown, cannot be expressed.
- WalletConnectModal.FormatAddress: JavaScript measures and slices strings in UTF-16 code units; the model counts the characters of a Dafny `string`, so the two differ for an address holding characters outside the Basic Multilingual Plane.
- Foreign calls are parameters: `fetch` to the backend and the Solana RPC, the wallet providers (`connect`, `signMessage`, `eth_requestAccounts`, `personal_sign`), bs58, `window.open` and the clipboard. The message text with `Date.now()` is not modelled.
- Cookie expiry (7 days) is not modelled; the jar is a map.
- The refresh effect of contexts/wallet-context.tsx:217-225 is not a member: a caller of `WalletProvider.StartRefresh` and `WalletProvider.FinishRefresh` chooses when each runs and what happens in between.
- Timers: the 30-second balance polling and the 1500 ms delay before `onConnect` and `onClose` are left out. `FinishSelect` returns the scheduled calls instead.
- WalletConnectModal.Modal.FinishSelect: the transient `signing` step between the two provider calls is not a separate state. The model goes from the provider's combined outcome straight to the final step.
- WalletConnectModal.Modal.SelectWallet: wallet ids are an enumeration, not strings. The download URL of every wallet is non-empty, so the `if (wallet.downloadUrl)` guard always opens it. The `installed` field of the static table is never read by the handler and is not modelled.
- CreateAgentModal.Wizard.HandleSubmit: has no step precondition. The form's submit event is not tied to the rendered submit button.
- WalletContext.Restore: the cookie chain is kept as the string it holds; the `'solana' | 'ethereum'` cast is not checked at run time and is not modelled.
- `copyAddress`, the rendering of the dialog and card, the icons and the animations are not part of this model.
- The provider never renders the wallet dialog: `showConnectModal` is only set (`WalletProvider.Connect`).
