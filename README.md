# Burn-and-claim NFT front end, modelled in Dafny

The system is a Next.js front end for an NFT campaign called THE POOL:
- A holder selects exactly five burn NFTs (NFT-A) and burns them through an external contract.
- The holder then claims up to ten premium NFTs (NFT-B) when the contract reports a claimable amount for the current phase.
- A "my NFTs" page lists the burn and premium tokens the wallet holds.
- Everything is shown in Japanese or English.

An offline Python script, `nft_renumbering.py`, prepares the token metadata. It copies one token's image and metadata over a range of numbers and rewrites the `name`, `image` and `edition` fields for each number.

The model has one Dafny module per source file, plus these shared modules:
- `Optional` holds the `Option` type.
- `Strings` holds the JavaScript and Python string operations the code relies on: `indexOf`, first and global `replace`, `split` and `join`, decimal rendering, clamped `substring` and `slice`, and ASCII case folding.
- `NftTypes` holds the record types of `types/nft.ts`.
- `TxMonitor` holds the transaction monitor and the revert-message classifier that the burn and claim buttons each carry.

The model takes the form of each source file:
- **React state becomes a class.** Every component that holds state is a Dafny class with the same fields, less the loading-screen, window-size and debug-flag state listed under "## Left out". Each event handler or effect is a method with a `modifies this` clause that states the whole new state.
- **Pure decisions become functions.** Render precedence, labels, error classification, clamps and URL building are functions, with lemmas relating them.
- **Loops stay loops.** Where the source loops, the model is a method with a loop proved against a specification function:
  - `t` walks a key's segments;
  - `formatMessage` substitutes each value in turn;
  - the my-NFTs page expands balances into records;
  - the script runs over its range of numbers.
- **External results become inputs.** Every contract or wallet result is an input value: the claimable amount, phase status, balances, the transaction hash or thrown message, and the receipt status.

## Model

| member | source | states |
|---|---|---|
| Language.LanguageProvider.constructor | contexts/LanguageContext.tsx:23-24 | The language starts as Japanese, before the client has mounted. |
| Language.LanguageProvider.Mount | contexts/LanguageContext.tsx:27-39 | After mount, the stored preference is adopted by `AdoptSaved`. |
| Language.AdoptSaved | contexts/LanguageContext.tsx:34-37 | A stored value is adopted only if it is exactly "en" or "ja". Anything else, or nothing, keeps the current language. |
| Language.LanguageProvider.SetLanguage | contexts/LanguageContext.tsx:77 | Setting the language changes it and nothing else. |
| Language.LanguageProvider.T | contexts/LanguageContext.tsx:49-62 | The segment loop returns the table node at the key's dotted path, or the key itself as soon as a segment is missing or a node on the way is falsy. Only object nodes have children (see "## Left out"). |
| Language.TranslateFallback | contexts/LanguageContext.tsx:54-59 | A missing path yields the key itself. A path that is present yields the stored node. |
| Language.FallbackOnlyOnEmpty | contexts/LanguageContext.tsx:54-58 | `t(k)` is falsy exactly when the path holds an empty string, or when the key is empty and missing. So `t(k) \|\| fallback` falls back only then. |
| Language.Resolve | components/wallet/WalletConnectButton.tsx:78 | A `t(k) \|\| fallback` text differs from `t(k)` only when `t(k)` is falsy, and then it is the fallback. Only `formatMessage` can fail. |
| Language.Placeholder | contexts/LanguageContext.tsx:70 | The placeholder for a value is non-empty and starts with `{`. |
| Language.LanguageProvider.FormatMessage | contexts/LanguageContext.tsx:66-74 | The per-value replacement loop equals `Substitute` of `t(key)`: each value in entry order replaces every occurrence of its placeholder. |
| Language.SubstituteDefined | contexts/LanguageContext.tsx:66-74 | Substituting into a text always gives a text. Substituting into an object node fails (a TypeError) exactly when there are values. |
| Language.SubstituteNoBraces | contexts/LanguageContext.tsx:69-71 | A text with no `{` comes back unchanged, whatever the values. |
| Language.FormatWithoutValues | contexts/LanguageContext.tsx:67-73 | `formatMessage(key, {})` is `t(key)`. |
| Strings.IndexOf | contexts/MetadataContext.tsx:120-121 | `indexOf` returns the first occurrence: the pattern occurs there and at no earlier index. `None` means it occurs nowhere. |
| Strings.FirstOccurrenceAfter | contexts/MetadataContext.tsx:120-121 | If the pattern's first character is not in the prefix, the first occurrence in `a + p + b` is right after `a`. |
| Strings.ReplaceFirstAfter | contexts/MetadataContext.tsx:120-121 | Under that condition, a first-occurrence `replace` rewrites exactly that occurrence. |
| Strings.ReplaceAllSelf | contexts/LanguageContext.tsx:70 | Globally replacing a pattern by itself changes nothing. |
| Strings.ReplaceAllAbsent | contexts/LanguageContext.tsx:70 | Replacing a pattern that does not occur changes nothing. |
| Strings.JoinSplit | contexts/LanguageContext.tsx:50 | Joining the parts of `key.split('.')` with "." gives back the key. |
| Strings.SplitPartsFree | contexts/LanguageContext.tsx:50 | No part of a split contains the separator. |
| Strings.ParseNatToString | contexts/MetadataContext.tsx:103 | Reading back the decimal rendering of a number gives the number. |
| Strings.NatToStringInjective | contexts/MetadataContext.tsx:103 | Distinct numbers render to distinct decimal strings. |
| Metadata.KindTablesAgree | contexts/MetadataContext.tsx:43-76 | The burn and premium prefixes and base URLs are the same in English and Japanese, and the two prefixes differ. |
| Metadata.NftName | contexts/MetadataContext.tsx:101-104 | A token's name is the kind's prefix, then " #", then at least one more character. |
| Metadata.NftNameTokenId | contexts/MetadataContext.tsx:101-104 | The text after "prefix #" is all digits and reads back as the token id. |
| Metadata.NftImageUrl | contexts/MetadataContext.tsx:107-110 | The image URL is the base URL, then "/", then the id, then ".png". |
| Metadata.NftImageUrlTokenId | contexts/MetadataContext.tsx:107-110 | The part between "/" and ".png" is all digits and reads back as the token id. |
| Metadata.NamesIdentifyTokens | contexts/MetadataContext.tsx:98-110 | Names and URLs do not depend on the language. Equal names, or equal URLs, of one kind mean equal token ids. |
| Metadata.FillTemplate | contexts/MetadataContext.tsx:118-123 | Replacing the first `{burnNftName}` and then the first `{premiumNftName}` fills both slots of a template whose text before them holds no `{`. |
| Metadata.FormattedDescriptionEn | contexts/MetadataContext.tsx:118-123 | The English description reads "Burn 5 NFT-A(burn nft) NFTs to claim a rare NFT-B(mint nft) NFT!". |
| Metadata.FormattedDescriptionJa | contexts/MetadataContext.tsx:118-123 | The Japanese description is filled in the same way. |
| PageMetadata.PageMapping | utils/DynamicMetadataGenerator.tsx:27-39 | "/my-nfts" maps to the my-NFTs keys. Every other path, including none, maps to the home keys. |
| PageMetadata.Choose | utils/DynamicMetadataGenerator.tsx:44-45 | A non-empty override wins. Otherwise a given key is translated. Otherwise the mapped key is translated. |
| PageMetadata.TitleAndDescriptionIndependent | utils/DynamicMetadataGenerator.tsx:44-45 | An overridden title does not affect the description, which still follows the path's mapping. |
| PageMetadata.FullTitle | utils/DynamicMetadataGenerator.tsx:47 | The full title is the page title, then " \| ", then the project name. |
| PageMetadata.FullTitleInjective | utils/DynamicMetadataGenerator.tsx:47 | Different page titles give different full titles. |
| Layout.LayoutLocale | app/layout.tsx:40 | The locale is English iff the `locale` parameter is exactly "en". An absent parameter gives Japanese. |
| Layout.HtmlLang | app/layout.tsx:97-100 | The document `lang` is "en" iff the locale is English, and it is always two letters. |
| Layout.GenerateMetadata | app/layout.tsx:38-87 | Every title, description, keyword list and image comes from the chosen locale's entry. The OpenGraph locale is en_US or ja_JP. The canonical URL is the base URL and the alternates are base + "/ja" and base + "/en". |
| Layout.LocalesShareTitleAndImage | app/layout.tsx:22-35 | Both locales share the title and image but have different descriptions. |
| Layout.AlternatesDistinct | app/layout.tsx:79-85 | The canonical URL and the two alternates are three different addresses under the base URL. |
| Network.ChainIdsIdentifyNetworks | config/network.ts:9-24 | Two networks have the same chain id iff they are the same network. |
| Network.CurrentConfig.constructor | config/network.ts:27-29 | The current network starts as Sepolia. |
| Network.CurrentConfig.SetNetwork | config/network.ts:188-192 | `setNetwork(n)` makes n current and returns `NETWORKS[n]`. The chain-id and explorer getters follow. |
| Network.CurrentConfig.SetToMainnet | config/network.ts:195-197 | Selects mainnet and returns its chain record, whose id is 1. |
| Network.CurrentConfig.SetToSepolia | config/network.ts:199-201 | Selects Sepolia and returns its chain record, whose id is 11155111. |
| Network.TransactionUrl | config/network.ts:157-159 | The transaction URL is the current explorer, then "/tx/", then the hash. |
| Network.TransactionUrlInjective | config/network.ts:157-159 | Different hashes give different transaction URLs. |
| Network.BurnTokenIds | config/network.ts:170-172 | Mainnet has no token ids, so the result is []. Sepolia gives [1, 2, 3]. |
| Network.MintTokenId | config/network.ts:174-176 | The mint token id is absent exactly on mainnet, and is 2 on Sepolia. |
| Network.ConfigExplorerUrl | config/network.ts:126-128 | `networkConfig.getExplorerUrl()`, looked up by chain id, equals `getExplorerUrl()`. |
| Network.ConfigContractConfig | config/network.ts:131-133 | `networkConfig.getContractConfig()` equals `getCurrentContractConfig()`. |
| Network.ChainIdGettersAgree | config/network.ts:107-185 | `networkConfig.chainId`, `getCurrentChainId()` and `getCurrentChainConfig().id` agree. They are 11155111 on Sepolia and 1 on mainnet. |
| NetworkSwitch.ExpectedNetworkName | components/common/NetworkSwitchHandler.tsx:23-25 | The expected name is "Ethereum" iff the expected id is 1, and "Sepolia" otherwise. |
| NetworkSwitch.ExpectedNameOfConfiguredNetwork | components/common/NetworkSwitchHandler.tsx:20-25 | For the configured network, the expected name is that network's own name. |
| NetworkSwitch.NetworkSwitchHandler.constructor | components/common/NetworkSwitchHandler.tsx:16 | The alert starts hidden. |
| NetworkSwitch.NetworkSwitchHandler.SyncAlert | components/common/NetworkSwitchHandler.tsx:28-38 | The alert shows iff the wallet is connected, the chain id is non-zero, and it differs from the expected id. |
| NetworkSwitch.NetworkSwitchHandler.Renders | components/common/NetworkSwitchHandler.tsx:51 | The handler renders iff the alert shows. |
| NetworkSwitch.HandleSwitch | components/common/NetworkSwitchHandler.tsx:41-49 | A switch to the expected chain is requested iff `switchChain` exists. Otherwise the wrong-network alert is shown. |
| NetworkSwitch.ButtonLabel | components/common/NetworkSwitchHandler.tsx:77-79 | The "switching" label shows iff a switch to the expected chain is pending. Otherwise the label is the wrong-network message. |
| NftCard.ContractAddress | components/nft/NFTCard.tsx:40-42 | A burn card links to the burn contract and a premium card to the mint contract. |
| NftCard.BorderClass | components/nft/NFTCard.tsx:49-52 | The border is red or emerald by kind: solid when selected, /30 otherwise. |
| NftCard.ExplorerLink | components/nft/NFTCard.tsx:114 | The link starts with the current explorer URL. Because it is built from `getTransactionUrl('')`, "/tx//token/" follows it. The card's contract address comes next, then "?a=". |
| NftCard.ExplorerLinkTokenId | components/nft/NFTCard.tsx:114 | The text after "?a=" is all digits and reads back as the token id. |
| NftCard.CardOf | components/nft/NFTCard.tsx:63-78 | The check badge shows iff the card is selected. The card is clickable iff selectable. The border follows `BorderClass`. |
| TxStatus.TruncateHash | components/burn/BurnStatus.tsx:22-24 | The truncated hash is at most the first 12 characters, "...", then at most the last 8. Out-of-range `substring` arguments are clamped. |
| TxStatus.TruncateHashShapes | components/claim/ClaimStatus.tsx:20-22 | A hash of 20 or more characters gives 23 characters, so a 66-character hash gives h[..12] + "..." + h[58..]. A hash shorter than 8 characters appears whole on both sides. |
| TxStatus.BurnSuccessMessage | components/burn/BurnStatus.tsx:27-31 | The burn message names the burn prefix, at its fixed position in each language. |
| TxStatus.CheckPremiumMessage | components/burn/BurnStatus.tsx:34-38 | The next-step message names the premium prefix. |
| TxStatus.ClaimSuccessMessage | components/claim/ClaimStatus.tsx:25-29 | The claim message starts with the premium prefix. |
| TxStatus.BurnStatusView | components/burn/BurnStatus.tsx:73-90 | The link is the transaction URL of the full hash, which ends with that hash. The shown text is the truncated hash. |
| TxStatus.ClaimStatusView | components/claim/ClaimStatus.tsx:80-85 | The same, with the claim message. |
| Header.ShortenAddress | components/common/Header.tsx:43-45 | No address or "" gives "". Otherwise the result is the first 6 and the last 4 characters around "...", for every address length. |
| Header.ShortAddressLength | components/common/Header.tsx:44 | A 42-character address shortens to 13 characters. |
| Header.HeaderState.constructor | components/common/Header.tsx:17-19 | The header starts unmounted, with the drawer closed and not mobile. |
| Header.HeaderState.Mount | components/common/Header.tsx:26-40 | Mounting sets the mobile flag iff the width is below 640. |
| Header.HeaderState.Resize | components/common/Header.tsx:30-35 | A resize recomputes the mobile flag only. |
| Header.HeaderState.ToggleDrawer | components/common/Header.tsx:48-50 | Toggling flips the drawer, so two toggles restore it. |
| Header.HeaderState.View | components/common/Header.tsx:53-125 | Before mount the placeholder renders, whatever the wallet state. Afterwards the address label is the shortened address when connected. |
| DeviceDetection.NoNavigator | utils/deviceDetection.ts:2-23 | With no navigator every predicate is false. |
| DeviceDetection.IosIsMobile | utils/deviceDetection.ts:2-12 | iOS implies mobile. |
| DeviceDetection.AndroidIsMobile | utils/deviceDetection.ts:2-18 | Android implies mobile. |
| DeviceDetection.DeviceChecksIgnoreCase | utils/deviceDetection.ts:2-18 | The mobile, iOS and Android tests give the same answer on a lower-cased user agent. |
| DeviceDetection.MetaMaskCheckIsCaseSensitive | utils/deviceDetection.ts:20-23 | "MetaMaskMobile" is recognised and "metamaskmobile" is not. |
| WalletConnection.DeepLink | utils/walletConnection.ts:9 | The deep link is "dapp://" followed by host and path. |
| WalletConnection.DeepLinkIgnoresSchemeQueryFragment | utils/walletConnection.ts:9 | Two locations give the same deep link iff their host + path agree. Scheme, query and fragment are dropped. |
| WalletConnection.OpenMetaMaskDeepLink | utils/walletConnection.ts:4-16 | It navigates and returns true iff there is a window and the browser is iOS outside MetaMask. It then navigates to that window's deep link. |
| WalletConnectButton.DeepLinkRuleIsIosOutsideMetaMask | components/wallet/WalletConnectButton.tsx:31-35 | The rule "mobile and iOS and not MetaMask" equals "iOS and not MetaMask". |
| WalletConnectButton.ConnectButton.constructor | components/wallet/WalletConnectButton.tsx:24-25 | The button starts unmounted, without the deep link. |
| WalletConnectButton.ConnectButton.Mount | components/wallet/WalletConnectButton.tsx:28-36 | After mount, the deep link is shown iff the rule holds. |
| WalletConnectButton.ConnectButton.HandleConnect | components/wallet/WalletConnectButton.tsx:39-55 | Before mount nothing happens. In deep-link mode the button only navigates. Otherwise it connects iff there is a connector, and notifies the parent iff it has a callback. |
| WalletConnectButton.ConnectButton.Renders | components/wallet/WalletConnectButton.tsx:57 | The button renders iff mounted and not connected. |
| WalletConnectButton.ConnectButton.Label | components/wallet/WalletConnectButton.tsx:67-79 | Label precedence is: pending, then deep link, then `t('header.connectWallet') \|\| 'Connect Wallet'`. |
| Tabs.InitialTab | components/ui/tabs.tsx:33-35 | The initial tab is `value \|\| defaultValue \|\| ""`. |
| Tabs.TabSet.constructor | components/ui/tabs.tsx:33-35 | A new tab set selects `InitialTab`. |
| Tabs.TabSet.SyncValue | components/ui/tabs.tsx:38-42 | A defined `value` becomes the selected tab. An undefined one leaves the selection alone. |
| Tabs.TabSet.HandleTabChange | components/ui/tabs.tsx:45-53 | Internal state changes only when uncontrolled. `onValueChange` is called with the new value whenever it exists. |
| Tabs.TriggerOf | components/ui/tabs.tsx:105-112 | A trigger outside `Tabs` throws. Inside, it is selected iff its value is the selected tab. |
| Tabs.ContentOf | components/ui/tabs.tsx:151-172 | Content outside `Tabs` throws. Inside, it renders iff selected or force-mounted, and animates iff selected. |
| Tabs.AtMostOneTriggerSelected | components/ui/tabs.tsx:112 | Triggers with different values are never both selected, and the trigger whose value is the selection is selected. |
| TabNavigation.GradientClass | components/ui/tabNavigation.tsx:91-94 | A tab's own non-empty gradient wins. Otherwise the default purple-to-cyan gradient is used. |
| TabNavigation.TabBar.constructor | components/ui/tabNavigation.tsx:24-26 | The bar starts with the active tab as previous tab, direction right and no exiting tab. |
| TabNavigation.TabBar.HandleTabClick | components/ui/tabNavigation.tsx:40-61 | Clicking the active tab changes nothing and notifies no one. Any other tab records the old tab as previous and exiting, turns right iff the new id is larger, and notifies the parent once with the new id. |
| TabNavigation.TabBar.ExitTimerFires | components/ui/tabNavigation.tsx:58-60 | The exit timer clears the exiting tab only. |
| TabNavigation.TabBar.ExitClass | components/ui/tabNavigation.tsx:73-79 | The exit class is non-empty only for the exiting tab, and is named opposite to the direction. |
| TabNavigation.TabBar.EnterClass | components/ui/tabNavigation.tsx:82-88 | The enter class is non-empty only for the active tab, and is named after the direction. |
| Quantity.Increment | components/ui/quantityIndicator.tsx:24-26 | "+" gives `min(prev + 1, max)`. |
| Quantity.Decrement | components/ui/quantityIndicator.tsx:28-30 | "−" gives `max(prev − 1, 1)`. |
| Quantity.StepsStayInRange | components/ui/quantityIndicator.tsx:24-56 | From [1, max] both steps stay in [1, max]. A button is disabled exactly when its step would change nothing. |
| Quantity.TickLabels | components/ui/quantityIndicator.tsx:74 | The tick labels are exactly 1..max. |
| Quantity.WalkInRange | components/ui/quantityIndicator.tsx:24-30 | Any sequence of button presses from [1, max] stays in [1, max]. |
| Quantity.ButtonsReachOnlyLabelledAmounts | components/ui/quantityIndicator.tsx:24-78 | Starting from 1, the buttons only reach amounts that have a tick label. |
| TestMint.Apply | components/debug/TestMintButton.tsx:56-66 | "+" clamps to 10, "−" clamps to 1, and the slider assigns its value directly. |
| TestMint.AmountStaysInRange | components/debug/TestMintButton.tsx:15-66 | From an amount in [1, 10], any run of presses and slider values in [1, 10] stays in [1, 10]. |
| TestMint.ThrownError | components/debug/TestMintButton.tsx:118 | A thrown error's non-empty message is shown. Otherwise the fixed per-language text is shown. |
| TestMint.TestMintDialog.constructor | components/debug/TestMintButton.tsx:14-19 | The dialog starts closed, with amount 1, not loading, and with no hash, error or success. |
| TestMint.TestMintDialog.HandleOpen | components/debug/TestMintButton.tsx:45-50 | Opening clears the error, hash and success, and keeps the amount. |
| TestMint.TestMintDialog.HandleClose | components/debug/TestMintButton.tsx:52-54 | Closing changes only `open`. |
| TestMint.TestMintDialog.ChangeAmount | components/debug/TestMintButton.tsx:56-66 | The amount becomes `Apply` of the event. |
| TestMint.TestMintDialog.MintTestNfts | components/debug/TestMintButton.tsx:82-122 | A missing wallet, signer or address sets the wallet error, before the network check. A wrong network sets the network error. Neither path mints. Otherwise `batchMintTo(address, amount)` is sent: success iff the receipt status is 1, else the outcome's error. Loading ends false whenever a mint was sent. |
| TestMint.TestMintDialog.MintButtonText | components/debug/TestMintButton.tsx:69-80 | The loading label takes precedence. The English label ends in "s" iff the amount is over 1. |
| TestMint.TestMintDialog.CloseButtonText | components/debug/TestMintButton.tsx:125-130 | The label is "Close" after a success and "Cancel" otherwise. |
| TestMint.TestMintDialog.MintButtonEnabled | components/debug/TestMintButton.tsx:258-263 | There is no mint button after a success. Otherwise it is enabled iff not loading, connected and on the right network. |
| NftSelection.Without | components/burn/NftSelection.tsx:105 | Filtering out an id removes every occurrence of it and keeps every other id with its multiplicity. |
| NftSelection.WithoutNoDuplicates | components/burn/NftSelection.tsx:105 | Filtering preserves the absence of duplicates. |
| NftSelection.Toggle | components/burn/NftSelection.tsx:101-109 | While disabled nothing changes. A selected id is removed by `Without`, which keeps the other ids in order. An absent id is appended iff fewer than 5 are selected. |
| NftSelection.ToggleKeepsValid | components/burn/NftSelection.tsx:101-109 | A toggle keeps the selection at most 5 long and free of duplicates. |
| NftSelection.ToggleAllKeepsValid | components/burn/NftSelection.tsx:101-109 | Any sequence of toggles from a valid selection keeps it valid. |
| NftSelection.KeepOwned | components/burn/NftSelection.tsx:91-93 | The filter keeps exactly the owned ids with their multiplicity. Keeping everything means nothing changed. |
| NftSelection.KeepOwnedAppend | components/burn/NftSelection.tsx:91-93 | The filter distributes over concatenation, so the kept ids stay in selection order. |
| NftSelection.Prune | components/burn/NftSelection.tsx:90-98 | The selection is written back iff some selected id is not owned, and the result is strictly shorter. |
| NftSelection.PruneDropsUnowned | components/burn/NftSelection.tsx:95 | A change in length means an unowned id was selected. |
| NftSelection.PruneIdempotent | components/burn/NftSelection.tsx:90-98 | Pruning a pruned selection writes nothing. |
| NftSelection.BurnNfts | components/burn/NftSelection.tsx:66-74 | Each owned id becomes a burn record carrying that id and its burn name. |
| NftSelection.OwnedAfterFetch | components/burn/NftSelection.tsx:66-93 | After a fetch, an id counts as owned iff the contract returned it. |
| NftSelection.HintFor | components/burn/NftSelection.tsx:199-213 | The "select five" hint shows iff 0 < length < 5, and its message is `nftSelection.selectFive` formatted with the count. The summary shows iff length = 5, and its message is `nftSelection.selectedNfts` formatted with `JoinIds` of the selection. |
| NftSelection.JoinIdsSplit | components/burn/NftSelection.tsx:210 | `ids.join(', #')` gives "" for no ids. Otherwise, splitting the text on ',' gives one part per id, in order: the first id's decimal digits, then " #" followed by the digits of each later id. |
| NftSelection.SelectionGrid.constructor | components/burn/NftSelection.tsx:30-33 | The grid starts empty, loading, with counter 0 and no error. |
| NftSelection.SelectionGrid.OnBurnTxHash | components/burn/NftSelection.tsx:42-47 | A non-empty burn hash clears the selection and increments the counter by one. Otherwise nothing changes. |
| NftSelection.SelectionGrid.HandleRefresh | components/burn/NftSelection.tsx:112-114 | A refresh increments the counter by one. |
| NftSelection.SelectionGrid.FetchUserNfts | components/burn/NftSelection.tsx:50-87 | When disconnected, without address or signer, or disabled, only loading ends. Otherwise the owned ids become burn records, or a failure empties the list with the generic error. |
| BurnButton.Values | components/burn/BurnButton.tsx:150 | `Object.values` of the declared record gives the counts in entry order. |
| BurnButton.BurnButtonState.constructor | components/burn/BurnButton.tsx:21-25 | The button starts not loading, with no error, no pending transaction and an unknown contract type. |
| BurnButton.BurnButtonState.InitLoadingText | components/burn/BurnButton.tsx:40-42 | Sets the loading text to "processing burn" and nothing else. |
| BurnButton.BurnButtonState.CheckContractType | components/burn/BurnButton.tsx:49-71 | With a signer and a readable interface, the button records whether any function is named `burnNFT`. Otherwise nothing changes. |
| BurnButton.BurnButtonState.HandleBurn | components/burn/BurnButton.tsx:149-204 | Unless the counts sum to 5 there is no call and no change. Otherwise `burnTokens(phaseId, 5)` is sent whatever the contract type. A hash becomes pending while loading. A throw stops loading and shows the classified message. |
| BurnButton.BurnButtonState.MonitorTransaction | components/burn/BurnButton.tsx:74-114 | Without a truthy pending hash (absent or "") or without a signer nothing happens. Otherwise the state follows `TxMonitor.Monitor`. |
| TxMonitor.Monitor | components/burn/BurnButton.tsx:74-114 | A hash is confirmed iff there is a provider, the effect is still subscribed and the receipt status is 1. The "failed" error appears iff subscribed with any other receipt. The "monitoring" error appears iff the wait throws, even after unsubscribing. The button settles iff there is no provider or the effect is still subscribed. |
| TxMonitor.UnsubscribedRunIsSilent | components/burn/BurnButton.tsx:86-105 | After unsubscribing, a returned wait changes nothing. Only a thrown wait still sets its message. |
| TxMonitor.Classify | components/burn/BurnButton.tsx:187-199 | Revert reasons count only under "execution reverted", in their order. "user rejected transaction" counts only without it. The fallback key is given for a missing message, for a message with neither "execution reverted" nor a user rejection, and for a revert with neither reason. |
| TxMonitor.RevertTakesPrecedence | components/claim/ClaimButton.tsx:171-183 | A reverted message is never classified as a user rejection. |
| BurnButton.BurnButtonState.ButtonText | components/burn/BurnButton.tsx:207-215 | While loading the label is the loading text. Otherwise it names the burn prefix. |
| BurnButton.BurnButtonState.View | components/burn/BurnButton.tsx:230-331 | Render precedence is: connect, then switch network, then a disabled "select 5" button ("(n/5)" only for n > 0), then the active button. The error box appears only when the button is active. |
| BurnButton.HandleConnectWallet | components/burn/BurnButton.tsx:131-146 | On iOS outside MetaMask the handler navigates to the deep link. Otherwise it connects iff there is a connector, and never notifies a parent. |
| BurnButton.ArrayAsRecord | app/page.tsx:29 | The page's `number[]`, read as the declared record, maps each position to the token id stored there. |
| BurnButton.ArrayTotalIsIdSum | app/page.tsx:304 | The "count" of such a record is the sum of the token ids. |
| BurnButton.ArraySelectionMiscounts | components/burn/BurnButton.tsx:150 | Five selected tokens [1..5] count as 15, while the single token [5] counts as 5. |
| BurnButton.SelectionCounts | components/burn/BurnButton.tsx:16 | The intended record maps each selected id to count 1. |
| BurnButton.SelectionCountsTotal | components/burn/BurnButton.tsx:150 | The intended record's total is the number of selected ids, so it is 5 iff five are selected. |
| ClaimButton.MintableFromQuery | components/claim/ClaimButton.tsx:63-84 | A throwing claimable query gives 0. Phase status 0 gives 0. Otherwise the raw amount stands, even when the phase query throws. |
| ClaimButton.ClaimButtonState.constructor | components/claim/ClaimButton.tsx:22-28 | The button starts not loading and not on the client, with amount 1, mintable 0, and no transaction or error. |
| ClaimButton.ClaimButtonState.Mount | components/claim/ClaimButton.tsx:35-38 | Marks the client and sets the loading text. |
| ClaimButton.ClaimButtonState.GetMintableAmount | components/claim/ClaimButton.tsx:42-88 | Without a signer nothing changes. Otherwise the mintable amount becomes `MintableFromQuery`. |
| ClaimButton.ClaimButtonState.ClaimNft | components/claim/ClaimButton.tsx:133-188 | Without a signer nothing is sent: the deep link opens on iOS outside MetaMask, and an alert shows otherwise. With a signer, `claimReward(phaseId, mintAmount)` is sent, with a pending hash or a classified error as the outcome. |
| ClaimButton.ClaimButtonState.MonitorTransaction | components/claim/ClaimButton.tsx:91-131 | Without a truthy pending hash (absent or "") or without a signer nothing happens. Otherwise the state follows `TxMonitor.Monitor`. |
| ClaimButton.ClaimButtonState.PickerMax | components/claim/ClaimButton.tsx:231 | The picker maximum is `min(mintableAmount, 10)`. |
| ClaimButton.ClaimButtonState.PickerAllowsTwo | components/claim/ClaimButton.tsx:226-231 | Whenever the picker shows, its maximum is between 2 and 10. |
| ClaimButton.ClaimButtonState.StepUp | components/claim/ClaimButton.tsx:228-231 | "+" is `Quantity.Increment` bounded by the picker maximum, and changes nothing else. |
| ClaimButton.ClaimButtonState.StepDown | components/ui/quantityIndicator.tsx:28-30 | "−" is `Quantity.Decrement`, and changes nothing else. |
| ClaimButton.ClaimButtonState.SlideTo | components/ui/quantityIndicator.tsx:20-22 | The slider assigns its value unclamped. |
| ClaimButton.ClaimButtonState.ButtonText | components/claim/ClaimButton.tsx:195-203 | The loading text takes precedence. The English label names the amount and the premium prefix, and ends in "s" iff the amount is over 1. |
| ClaimButton.ClaimButtonState.Renders | components/claim/ClaimButton.tsx:190-192 | The button renders iff on the client. |
| HomePage.PageClaimable | app/page.tsx:104-121 | A throwing claimable query or phase query gives 0. Phase status 0 gives 0. Otherwise the raw amount. |
| HomePage.PageAndButtonDisagreeOnlyOnPhaseFailure | app/page.tsx:104-121 | The page and the claim button differ exactly when the phase query throws after a successful claimable query. |
| HomePage.HomePageState.constructor | app/page.tsx:29-39 | The page starts with an empty selection, no hashes, claimable 0, not checking and no confetti. |
| HomePage.HomePageState.CheckClaimStatus | app/page.tsx:95-126 | Nothing is checked unless the network is correct and address and signer are present. Otherwise the amount becomes `PageClaimable`, or stays the same if setting up the contract fails, and checking ends. |
| HomePage.HomePageState.SetSelection | app/page.tsx:286-291 | The selection becomes the grid's ids and nothing else changes. |
| HomePage.HomePageState.SetBurnTxHash | app/page.tsx:72-76 | A truthy burn hash resets the claim hash. |
| HomePage.HomePageState.SetClaimTxHash | app/page.tsx:79-83 | A truthy claim hash turns the confetti on. |
| HomePage.HomePageState.ConfettiTimeout | app/page.tsx:85-87 | The timeout turns the confetti off only. |
| HomePage.HomePageState.ClaimSectionOrResult | app/page.tsx:213-235 | The claim section and the claim result are never shown together. |
| HomePage.HomePageState.SelectionDisabled | app/page.tsx:289 | The grid is disabled iff the network is wrong or the wallet is disconnected. |
| HomePage.HomePageState.OnCheckPremium | app/page.tsx:320-331 | Scrolls to the top iff the claimable amount is positive. |
| HomePage.HomePageState.BurnButtonSelection | app/page.tsx:303-306 | The corrected hand-off of the Findings row: the selection as the declared id-to-count record, whose total is the number of selected NFTs. The page as written hands over the `number[]` (`BurnButton.ArrayTotalIsIdSum`). |
| MyNfts.PhaseToQuery | app/my-nfts/page.tsx:106 | A selected phase, including 0, wins over the default phase. |
| MyNfts.Instances | app/my-nfts/page.tsx:148-169 | `count` records of one token, where record i has instance id i + 1. |
| MyNfts.ExpandBalances | app/my-nfts/page.tsx:148-169 | The two push loops give the burn instances followed by the premium instances. |
| MyNfts.FetchPhase | app/my-nfts/page.tsx:112-174 | One phase's query gives that expansion, or nothing when the phase query fails. |
| MyNfts.OfKind | app/my-nfts/page.tsx:204-205 | The type filter keeps exactly the records of that kind with their multiplicity, and holds no other kind. |
| MyNfts.OfKindAppend | app/my-nfts/page.tsx:204-205 | Filtering distributes over concatenation. |
| MyNfts.OfKindUniform | app/my-nfts/page.tsx:204-205 | A list of one kind filters to itself or to nothing. |
| MyNfts.FiltersSplitTheExpansion | app/my-nfts/page.tsx:204-219 | The burn and premium tabs show exactly the two groups, and their counts are the two balances. |
| MyNfts.InstanceIdsRunFromOne | app/my-nfts/page.tsx:148-169 | Within each group, instance ids run 1..n in order. |
| MyNfts.CurrentList | app/my-nfts/page.tsx:274-281 | Tab 1 shows burn, tab 2 shows premium, and every other tab shows all. |
| MyNfts.EmptyGridText | app/my-nfts/page.tsx:229-232 | Tab 0 shows the "no NFTs" key. Any other tab shows a text starting with that tab's prefix. |
| MyNfts.MyNftsPage.constructor | app/my-nfts/page.tsx:30-38 | The page starts empty, loading, on tab 0, with counter 0 and no phase. |
| MyNfts.MyNftsPage.HandleRefresh | app/my-nfts/page.tsx:73-75 | A refresh increments the counter by one. |
| MyNfts.MyNftsPage.HandlePhaseSelect | app/my-nfts/page.tsx:83-86 | Selecting a phase records it and increments the counter. |
| MyNfts.MyNftsPage.HandleTabChange | app/my-nfts/page.tsx:301-303 | Only the tab changes. |
| MyNfts.MyNftsPage.FetchUserNfts | app/my-nfts/page.tsx:89-186 | When disconnected, without address or signer, or on the wrong network, only loading ends. A setup failure empties the list with the load error. Otherwise the list is the queried phase's expansion. |
| MyNfts.MyNftsPage.Shown | app/my-nfts/page.tsx:274-281 | Tab 1 shows the fetched burn instances, tab 2 the premium instances, and any other tab the whole fetched list. |
| Renumbering.NftType | nft_renumbering.py:43 | The type is "burn" iff the directory contains "vnft-a", and "mint" otherwise. |
| Renumbering.WordRun | nft_renumbering.py:67 | `\w+` takes the longest run of word characters. |
| Renumbering.DigitRun | nft_renumbering.py:67 | `\d+` takes the longest run of digits. |
| Renumbering.NameMatch | nft_renumbering.py:67-68 | An anchored match of `(nft-\w+)#(\d+)` yields group 1: "nft-" and word characters, followed in the name by "#" and a digit. |
| Renumbering.NameMatchOf | nft_renumbering.py:67-71 | The name "nft-w#n" matches with group "nft-w". |
| Renumbering.NameMatchConverse | nft_renumbering.py:67-68 | Every name that starts with "nft-", a non-empty word, "#" and a digit matches, whatever follows, with group 1 "nft-" plus the word. With `NameMatch` this is the whole `re.match`. |
| Renumbering.RenameName | nft_renumbering.py:65-74 | A matching name becomes its group, then "#", then n, and any trailing text is dropped. Any other name becomes "nft-type#n". |
| Renumbering.RenameTwice | nft_renumbering.py:65-74 | Renaming to m and then to n equals renaming straight to n. |
| Renumbering.ImageMatchAt | nft_renumbering.py:79 | A match at position p is the host, a word, then "/images/", followed by digits and ".png". |
| Renumbering.ImageMatchAtConverse | nft_renumbering.py:79 | Wherever the host, a non-empty word, "/images/", digits and ".png" occur, whatever text precedes or follows, the pattern matches at that index with group 1 the host, the word and "/images/". |
| Renumbering.ImageSearch | nft_renumbering.py:79-80 | `search` returns a match of the image pattern found at some index from p onward, and returns `None` only when the pattern matches at no index from p onward. |
| Renumbering.ImageSearchLeftmost | nft_renumbering.py:79-80 | The match `search` returns is the leftmost one: it is the attempt at the first matching index from p (`SearchIndex`), and the pattern matches at no earlier index from p. |
| Renumbering.RenameImageAt | nft_renumbering.py:77-87 | A found URL becomes group 1, then n, then ".png", and surrounding text is dropped. Otherwise the image becomes the type's default URL for n. |
| Renumbering.ImageMatchOf | nft_renumbering.py:79-84 | A canonical image URL matches at its start, with group 1 as its prefix. |
| Renumbering.RenameImageAtTwice | nft_renumbering.py:77-87 | Rewriting the image to m and then to n equals rewriting it straight to n, for any host. |
| Renumbering.RenameImageTwice | nft_renumbering.py:77-87 | The same, for the script's own host. |
| Renumbering.Renumber | nft_renumbering.py:62-91 | The rewrite fails (a TypeError) iff a present name or image is not a string. On success the keys are kept, `name` and `image` are rewritten, `edition` becomes n if present, and every other field is copied. |
| Renumbering.RenumberTwice | nft_renumbering.py:62-91 | Renumbering an output to n equals renumbering the original to n. |
| Renumbering.Range | nft_renumbering.py:52 | `range(start, end + 1)` is start..end, empty when end < start. |
| Renumbering.Expected | nft_renumbering.py:52-95 | The expected output holds one metadata record per number in the range, each the rewrite of the original for that number. |
| Renumbering.ProcessDirectory | nft_renumbering.py:34-97 | With a missing input nothing is written. With a failing rewrite only the first image is written. Otherwise one image and one rewritten metadata file per number, in order. |

## Left out

- Language.LanguageProvider.T: JavaScript indexing into non-object nodes is not modelled. Only an object node has children here. In the source, `result[k]` also succeeds on a string leaf for an index or "length" (the key "x.0" on the leaf "hello" gives "h"), and on an object for a prototype name such as "constructor". The model returns the key itself in those cases.
- Contract and wallet I/O: `ethers.Contract` calls, wagmi hooks, the signer and provider. Each result is a parameter: owned ids, balances, claimable amount, phase status, transaction hash or thrown message, receipt status.
- `getProvider` in config/network.ts. It is deprecated I/O with server-side logging.
- `networkConfig.getPhaseId()` is called by several components but is not declared in config/network.ts. The phase id is therefore an opaque parameter.
- Timers and effect scheduling: the page-load timeouts, the 400 ms tab-exit timer and provider polling. Only the firing of the confetti and tab-exit timers is a method. The order of asynchronous effects is not modelled.
- `localStorage` writes in the language provider, and all console logging.
- The development-environment test in components/debug/TestMintButton.tsx (`NODE_ENV`, Vercel environment, hostname). It reads process globals; the dialog is modelled as shown.
- Window navigation and `alert`. Only the decision and the URL or message are modelled.
- The locale JSON tables and ABI files are not part of this model. A translation table is an abstract tree of texts and objects.
- `\w`, `\d` and the `/i` flag are ASCII-only. Unicode letters and digits are not modelled.
- Replacement strings containing `$` patterns, and placeholder names with regular-expression metacharacters. `formatMessage` treats `{name}` literally.
- `Number()` conversion of big integers. Amounts, balances and statuses are mathematical integers, with no precision loss.
- The script's file copying, directory creation and JSON reading and writing, and its `main`, which runs the directory step for vnft-a and vnft-b. Metadata is a map from keys to JSON values; the image copy is recorded by its number.
- Styling, animation and random effects: confetti, stars, tab CSS injection, loading screen and themes.
- The fields `isPageLoaded`, `isLoadingHidden` and `windowDimension` of app/page.tsx, and `isPageLoaded`, `isLoadingHidden` and `showDebugInfo` of app/my-nfts/page.tsx: they drive only the loading screen and the confetti size, and `showDebugInfo` is a debug flag that only its own toggle reads, so `HomePage.HomePageState` and `MyNfts.MyNftsPage` leave them out.
- HomePage.HomePageState.CheckClaimStatus: states only the end of a check (`isCheckingClaims` false). The value true between the two awaits is not observable in a sequential model.
- MyNfts.MyNftsPage.FetchUserNfts: the source's loop over `phasesToCheck` always has exactly one phase. The model fetches that one phase with `FetchPhase`.
- TestMint.TestMintDialog.MintTestNfts: a receipt that is null, or a thrown value without a message, is folded into the outcome's error text.

## Notes on the code

The model follows the code in these four places, where the behaviour is easy to misread.
- The monitor's "still subscribed" flag guards only the code after a returned wait. The `catch` block is not guarded, so a wait that throws after unmount still sets its error (`TxMonitor.UnsubscribedRunIsSilent`).
- The claim button keeps the raw claimable amount when only the phase query fails, while the home page sets it to zero (`HomePage.PageAndButtonDisagreeOnlyOnPhaseFailure`).
- config/network.ts declares no phase id, although the components call `networkConfig.getPhaseId()`.
- The current network is chosen at run time by `setNetwork` (`Network.CurrentConfig.SetNetwork`).

## Findings

| source | as written | input that shows it | evidently intended | confidence | as-written member | corrected member |
|---|---|---|---|---|---|---|
| app/page.tsx:29, app/page.tsx:304, components/burn/BurnButton.tsx:16, components/burn/BurnButton.tsx:150 | The page holds the selection as a `number[]` of token ids but passes it where `Record<number, number>` (id to count) is declared. `Object.values(...).reduce` then sums the token ids. | Selecting tokens [1, 2, 3, 4, 5] gives 15, so the burn button stays disabled. Selecting the single token [5] gives 5, so the button becomes active. | The total is the number of selected NFTs, so the burn is allowed iff five are selected. | not executed | BurnButton.ArraySelectionMiscounts (with BurnButton.ArrayAsRecord, BurnButton.ArrayTotalIsIdSum) | BurnButton.SelectionCountsTotal (with BurnButton.SelectionCounts, used by HomePage.HomePageState.BurnButtonSelection) |
