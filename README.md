# Wallet session, chat log and text tickers of the CryptoVault front end

This project models the stateful logic of a single-page crypto-vault dashboard written in
React and TypeScript, and proves properties of it in Dafny. Most of the front end is
presentation over sample data. What it does model falls into three parts:

- **The authentication context** (`Auth`). It holds the connected wallet
  `user = {address, isConnectedToVault}` or null, an `isConnecting` flag, whether the
  MetaMask SDK handle exists, and the local-storage entry `'wallet_address'`. Its handlers
  are `connectWallet`, `disconnectWallet`, `checkVaultConnection` and the restore-on-mount
  effect. Each is a transition function on a `Session` value. The class `AuthProvider`
  performs the same steps on its fields, and every method ensures that its new state is
  the transition function applied to its old state.
- **The chat assistant panel** (`Chat`). It keeps an append-only message log, the input
  field, the `isTyping` flag and the replies scheduled by `setTimeout`. JavaScript's `trim`
  is modelled over the fixed ECMAScript whitespace set. The value-level steps are `Send`,
  `GuardedSend`, `Deliver` and `SetInput`, and `AiChat` is the panel object.
- **Timer-driven text** (`Ticker`, `Animated`, `Scrolling`) and **the wallet button**
  (`Wallet`). The rotating index `(prev + 1) % texts.length` is shared by `AnimatedText`
  and `ScrollingText`; it is modelled exactly, including the NaN that JavaScript produces
  for an empty list. `TypewriterText` grows a prefix of its text. `MarqueeText` repeats its
  text four times. `formatAddress` follows JavaScript `slice` clamping. The view choice
  depends only on `user` and `isConnecting`.

External effects become parameters:
- the SDK's account list and its failures: `AccountsReply`, plus an `Option` for a missing provider;
- the random vault check: a `bool`;
- the random reply choice: an index below 5;
- timers: explicit `Tick`/`Deliver` steps.

## Model

| member | source | states |
|---|---|---|
| `Auth.Initial` | src/contexts/AuthContext.tsx:22-24 | on load there is no user, no connection in progress and no SDK; storage keeps what an earlier visit stored |
| `Auth.WithSdk` | src/contexts/AuthContext.tsx:26-39 | after the mount effect runs the SDK is available; user, connection flag and storage are untouched |
| `Auth.Connect` | src/contexts/AuthContext.tsx:41-67 | without an SDK nothing changes; with a non-empty account list the user becomes the first account with the vault answer and that same address is stored; with a missing or empty list, or an error, user and storage are unchanged; `isConnecting` is false afterwards whatever the outcome |
| `Auth.Disconnect` | src/contexts/AuthContext.tsx:69-72 | always ends with no user and no stored address; nothing else changes |
| `Auth.DisconnectIdempotent` | src/contexts/AuthContext.tsx:69-72 | disconnecting twice gives the same state as disconnecting once |
| `Auth.PresentAddress` | src/contexts/AuthContext.tsx:75 | `user?.address` is present exactly when there is a user with a non-empty address, and is then that address; it decides whether the vault is queried, and whether "Copy Address" copies anything (src/components/ConnectWallet.tsx:18-22) |
| `Auth.SetVaultFlag` | src/contexts/AuthContext.tsx:79 | a present user keeps its address and takes the new flag; a user that became null stays null |
| `Auth.CheckVault` | src/contexts/AuthContext.tsx:74-83 | a no-op without a user or when the request fails; otherwise only `isConnectedToVault` changes, to the answer, and never the address |
| `Auth.Restore` | src/contexts/AuthContext.tsx:96-114 | a no-op without a truthy saved address, an SDK or a provider; the user is set to the saved address only when the FIRST listed account equals it, with storage kept; on any other reply or a rejection the stored address is removed and the user is left as it was |
| `Auth.MirroredPreserved` | src/contexts/AuthContext.tsx:41-83 | SDK creation, connect, disconnect and the vault check all keep the stored address equal to the user's address |
| `Auth.RestoreMirrored` | src/contexts/AuthContext.tsx:96-114 | run before any user exists, as on mount, restore also keeps storage mirroring the user |
| `Auth.RestoreIgnoresLaterAccounts` | src/contexts/AuthContext.tsx:102 | a saved address that is listed second is not restored, and its stored copy is removed |
| `Auth.RestoreSkipsEmptyAddress` | src/contexts/AuthContext.tsx:97-98 | an empty stored string is falsy: restore changes nothing |
| `Auth.ConnectThenReloadRestores` | src/contexts/AuthContext.tsx:49-105 | an address stored by a successful connect is restored after a reload when the provider still lists it first |
| `Auth.AuthProvider.constructor` | src/contexts/AuthContext.tsx:22-24 | the provider starts in the initial session for the given storage |
| `Auth.AuthProvider.InitSdk` | src/contexts/AuthContext.tsx:26-39 | the SDK handle becomes available and nothing else changes |
| `Auth.AuthProvider.StartConnect` | src/contexts/AuthContext.tsx:42-44 | returns at once without an SDK; otherwise raises `isConnecting` only |
| `Auth.AuthProvider.CompleteConnect` | src/contexts/AuthContext.tsx:46-66 | the continuation of a started connect ends in the `Connect` state and keeps storage mirrored |
| `Auth.AuthProvider.ConnectWallet` | src/contexts/AuthContext.tsx:41-67 | the whole handler moves the object to `Connect` of its old state |
| `Auth.AuthProvider.DisconnectWallet` | src/contexts/AuthContext.tsx:69-72 | the object moves to `Disconnect` of its old state |
| `Auth.AuthProvider.CheckVaultConnection` | src/contexts/AuthContext.tsx:74-83 | the object moves to `CheckVault` of its old state |
| `Auth.AuthProvider.RestoreSession` | src/contexts/AuthContext.tsx:96-114 | the object moves to `Restore` of its old state |
| `Chat.TrimStart` | src/components/AIChat.tsx:53 | the result is a suffix of the input that does not start with whitespace, and everything dropped is whitespace |
| `Chat.TrimEnd` | src/components/AIChat.tsx:53 | the result is a prefix of the input that does not end with whitespace, and everything dropped is whitespace |
| `Chat.TrimEmptyIffBlank` | src/components/AIChat.tsx:53 | the trimmed input is empty exactly when every character is whitespace |
| `Chat.Trim` | src/components/AIChat.tsx:53 | `trim()` is no longer than its input, is empty exactly when the input is blank, and otherwise starts and ends with a non-whitespace character |
| `Chat.Initial` | src/components/AIChat.tsx:27-42 | the log starts with exactly one assistant message, with id 1 and four suggestions; the input is empty, nothing is being typed and no reply is pending |
| `Chat.SendEnabled` | src/components/AIChat.tsx:284 | the send button is enabled exactly when the input is not blank and `isTyping` is false |
| `Chat.Send` | src/components/AIChat.tsx:52-83 | a blank input changes nothing; otherwise exactly one user message is appended, holding the untrimmed input with id = previous length + 1; the input is cleared, `isTyping` is set, and a reply with id = previous length + 2 is scheduled |
| `Chat.GuardedSend` | src/components/AIChat.tsx:282-284 | sends exactly when the button is enabled, and otherwise changes nothing |
| `Chat.Deliver` | src/components/AIChat.tsx:67-82 | appends one assistant message with the scheduled id, canned reply `k` of five and the four follow-up suggestions; clears `isTyping`; drops that reply from the schedule |
| `Chat.SetInput` | src/components/AIChat.tsx:85-87 | a suggestion click (or typing) sets the input and leaves messages, `isTyping` and the schedule unchanged |
| `Chat.StepAsWritten` | src/components/AIChat.tsx:274-284 | one event as written adds at most one message; typing and suggestion clicks leave the log and `isTyping` alone; Enter is an unguarded `Send` |
| `Chat.Step` | src/components/AIChat.tsx:274-284 | with Enter guarded, Enter and the send button both act as `GuardedSend`; every other event acts as written; at most one message is added |
| `Chat.RunAsWritten` | src/components/AIChat.tsx:52-87 | a run of events as written adds at most one message per event |
| `Chat.Run` | src/components/AIChat.tsx:52-87 | a run of events with Enter guarded adds at most one message per event |
| `Chat.StepAppendsOnly` | src/components/AIChat.tsx:52-87 | no event alters or removes an earlier message, with or without the Enter guard |
| `Chat.RunAppendsOnly` | src/components/AIChat.tsx:52-87 | over any sequence of events the old log is a prefix of the new one |
| `Chat.SendKeepsOrderly` | src/components/AIChat.tsx:55-64 | an enabled send keeps ids equal to positions, with one reply pending for the next position |
| `Chat.DeliverKeepsOrderly` | src/components/AIChat.tsx:67-82 | delivering the pending reply keeps ids equal to positions and clears `isTyping` with nothing pending |
| `Chat.StepKeepsOrderly` | src/components/AIChat.tsx:52-87 | with Enter guarded like the button, every event keeps ids equal to 1-based positions |
| `Chat.RunKeepsOrderly` | src/components/AIChat.tsx:52-87 | the same holds over any sequence of events |
| `Chat.IdsArePositions` | src/components/AIChat.tsx:55-69 | in every reachable log the message at 1-based position k has id k, so ids are unique |
| `Chat.EnterWhileTypingDuplicatesId` | src/components/AIChat.tsx:280 | as written, Enter while a reply is pending gives the new user message the id of the pending reply, and two adjacent messages share an id once it arrives |
| `Chat.TypingWhileReplyPendingReachable` | src/components/AIChat.tsx:274-284 | the duplicating situation arises from any idle state by typing, sending and typing again before the reply |
| `Chat.AiChat.constructor` | src/components/AIChat.tsx:27-42 | the panel starts in the initial chat state |
| `Chat.AiChat.CanSend` | src/components/AIChat.tsx:284 | the send button is enabled exactly when the input is not blank and no reply is being typed |
| `Chat.AiChat.SetInputValue` | src/components/AIChat.tsx:277 | typing only replaces the input |
| `Chat.AiChat.HandleSuggestionClick` | src/components/AIChat.tsx:85-87 | the input becomes the suggestion; messages and `isTyping` are unchanged |
| `Chat.AiChat.HandleSendMessage` | src/components/AIChat.tsx:282-284 | a click on the send button, which is enabled only for a non-blank input while no reply is being typed: the panel moves to `GuardedSend` of its old state and keeps ids equal to positions |
| `Chat.AiChat.HandleEnterKey` | src/components/AIChat.tsx:280 | Enter in the input field calls `handleSendMessage` with no `isTyping` check: the panel moves to `Send` of its old state |
| `Chat.AiChat.DeliverReply` | src/components/AIChat.tsx:67-82 | the panel moves to `Deliver` of its old state and keeps ids equal to positions |
| `Ticker.Advance` | src/components/AnimatedText.tsx:14 | a tick from an index in range moves to the next index, wrapping to 0 at the end; every result is in range for a non-empty list; an empty list gives NaN, and NaN stays NaN |
| `Ticker.Shown` | src/components/AnimatedText.tsx:22 | the shown text is `texts[currentIndex]` when the index is a number in range, and nothing otherwise |
| `Ticker.AdvanceNForward` | src/components/ScrollingText.tsx:14 | before the end of the list, k ticks from i land on i + k |
| `Ticker.AdvanceNInRange` | src/components/AnimatedText.tsx:14 | from an index in range, every number of ticks leaves the index in [0, len) |
| `Ticker.VisitsEveryIndex` | src/components/ScrollingText.tsx:14 | the first len ticks from 0 visit every index in order |
| `Ticker.NoEarlyReturn` | src/components/ScrollingText.tsx:14 | the index first returns to 0 after exactly len ticks |
| `Ticker.CycleReturns` | src/components/ScrollingText.tsx:14 | after len ticks the index is back where it started |
| `Ticker.Periodic` | src/components/AnimatedText.tsx:14 | len more ticks always lead to the same index |
| `Ticker.ShownRepeats` | src/components/AnimatedText.tsx:14-22 | after len ticks the same text is shown again |
| `Ticker.EmptyGoesNaN` | src/components/AnimatedText.tsx:14 | with an empty list the first tick makes the index NaN for good, and nothing is shown |
| `Animated.AnimatedText.constructor` | src/components/AnimatedText.tsx:10 | the index starts at 0 |
| `Animated.AnimatedText.Display` | src/components/AnimatedText.tsx:22 | the span shows `texts[currentIndex]` when the index is in range |
| `Animated.AnimatedText.Tick` | src/components/AnimatedText.tsx:12-18 | the index advances one rotation step, stays in range for non-empty texts, and always equals the rotation after the number of ticks so far |
| `Animated.TypeTick` | src/components/AnimatedText.tsx:38-42 | with characters left, appends exactly `text[currentIndex]` and increments the index; once complete it changes nothing; it keeps display = text[..index] |
| `Animated.TypeTicksShowPrefix` | src/components/AnimatedText.tsx:34-46 | from an empty display, k callbacks show the first min(k, n) of its n characters |
| `Animated.TypingCompletes` | src/components/AnimatedText.tsx:38 | after as many callbacks as the text has characters the display equals the text, and a further callback changes nothing |
| `Animated.TypewriterText.constructor` | src/components/AnimatedText.tsx:34-35 | the display starts empty with index 0 |
| `Animated.TypewriterText.Tick` | src/components/AnimatedText.tsx:39-42 | one callback performs `TypeTick` and keeps display = text[..index] with index at most the text length |
| `Animated.TypewriterText.TypeOut` | src/components/AnimatedText.tsx:37-46 | the chain of effect runs ends with the whole text displayed |
| `Scrolling.ScrollingText.constructor` | src/components/ScrollingText.tsx:10 | the index starts at 0 |
| `Scrolling.ScrollingText.Display` | src/components/ScrollingText.tsx:23 | the shown text is `texts[currentIndex]` when the index is in range |
| `Scrolling.ScrollingText.Tick` | src/components/ScrollingText.tsx:12-18 | the index advances one rotation step and stays in range for non-empty texts |
| `Scrolling.MarqueeText` | src/components/ScrollingText.tsx:44 | the line has length 4n + 9 for a text of length n, with the text at offsets 0, n+3, 2n+6 and 3n+9 and " • " between consecutive copies |
| `Wallet.Resolve` | src/components/ConnectWallet.tsx:25 | a slice index is taken from the end when negative and clamped to [0, n]: past the end gives n, before the start gives 0 |
| `Wallet.Slice` | src/components/ConnectWallet.tsx:25 | slice gives the characters between the resolved bounds, or nothing when they cross |
| `Wallet.FormatAddress` | src/components/ConnectWallet.tsx:24-26 | the first min(6, n) characters, then "...", then the last min(4, n) characters; the length is min(6, n) + 3 + min(4, n) |
| `Wallet.FormatAddressLength` | src/components/ConnectWallet.tsx:25 | any address of ten or more characters shortens to 13 characters, as `addr[..6] + "..." + addr[n-4..]` |
| `Wallet.FormatShortAddress` | src/components/ConnectWallet.tsx:25 | an address shorter than four characters appears whole on both sides |
| `Wallet.View` | src/components/ConnectWallet.tsx:28-76 | the connect button is shown exactly without a user, disabled and reading "Connecting..." exactly while connecting; otherwise the menu shows the shortened address and the "Vault Connected" line exactly when the vault flag is set |
| `Wallet.ViewFollowsSession` | src/components/ConnectWallet.tsx:28-56 | after a disconnect the connect button is back; after a granted connect the menu shows the first account's short form and its vault flag |

## Left out

- I/O is not modelled as behaviour: the MetaMask SDK, `localStorage`, `setTimeout`/`setInterval`, `Math.random`, `new Date()` timestamps and the clipboard. Their results are parameters.
- Concurrency: each handler is one atomic step (`connectWallet` also as two steps around its await). The model does not cover:
  - a restore reply that lands after a connect;
  - a vault answer for an address that has since changed (`CheckVault` uses the current user's address);
  - stale React closures beyond the reply id, which is fixed at send time and recorded in `pending`.
- `Auth.RestoreMirrored` keeps storage mirroring the user only when restore runs before a user exists. A failed restore arriving after a successful connect would remove the stored address of a connected user.
- Wallet session:
  - Restore tests only the first listed account, not membership in the list.
  - `useAuth`'s error outside a provider is React wiring and is not modelled.
- Chat panel:
  - `trim` uses the ECMAScript whitespace set, with category Zs as of current Unicode. Later additions to Zs are not tracked.
  - The insights sidebar is presentation. The quick-action buttons only call `setInputValue`, which `SetInputValue` models.
- Strings are sequences of Unicode characters. JavaScript strings are UTF-16 code units, so lengths and slices differ for characters outside the Basic Multilingual Plane.
- Prop changes after mount are not modelled: a new `texts`, `text`, `interval` or `speed` does not reset the index or the display in the source either.
- Numeric and visual components: `CountingNumber` (floating point), `GlitchText` (timer-driven styling), the rendering markup, animation speeds and the rest of the application (trading, vault management, dashboard and landing pages).

## Findings

| source | as written | input that shows it | evidently intended | confidence | as-written member | corrected member |
|---|---|---|---|---|---|---|
| src/components/AIChat.tsx:280 | the Enter key calls `handleSendMessage`, which checks only that the trimmed input is non-empty; the send button is also disabled while `isTyping` (line 284) | type "a", press Enter, type "b", press Enter before the reply: the second user message gets id 3, the id the first reply was scheduled with, and the log then holds two messages with id 3 (ids are React keys, line 219) | Enter sends only when the send button would be enabled, so the message at position k has id k and ids are unique (`Chat.IdsArePositions`) | medium; not executed | `Chat.EnterWhileTypingDuplicatesId` | `Chat.GuardedSend` |
