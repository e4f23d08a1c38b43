# SafePay core, modelled in Dafny

SafePay is a payment API. Wallet holders are addressed by aliases such as
`@alice`. A user types a payment in plain words, a parser turns it into a
payment intent, and `execute_payment` resolves the recipients and calls a
settlement rail. Every settled payment is written to a ledger.

This project models the parts of SafePay that are sequential logic over
dictionaries, lists and strings:

- **The alias directory** (`InMemoryStorage` with `AliasService` in `main.py`):
  - the alias→address and address→alias dictionaries, plus per-alias metadata;
  - `register`, `resolve`, `get_alias` and `delete`.

  `Storage.Store` is a class whose invariant `Valid()` says that the two
  dictionaries are exact inverses. Every operation that changes the
  directory keeps that invariant.
- **The ledger** (`TransactionService`):
  - `log` appends one record and indexes it;
  - `get_transaction` looks a record up by its key;
  - `get_history` filters, sorts newest first (a stable insertion sort) and
    slices with Python's slice rules.
- **Payment dispatch** (`execute_payment`). Modules `Dispatch` and `Routes`:
  - `PlanPayment` is the pure decision: reject with a 401, 404 or 400, raise
    `KeyError`, or call the rail;
  - the methods carry that decision out on the store;
  - the rail is a function parameter;
  - the routes around execution (alias lookup, reverse lookup, delete,
    history, transaction, subscriptions) are modelled too.
- **Canonicalisation** (`utils.py`): `normalize_address` in both modes and
  `is_valid_alias`, including the trailing newline that Python's `$`
  accepts.
- **The simulated Circle rail** (`circle_service.py`): the mock wallet
  table and the simulation branch of `initiate_transfer`.
- **The Arc blockchain service** (`blockchain_service.py`):
  - the mapping of a Circle result onto a payment result;
  - the explorer URL;
  - the subscription record;
  - the split result.
- **The mock blockchain service in `main.py`**: the `BlockchainService`
  that `execute_payment` actually calls.
- **The two keyword parsers**: `MockAIAgent` in `main.py` and
  `MockAIParser` with its alias and confidence helpers in `agent.py`. The
  amount and the alias names that their regular expressions extract are
  inputs.

`Pipeline` joins a parser to `execute_payment`. It shows which typed
commands end in a payment: every parsed single payment, subscription and
split of `MockAIAgent` does when its recipients are registered. No
subscription parsed by `MockAIParser` does, because its schedule has no
`start_date`.

Python's behaviour is written out where it matters:
- `str.lower` on ASCII;
- `str.strip` with `isspace`;
- `lstrip('@')`;
- slicing with negative bounds;
- string order for the timestamp sort, and the stable sort;
- the `'key'` text of a `KeyError`;
- truthiness of `0.0`, `""` and `None`.

Points where the code may surprise a reader; the model does the same:
- aliases are stored with their `@`;
- demo addresses are stored in mixed case;
- `normalize_address` does not check the shape of an address;
- no signature is verified;
- `intent_id` is never read, so nothing is idempotent;
- no split recipient's `amount` or `percentage` is read by `execute_payment` or by the mock `split_payment`, which reports only the recipient count and the total;
- `delete` checks no owner.

## Model

| member | source | states |
|---|---|---|
| Utils.NormalizeAddress | utils.py:4-15 | A non-string gives `""`. Address mode gives exactly the lowercased, trimmed string. An alias-mode result never starts with `@`. Neither mode lengthens its input. |
| Utils.NormalizedHasNoCapitals | utils.py:12-15 | Neither mode leaves an ASCII capital in its result. |
| Utils.AddressModeIdempotent | utils.py:15 | Normalising an address twice gives the same result as normalising it once. |
| Utils.CanonicalFixed | utils.py:15 | A trimmed string without capitals is a fixed point of address mode. |
| Utils.AliasModeNotIdempotent | utils.py:13 | `"@ " + w` normalises to `" " + w`, and normalising that again gives `w`, so alias mode is not idempotent. |
| Utils.AliasModeSteps | utils.py:13 | Alias mode is strip, then lower, then removal of every leading `@`. |
| Utils.IsValidAlias | utils.py:17-20 | True exactly when the grammar holds: `@`, then 3–20 characters of `[A-Za-z0-9_]`, then optionally one `"\n"` (Python's `$`). |
| Utils.AliasRun | utils.py:19 | The greedy `{3,20}` run: it stays within the cap and the string, and stops only at the cap, the end or a non-word character. |
| Utils.AliasMatcherCorrect | utils.py:19-20 | The greedy match followed by the `$` test succeeds exactly when the grammar holds. |
| Utils.ValidAliasNormalizes | utils.py:13-20 | The alias-mode normal form of a valid alias is 3–20 characters over `[a-z0-9_]`. |
| PyText.Lower | utils.py:13 | Same length, and every character lowered as ASCII `str.lower` does. |
| PyText.Strip | utils.py:13 | The result has no whitespace at either end and is a contiguous part of the input. |
| PyText.StripShape | utils.py:13 | `strip` removes only whitespace, and only at the two ends. |
| PyText.LStripChar | utils.py:13 | `lstrip('@')` removes every leading `@`, and only those. |
| PyText.Slice | main.py:352 | Python's `s[a:b]`: both bounds are clamped as Python does (negative ones counted from the end), and the result holds exactly the characters between them, in order. |
| PyText.StrLessTransitive | main.py:349 | The string order that the timestamp sort uses is transitive. |
| PyText.StrLessTotal | main.py:349 | Any two distinct strings are ordered one way or the other. |
| CircleService.IsReal | circle_service.py:24 | Real mode holds exactly when both the API key and the entity id are non-empty. |
| CircleService.DemoWallet | circle_service.py:50-55 | A demo wallet id is `"wal_mock_"` plus the alias without its first character. The wallet keeps the mixed-case address and the alias, and is active. |
| CircleService.WalletTable | circle_service.py:47-55 | The keys of the table are exactly the lowercased owner addresses. |
| CircleService.WalletTableHolds | circle_service.py:47-55 | When the lowercased addresses are distinct, each owner's wallet is found under its lowercased address. |
| CircleService.DemoWalletsPresent | circle_service.py:41-55 | `@alice` and `@bob` have wallets under their lowercased addresses. |
| CircleService.Circle.constructor | circle_service.py:20-39 | Stores the credentials and sets `isReal`. In simulation mode the table is the demo table; in real mode it is empty. |
| CircleService.Circle.InitDemoWallets | circle_service.py:41-55 | The loop fills the table with exactly the demo wallets. |
| CircleService.Circle.GetWalletByAddress | circle_service.py:57-62 | Simulation mode looks up the lowercased address; real mode never finds a wallet. |
| CircleService.Circle.InitiateTransfer | circle_service.py:97-109 | In simulation mode it fails with the "origin wallet not found" message exactly when the source address has no wallet; recipient and amount are not checked. A success is `"confirmed"`, has a hash starting `"0xCircleMockTx"` and an id starting `"mock_tx_"`. The table is only read. |
| ArcChain.ExplorerUrl | blockchain_service.py:44-45 | The URL is the explorer base, `"/tx/"` and the hash. |
| ArcChain.ExplorerUrlInjective | blockchain_service.py:44-45 | Different hashes give different explorer URLs. |
| ArcChain.SendPayment | blockchain_service.py:48-76 | No Circle service gives the fixed "unavailable" failure. A success carries Circle's hash and status `"confirmed"`, whatever Circle reported, plus the explorer URL of that hash and the current time. A failure carries `"Circle Execution Failed: "` and Circle's error. Circle is called with from, to, amount and memo only. |
| ArcChain.SendPaymentIgnoresCurrencyAndSignature | blockchain_service.py:59-64 | Currency and signature do not affect the result. |
| ArcChain.CreateSubscription | blockchain_service.py:80-99 | Exactly one subscription entry is set: the returned id, `"active"`, the given parties, amount, frequency and start date. The hash is `"0x"` and the uuid hex, with its explorer URL. |
| ArcChain.SplitPayment | blockchain_service.py:101-109 | The recipient count is the number of recipients, the total is passed through, the status is `"confirmed"` and the hash has its explorer URL. |
| Storage.SubscriptionId | main.py:266-268 | `"sub_"` and at most the first 16 characters of the digest. |
| Storage.AliasMapOf | main.py:137-138 | Its keys are exactly the aliases of the inserted pairs. |
| Storage.AddressMapOf | main.py:137-139 | Its keys are exactly the addresses of the inserted pairs. |
| Storage.InverseInsert | main.py:177-178 | Writing a fresh alias and a fresh address together keeps the two dictionaries inverse. |
| Storage.InverseRemove | main.py:216-218 | Deleting an alias and its address keeps the two dictionaries inverse. |
| Storage.PairMapsInverse | main.py:137-139 | Inserting distinct pairs in order yields two inverse dictionaries. |
| Storage.PairMapsHold | main.py:137-139 | With distinct pairs, each demo alias maps to its own address and each address back to its own alias. |
| Storage.AliasMapHolds | main.py:138 | With distinct pairs, each alias maps to the address it was inserted with. |
| Storage.AddressMapHolds | main.py:139 | With distinct pairs, each address maps back to the alias it was inserted with. |
| Storage.DemoAliasesDistinct | main.py:130-135 | No alias and no address appears twice among the four demo pairs. |
| Storage.Store.constructor | main.py:106-126 | The transaction and subscription tables start empty. The directory holds the four demo aliases, inverse in both directions, with unsigned metadata. |
| Storage.Store.InitDemoData | main.py:128-143 | The loop writes each demo pair into both dictionaries and the metadata, and the result is inverse. |
| AliasService.RegisterConflict | main.py:161-174 | An existing alias is reported before an aliased address. No conflict exactly when both are free. |
| AliasService.Register | main.py:156-190 | Alias and address are lowercased. On a conflict, nothing changes. Otherwise both directions and the signed metadata are written together. The directory stays inverse. |
| AliasService.ResolveKey | main.py:195-197 | The key is lowercased and starts with `@`; an `@` is added only when missing. |
| AliasService.ResolveKeyAddsAt | main.py:195-197 | `"Alice"` and `"@ALICE"` resolve to the same key. |
| AliasService.Resolve | main.py:193-202 | Returns the stored address for the key. A non-empty hit stamps only that alias's `last_used`. The dictionaries never change. |
| AliasService.GetAlias | main.py:205-207 | A lookup of the lowercased address. A hit is an alias that maps back to that address. |
| AliasService.DemoAddressesHiddenFromGetAlias | main.py:205-207 | The demo addresses are stored in mixed case, so `get_alias` finds none of them in any case. |
| AliasService.LowerMissesCapitals | main.py:207 | A lowercased argument never equals a key that holds a capital. |
| AliasService.Delete | main.py:210-221 | An unknown alias returns false and changes nothing. A known one is removed from both dictionaries and the metadata. The directory stays inverse. |
| Ledger.TxId | main.py:317-319 | `"tx_"` and at most the first 16 characters of the digest. |
| Ledger.IndexKey | main.py:328 | The index key is the transaction hash when present, else the id. |
| Ledger.Log | main.py:315-330 | Appends exactly one record (fresh id, clock, given data) at the end and indexes it under its key. Earlier records and other index entries stay as they were. |
| Ledger.GetTransaction | main.py:364-366 | Found exactly when the key is indexed, and then it is the record indexed under that key, which is always a logged record. |
| Ledger.Matching | main.py:342-346 | Exactly the logged records whose lowercased from or to address is the lowercased address. |
| Ledger.MatchingAppend | main.py:342-346 | A new record joins, at the end, exactly the histories of the addresses it involves. |
| Ledger.InsertDesc | main.py:349 | Inserting adds exactly the one record. |
| Ledger.InsertDescSorted | main.py:349 | Inserting into a newest-first list keeps it newest first. |
| Ledger.SortByTimestampDesc | main.py:349 | The sort is a permutation of its input. |
| Ledger.SortByTimestampDescSorted | main.py:349 | The sorted list is newest first. |
| Ledger.InsertDescKeepsTies | main.py:349 | Inserting a record puts it ahead of the records with its timestamp and keeps theirs in order. |
| Ledger.SortKeepsTiesInOrder | main.py:349 | The sort is stable: records with equal timestamps come out in their log order. |
| Ledger.SliceSorted | main.py:352 | A slice of a newest-first list is newest first. |
| Ledger.PageBound | main.py:352 | With a non-negative offset and limit, a page holds exactly `min(limit, total - offset)` items, or none when the offset is past the end. |
| Ledger.GetHistory | main.py:332-361 | The total is the number of matches. The page is exactly Python's slice `[offset:offset+limit]` of the matching records sorted newest first. With a non-negative offset and limit its count is `min(limit, total - offset)`, or 0 past the end. |
| MockChain.TxHash | main.py:226-231 | `"0x"` and the digest. |
| MockChain.SendPayment | main.py:233-253 | Always confirmed, block 12345678, gas `"21000"`, with a fresh hash and the clock. |
| MockChain.CreateSubscription | main.py:255-289 | Exactly one active subscription with the given fields is written under `"sub_"` and the digest prefix. The reply is active. |
| MockChain.SplitPayment | main.py:291-309 | The recipient count is the number of recipients, the total is passed through, and the payment is confirmed. |
| MockChain.Perform | main.py:226-309 | Calls the rail operation named by the call. Only a subscription writes to the subscription table, and it writes one entry. |
| Intents.ShowAmount | main.py:440 | An f-string prints a missing amount as `None`. |
| Intents.AmountValue | main.py:433 | A missing amount becomes JSON `null`; a present one is kept. |
| Dispatch.KeyErr | main.py:778-784 | The text of a `KeyError` is the key in single quotes. |
| Dispatch.Lookup | main.py:199-200 | A recipient resolves exactly when its key is mapped to a non-empty address. |
| Dispatch.ResolveAll | main.py:733-743 | Never resolves more recipients than were given. A failure is either the `KeyError` on `'alias'` or a 404 `recipient_not_found`. |
| Dispatch.ResolveAllSound | main.py:733-743 | Resolved recipients keep their order and their resolved addresses. Resolution stops at the first recipient without an alias (`KeyError`) or without an address (404 naming it). |
| Dispatch.ResolveAllSucceedsIff | main.py:733-743 | A split resolves exactly when every recipient has an alias that resolves. |
| Dispatch.StampedKeysAppend | main.py:736 | Each resolved recipient adds its key to the set of stamped aliases. |
| Dispatch.PlanSingle | main.py:652-693 | A single payment goes through exactly when its alias resolves and the amount is present; a resolved alias is stamped whatever follows. Refusals come in the source's order: `KeyError` on `'recipient'`, then on `'alias'`, then a 404 naming an unresolved alias, then `KeyError` on `'amount'`. A success sends from the body's address to the resolved address, with the amount, the currency (`"ARC"` by default), memo and signature. |
| Dispatch.PlanSubscription | main.py:695-729 | A subscription goes through exactly when its alias resolves and amount, frequency and start date are present. Refusals come in the source's order: `KeyError` on `'recipient'`, `'alias'`, then a 404 `"Recipient not found"`, then `KeyError` on `'amount'`, `'subscription'`, `'frequency'` and `'start_date'`. A success subscribes from the body's address to the resolved address with that amount and schedule. |
| Dispatch.PlanSplit | main.py:731-768 | No recipients list is a `KeyError` on `'recipients'`. Otherwise every resolved recipient is stamped and the first resolution failure is the result; when all resolve, a missing amount is a `KeyError` on `'amount'`, and otherwise the split goes through carrying the resolved recipients. |
| Dispatch.PlanPayment | main.py:632-784 | A rail call's kind matches the payment type (send for single, subscribe for subscription, split for split). Every rejection is a 400, 401 or 404. A raised `KeyError` needs matching addresses and a known type. |
| Dispatch.LedgerEntry | main.py:673-683 | The logged record always carries the caller, the rail's hash and the amount. A single payment adds its payee, currency and memo with status `"success"`; a subscription its payee with status `"active"` and no currency or memo; a split goes to `"multiple"` with status `"success"`. |
| Dispatch.Confirmation | main.py:685-692 | A successful `arc` response with the rail's hash and the time, no error, the amount (the total for a split), and sender and recipient exactly for a single payment. |
| Dispatch.MismatchComesFirst | main.py:641-645 | A header/body address mismatch is a 401, whatever the payment type or intent. Nothing is resolved. |
| Dispatch.UnknownTypeRejected | main.py:770-774 | With matching addresses, any other payment type is a 400. |
| Dispatch.CallsComeFromTheUser | main.py:641-751 | A rail call happens only with matching addresses and a known type, and always pays from the body's address. |
| Dispatch.RecipientResolved | main.py:652-712 | A single or subscription call pays the address its recipient resolves to. |
| Dispatch.SplitRecipientsResolved | main.py:731-751 | A split call carries every recipient, in order, with its resolved address. |
| Dispatch.UnresolvedRecipientStopsSplit | main.py:734-741 | One unresolved recipient stops the whole split before any rail call. |
| Dispatch.StampedAfterResolve | main.py:200-201 | Each resolve adds at most its own key to the stamped aliases. |
| Dispatch.Settle | main.py:664-768 | One rail call and one ledger record: the call's parties, amount, type and status, under the rail's hash. The response carries that hash. |
| Dispatch.ExecuteSingle | main.py:652-693 | Carries out the single-payment plan: the recipient is resolved; a refusal leaves the ledger untouched and calls nothing; a success logs one record with status `"success"`. |
| Dispatch.ExecuteSubscription | main.py:695-729 | Carries out the subscription plan: same as single, but with status `"active"`. A missing `subscription` or `start_date` is a `KeyError` raised after the resolve. |
| Dispatch.ResolveRecipients | main.py:733-743 | The loop resolves recipients in order and stops at the first failure. It returns what `ResolveAll` returns and stamps only the aliases it resolved. |
| Dispatch.ExecuteSplit | main.py:731-768 | Carries out the split plan: nothing reaches the rail unless every recipient resolves; one record goes to `"multiple"`. |
| Dispatch.ExecutePayment | main.py:632-784 | Returns the outcome of `PlanPayment` on the directory before the call. It makes exactly one rail call and one ledger record on success, and none otherwise. Only the aliases it resolved are stamped. |
| Dispatch.MockRail | main.py:226-231 | On `main.py`'s mock service every call returns the generated hash. |
| Dispatch.ExecuteOnMockRail | main.py:632-784 | `execute_payment` wired to the mock service. Exactly one subscription is stored exactly when the plan is a subscription call. |
| Routes.WithAt | main.py:588-589 | Puts `@` in front of the path alias unless it is already there. |
| Routes.WithAtKeepsKey | main.py:588-591 | Adding the `@` does not change which alias is resolved. |
| Routes.GetAliasRoute | main.py:585-598 | A 404 `alias_not_found` naming the alias exactly when no non-empty address is stored; otherwise the alias with its address. Both dictionaries are unchanged; on success only the resolved alias's `last_used` is stamped, every other metadata entry is unchanged. |
| Routes.GetAddressAliasRoute | main.py:600-604 | Echoes the address and gives the alias mapped to its lowercased form, or `None`. |
| Routes.DeleteAliasRoute | main.py:606-619 | A 404 for an unknown alias, and nothing changes, metadata included. Otherwise the alias is deleted from both directions and from the metadata, and `"Alias @x deleted"` is returned. The signature is not checked. |
| Routes.ClampAsWritten | main.py:790-791 | The route lowers a limit above 100 to 100 and keeps every other limit, negative ones included. |
| Routes.HistoryRouteAsWritten | main.py:787-794 | The history route as written: a limit above 100 becomes exactly 100 and every other limit is kept, and the page is the slice of the address's records, newest first, from `offset` to `offset + limit`. |
| Routes.NegativeLimitExceedsCap | main.py:790-793 | With at least 102 matches, `limit=-1` returns a page of more than 100 records. |
| Routes.ClampLimit | main.py:790-791 | The intended clamp puts every limit into 0..100. |
| Routes.HistoryRoute | main.py:787-794 | With the intended clamp, no page exceeds 100. The page is the slice of the address's records sorted newest first, and with a non-negative offset its count is `min(limit, total - offset)`, or 0 past the end. |
| Routes.GetTransactionRoute | main.py:796-805 | A 404 `transaction_not_found` exactly when the key is not indexed; otherwise the logged record. |
| Routes.ActiveSubscriptions | main.py:811-814 | Exactly the active subscriptions whose payer matches the address, case-insensitively. |
| Routes.GetSubscriptionsRoute | main.py:808-815 | The count is the number of listed subscriptions, and they are the active ones of the address. |
| Routes.NewSubscriptionListed | main.py:811-814 | A newly created subscription shows up in its payer's list, and the others are unchanged. |
| MockAgent.CurrencyOf | main.py:382-386 | `"arc"` in the text gives ARC before `"eth"` gives ETH; otherwise USD. |
| MockAgent.RouteOf | main.py:393-398 | Split on `"split"` or `"divide"`; otherwise subscription on `"every"`, `"monthly"` or `"subscription"`; otherwise single. |
| MockAgent.MemoOf | main.py:423-427 | A memo exactly when the lowered text contains `"for"`; it is the trimmed text after the first `"for"`. |
| MockAgent.ParseSingle | main.py:400-441 | `missing_amount` (for a missing or zero amount) is reported before `missing_recipient`, both with confidence 0.3 and an empty intent. A success sends to the alias with confidence 0.92. |
| MockAgent.FrequencyOf | main.py:447-453 | Weekly exactly when the text says `"weekly"`; daily when it says `"daily"` but not weekly; yearly when it says `"yearly"` but neither of those; monthly otherwise. |
| MockAgent.ParseSubscription | main.py:443-472 | Always parses, with confidence 0.88, the frequency found and the clock as `start_date`, even without an amount or an alias. |
| MockAgent.AtRecipients | main.py:492-495 | One `@`-prefixed recipient per name, in order. |
| MockAgent.ParseSplit | main.py:474-508 | Fewer than two names gives `insufficient_recipients` at 0.4. Two or more names without an amount raise the `None / int` `TypeError`. Otherwise every name becomes a recipient, with confidence 0.85. |
| MockAgent.ParsePayment | main.py:372-398 | `"split"` or `"divide"` routes to the split parser, else `"every"`, `"monthly"` or `"subscription"` to the subscription parser, else single; the payment type names that route. Only a split with two or more names and no amount raises. Currency is ARC, else ETH, else USD by keyword; a single or subscription pays the first `@` name. |
| MockAgent.MissingAmountReportedFirst | main.py:404-411 | A single payment without an amount reports `missing_amount`, even when no alias was found. |
| MockAgent.SingleNamesFirstAlias | main.py:429-441 | A single payment goes to `"@"` plus the first name found. |
| Agent.IsValidAlias | agent.py:152-155 | The same grammar as `utils.is_valid_alias`. |
| Agent.Penalised | agent.py:147 | The confidence less 0.2 when it is at least 0.2, else 0 (a missing confidence counts as 0). |
| Agent.EnhancedConfidence | agent.py:144-147 | The penalty applies exactly when a recipient alias is present, non-empty and invalid. |
| Agent.EnhancedConfirmation | agent.py:148-149 | A missing or empty confirmation text becomes `"Confirm payment?"`; any other is kept. |
| Agent.ConfidenceStaysInRange | agent.py:144-147 | A confidence in [0, 1] stays in [0, 1] and never rises. |
| Agent.ValidAliasKeepsConfidence | agent.py:144-147 | A valid recipient alias leaves the confidence unchanged. |
| Agent.ConfirmationSettles | agent.py:148-149 | After enhancement the text is non-empty, and enhancing again changes nothing. |
| Agent.Reply.ValidateAndEnhance | agent.py:143-150 | Updates only the confidence and the confirmation text in place, as the two functions above say. |
| Agent.ErrorResponse | agent.py:157-165 | Payment type `None`, an empty intent, confidence 0.0, no confirmation, and the given code, message and suggestions. |
| Agent.ParseSingle | agent.py:180-192 | `missing_info` at 0.3 exactly when the amount is missing or zero or no name was found. Otherwise it sends to `"@"` plus the first name, with confidence 0.85 and memo `"Mocked payment"`. |
| Agent.ParseSubscription | agent.py:194-204 | `"@"` plus the first name, or `"@recipient"`; always monthly, with no start date; confidence 0.80. |
| Agent.ParseSplit | agent.py:206-215 | One `"@"` recipient per name, in order; confidence 0.78. |
| Agent.ParsePayment | agent.py:168-178 | Split exactly when the text says `"split"` or names more than one alias; otherwise subscription exactly on `"every"` or `"monthly"`; otherwise single. Every successful intent is in USD. |
| Pipeline.MockSinglePaysFirstAlias | main.py:632-693 | A single payment parsed by `MockAIAgent`, with an amount and a registered first alias, is paid to that alias's address. |
| Pipeline.MockSubscriptionGoesThrough | main.py:695-729 | A parsed subscription to a registered alias is executed, even when the amount is `null`. |
| Pipeline.MockSplitPaysEveryone | main.py:731-768 | A parsed split over registered aliases calls the rail with every recipient resolved, in order. |
| Pipeline.AgentSubscriptionNeverExecutes | agent.py:194-204 | A `MockAIParser` subscription never executes: it ends in a 404 or in a `KeyError` on `'start_date'`. |

## Left out

- HTTP plumbing: the FastAPI app, CORS, lifespan, the exception handlers, the response envelopes and the `/`, `/health`, `/alias/register` and `/process_command` wrappers are not modelled. The `AliasRegistration` validators and pydantic's bounds on `confidence` are not modelled either.
- Hashing, uuids and the clock: SHA-256 digests, uuid hex and `utcnow` timestamps are parameters. `Dispatch.ExecutePayment` takes one clock value per request, where the source reads the clock several times.
- Floating point: amounts and confidences are reals. How Python prints a float is a `show` parameter. The equal split's `per_person` and `percentage` (main.py:491-495) are not computed.
- Regular-expression extraction: the amount and the alias names that `re.search` and `re.findall` find are inputs.
- Intents.IntentData: JSON `null` and an absent key are the same `None` for every intent field except `amount`. A `null` recipient gives the `KeyError` message where Python raises a `TypeError` (`None["alias"]`). A `null` alias gives the `KeyError` message where Python raises an `AttributeError` (`None.lower()` in `resolve`, main.py:195). A `null` currency is logged as `"ARC"` where Python logs `None`.
- Dispatch.PlanSubscription: a `null` frequency or start date is refused with the `KeyError` message, where Python passes `None` on, stores it in the subscription record, logs the payment and answers with success.
- PyText.Lower: ASCII only. Python lowercases other letters as well.
- The `payment_intents` and `users` tables of `InMemoryStorage` are never read or written by the core, so they are not modelled.
- Routes.GetSubscriptionsRoute: the subscriptions are a map from id to record. The order of the JSON list, which is dictionary insertion order, is not modelled.
- The `_metadata` keys that `MockAIParser` and `RealAIAgent` add are not modelled.
- Async: every handler runs to completion before the next one starts. Concurrent requests are not modelled.
- Ledger.Log: `**tx_data` could overwrite `id` and `timestamp` if the data carried those keys. The records the core logs never do, so the model puts them in front.
- Dispatch.ResolveRecipients: the source writes `"address"` into each recipient dictionary of the request. The model builds a new list of resolved recipients and leaves the request unchanged.
- Dispatch.Settle: only the hash of the rail's reply is used, which is all that `execute_payment` reads.
- Dispatch.ExecutePayment: the `X-Signature` header is never read and is not a parameter. The signature in the body is passed to the rail and never checked. `intent_id` is never read, so nothing is idempotent.
- CircleService.Circle.InitiateTransfer: real mode, which is the HTTP call to Circle, is a reply parameter.
- CircleService and ArcChain: the defaults read from environment variables are constants. The Web3 connection and the checksum address are not modelled.
- Dispatch.ResolveAll: its own contract states the bound on the number resolved and that a failure is the `KeyError` on `'alias'` or a 404 `recipient_not_found`. Order, addresses and the stopping point are in `Dispatch.ResolveAllSound`.
- Dispatch.ExecuteOnMockRail: the mock's subscription record is written after the ledger record, where `execute_payment` subscribes (main.py:705) before it logs (main.py:714). The two writes touch different tables, so the final state is the same.

## Findings

| source | as written | input that shows it | evidently intended | confidence | as-written member | corrected member |
|---|---|---|---|---|---|---|
| main.py:790-791 | The history route lowers `limit` only when it is above 100. A negative limit reaches `user_txs[offset:offset + limit]`, where Python counts it from the end. | `GET /history/{a}?limit=-1` when 102 or more records involve `a` returns all but the last one (at least 101), more than the cap of 100 | every page holds at most 100 records (limit clamped into 0..100) | not executed | Routes.NegativeLimitExceedsCap (over Routes.HistoryRouteAsWritten) | Routes.HistoryRoute (with Routes.ClampLimit) |
