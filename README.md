# Pay-per-compare payment gate, in Dafny

Pay-per-compare lets a user run several image, video or speech models on one
prompt and pay for the lot with a single USDC transfer on Avalanche Fuji. The
server is an x402-style payment gate: the browser pays, sends the
transaction hash in the `X-Payment-Tx` header, and the server grants the
request only if that hash string has not been redeemed before, the transaction
succeeded on chain, and one of its ERC-20 `Transfer` events pays the
receiving wallet at least the price. The price comes from per-model tables:
a flat `cost_usd` for video and image models, and a rate per 1000 characters
for speech models.

This project models that gate and the arithmetic around it:

- `payment.dfy` (module `Payment`): the verifier as a class holding the
  replay set. The chain is a class whose receipts are given and whose
  lookups are recorded. A pure function `Decide` states the decision, and
  lemmas prove its properties.
- `provider.dfy` (module `Provider`): the Replicate call is a function
  parameter. This module also holds the shapes it may return and how they
  become URL lists.
- `tts.dfy` and `img2vid.dfy` (modules `Tts`, `Img2Vid`): the registries,
  cost formulas, request dictionaries, single-model runs and batch totals.
- `web3.dfy` (module `Web3`): the browser's side of paying, the chain
  switch, and the request headers. It also holds the lemma that an honest
  client payment passes the server's check.
- `selection.dfy` (module `Selection`) and the three page modules
  (`VideoStudio`, `TtsStudio`, `ImageStudio`): the capped model picker, the
  summed prices, the pay button, the `run` gate and the price-sorted model
  list.

Amounts are exact `real`s. Python's `int()` is modelled as truncation toward
zero (`Common.Trunc`); JavaScript's `Math.ceil` is `Common.Ceil`. A JavaScript
`Set` keeps insertion order, so a selection is a sequence without repeats.

Five points of the code's behaviour are worth stating:

- The server truncates the dollar amount to units (`int(...)`); it does not round.
- Addresses are compared for exact equality after checksum normalisation.
  There is no case-insensitive comparison.
- Within one server process, verifications never interleave. The check is an
  `async` function with no `await`, and its chain calls block, so the replay
  check and the insert run with no other request in between. The model's
  one-at-a-time `Verify` matches a single process.
- The replay set holds the `X-Payment-Tx` header exactly as sent. Hashes are
  not normalised, so the same transaction hash in other letter case is a new
  string to the set. An RPC node reads hex digits in either case, so the gate
  accepts the same payment a second time under that spelling
  (`Payment.CaseVariantNotReplay`).
- The speech page prices a text by its JavaScript `length`, in UTF-16 code
  units. The server prices it by Python's `len`, in characters. A character
  above U+FFFF therefore costs twice as much in the browser as on the server.
  The page never pays less than the server charges, and exactly as much for
  text without such characters.

## Model

| member | source | states |
|---|---|---|
| `Common.Trunc` | x402/payment.py:46 | `int()` on a float truncates toward zero: for x ≥ 0 the result is the floor, for x ≤ 0 the ceiling |
| `Common.Utf16Length` | frontend/paypercompare-simple/app/model/tts/page.tsx:33 | JavaScript's `text.length`: between the number of characters and twice it, and equal to it iff no character is above U+FFFF |
| `Common.Ceil` | frontend/paypercompare-simple/lib/web3.tsx:28 | `Math.ceil`: the least integer not below x |
| `Payment.RequiredUnits` | x402/payment.py:46 | required units are the USD amount times 10^6 truncated: non-negative, at most the exact product and within one unit of it |
| `Payment.Pays` | x402/payment.py:67-69 | a transfer pays when it goes to the receiving wallet and carries at least the required units |
| `Payment.Decide` | x402/payment.py:46-80 | one verification's decision on the replay set and the receipts: a grant returns the hash, and only for an unused hash whose receipt exists with status 1; every refusal is HTTP 402 |
| `Payment.FirstPayment` | x402/payment.py:63-71 | the first transfer in log order that goes to the receiving wallet with value ≥ required; none exists exactly when no transfer pays |
| `Payment.ScanTransfers` | x402/payment.py:63-71 | the `for … break` scan sets the flag exactly when some transfer pays the wallet enough |
| `Payment.Chain.GetTransactionReceipt` | x402/payment.py:51-54 | a lookup returns the receipt or fails (absent hash), and is recorded |
| `Payment.Verifier.Verify` | x402/payment.py:33-80 | the outcome is `Decide` on the replay set before the call; the hash is added only when granted, every rejection leaves the set unchanged; a replayed hash causes no chain lookup, any other hash exactly one |
| `Payment.VerifyTwice` | x402/payment.py:48-80 | two calls with the same hash, one after the other: never both granted; after a grant the second is refused as already used |
| `Payment.GrantedIff` | x402/payment.py:48-80 | access is granted iff the hash is unused, the receipt exists with status 1, and some transfer pays the wallet at least the required units; the grant returns the hash |
| `Payment.ReplayRefusedFirst` | x402/payment.py:48-49 | a hash already used is refused with "Payment hash already used." whatever the chain holds |
| `Payment.MissingReceiptRefused` | x402/payment.py:51-54 | a failed receipt lookup is refused as "Transaction not found." |
| `Payment.FailedStatusRefused` | x402/payment.py:56-57 | a receipt with status ≠ 1 is refused as failed on-chain, whatever transfers it holds |
| `Payment.NoPaymentNamesAmount` | x402/payment.py:73-77 | when no transfer pays, the refusal carries the required USD amount and the required units |
| `Payment.ToReceiver` | x402/payment.py:67 | the transfers to the receiving wallet, and all of them |
| `Payment.OtherRecipientsIgnored` | x402/payment.py:67 | transfers to any other address never change the outcome, at any amount |
| `Payment.MoreValueStillGranted` | x402/payment.py:69 | overpayment is accepted: raising transfer values or adding transfers keeps a grant |
| `Payment.SingleTransferThreshold` | x402/payment.py:69 | with one transfer to the wallet, it is granted iff value ≥ required units, else refused with the amount |
| `Payment.SdxlScenario` | x402/payment.py:46-80 | 0.03 USD is 30000 units; 30000 units to the wallet pass, 29999 do not, status 0 is refused |
| `Payment.CaseVariantNotReplay` | x402/payment.py:48-52 | the replay check compares the header string exactly: after "0xab" is granted, "0xAB" naming the same receipt is granted again |
| `Provider.ItemUrl` | model/img2vid.py:115-124 | the URL of one output item: the string, the file object's `url` (method or attribute), or `str()` of the item |
| `Provider.SingleUrls` | model/tts.py:135-144 | the single-output branch yields exactly one URL: the string, the file's `url`, or `str()` of the output |
| `Provider.Iterate` | model/img2vid.py:114 | iterating the output visits a list's items, each character of a string as a one-character string, in order, and fails on other objects |
| `Provider.CollectUrls` | model/img2vid.py:111-124 | the array branch yields one URL per output item, in order |
| `Provider.ModelRef` | model/tts.py:129 | a non-empty `version` is preferred over `identifier` |
| `Provider.CountsPartition` | model/tts.py:181-182 | successes plus failures equal the number of results |
| `Tts.Models` | model/tts.py:33 | the models a request runs: those it lists, or `["kokoro-82m"]` when it omits the field |
| `Tts.DefaultRequestCost` | model/tts.py:33 | a request that omits `models` is charged kokoro's rate alone: len/1000 × 0.01 |
| `Tts.EstimateTokens` | model/tts.py:59-64 | one token per character: never more than the UTF-16 units a browser counts, and as many when no character is above U+FFFF |
| `Tts.CalculateTtsCost` | model/tts.py:59-78 | unknown model: (0.0, 0); known: tokens = `len(text)`, cost = len/1000 × rate; never negative |
| `Tts.TtsCostMonotone` | model/tts.py:76 | the cost is monotone in the length of the text |
| `Tts.TtsInput` | model/tts.py:103-126 | chatterbox gets `prompt` (the prompt, else the text), others `text`; minimax alone gets its optional keys when set; kokoro alone gets `voice` when given |
| `Tts.BuildTtsInput` | model/tts.py:103-126 | the key-by-key build yields exactly `TtsInput` |
| `Tts.TtsRef` | model/tts.py:129 | every registered speech model has a non-empty reference, its version when it has one, else its identifier |
| `Tts.RunSingleTts` | model/tts.py:80-164 | unknown model: error, no URLs, cost 0, tokens 0; known: charged the computed cost and tokens whether the provider returns (success, one URL) or raises (error, no URL, its message) |
| `Tts.RunTts` | model/tts.py:166-191 | one result per model of `Models(req)` in order, each with its computed cost and tokens, success iff the model is known and the provider returns, one URL on success and none on error; totals: models = results, successful + failed = total, cost = sum of the models' computed costs, tokens = sum over results |
| `Img2Vid.Models` | model/img2vid.py:27 | the models a request runs: those it lists, or `["ltx-video"]`, a text-to-video model, when it omits the field |
| `Img2Vid.DefaultRequestCost` | model/img2vid.py:27 | a request that omits `models` is charged 0.08 dollars |
| `Img2Vid.VideoInput` | model/img2vid.py:69-90 | always `prompt`; `image` only when given and the model is image-to-video; each optional key only when truthy |
| `Img2Vid.BuildVideoInput` | model/img2vid.py:69-90 | the key-by-key build yields exactly `VideoInput` |
| `Img2Vid.VideoRef` | model/img2vid.py:93 | every registered video model has a non-empty reference, its version when it has one, else its identifier |
| `Img2Vid.ModelUrls` | model/img2vid.py:98-124 | a successful run's URLs: exactly one for a "single" model, one per iterated item in order for an "array" model |
| `Img2Vid.Charge` | model/img2vid.py:126-142 | a model is charged its registry cost, or 0.0 when unknown |
| `Img2Vid.RunSingleVideo` | model/img2vid.py:51-142 | unknown model: error, no URLs, cost 0.0; otherwise the charge holds on success and failure; "single" gives exactly one URL, "array" one URL per item in order; a raise gives an error with its message |
| `Img2Vid.RunVideo` | model/img2vid.py:144-167 | one result per model of `Models(req)` in order, each charged its registry cost, succeeding iff the model is known, the provider returns and an array output iterates, with `ModelUrls` on success and no URL on error; successful + failed = total; total cost = sum of result costs = sum of the models' charges, never negative |
| `Web3.FujiHexIsFujiId` | frontend/paypercompare-simple/lib/web3.tsx:20 | the requested hex id `0xa869` is 43113 |
| `Web3.SwitchRequest` | frontend/paypercompare-simple/lib/web3.tsx:15-25 | a chain switch is requested iff the chain id ≠ 43113, and it asks for 43113 |
| `Web3.PayUnits` | frontend/paypercompare-simple/lib/web3.tsx:27-29 | units = ceil(amount × 10^6) when positive, else 1; always ≥ 1 and never below the exact amount |
| `Web3.ClientCoversServer` | frontend/paypercompare-simple/lib/web3.tsx:28 | the client's rounded-up units are ≥ the server's truncated units for the same amount |
| `Web3.PayUsdc` | frontend/paypercompare-simple/lib/web3.tsx:27-34 | the transfer goes to `config.receiver` on `config.contract`, for at least the server's required units |
| `Web3.HonestPaymentGranted` | frontend/paypercompare-simple/lib/web3.tsx:27-33 | a successful transaction holding the transfer `payUSDC` made, under a fresh hash, is granted by the server for the same amount |
| `Web3.GenerateHeaders` | frontend/paypercompare-simple/lib/web3.tsx:47-54 | the request carries the hash under `X-Payment-Tx`, the header the server reads |
| `Selection.Without` | frontend/paypercompare-simple/app/model/video/page.tsx:36 | `Set.delete` removes exactly that key, keeps every other key, and shrinks the set by one; that the others keep their order is `Selection.WithoutKeepsOrder` |
| `Selection.WithoutKeepsOrder` | frontend/paypercompare-simple/app/model/video/page.tsx:36 | deleting a selected key cuts it out of its place: the keys before and after it keep their order |
| `Selection.Toggled` | frontend/paypercompare-simple/app/model/video/page.tsx:33-40 | the key ends up selected iff it was absent and fewer than cap were selected; no other key changes; at cap, an absent key leaves the set unchanged; the size never exceeds the cap |
| `Selection.ToggleTwice` | frontend/paypercompare-simple/app/model/video/page.tsx:33-40 | toggling a key twice restores the selected keys; an absent key restores the exact selection, a present key returns at the end |
| `Selection.Price` | frontend/paypercompare-simple/app/model/video/page.tsx:29 | the listed `cost_usd`, or 0 for a model the page does not know or lists without a price |
| `Selection.SelectionCost` | frontend/paypercompare-simple/app/model/video/page.tsx:29 | the `reduce` over the selection; never negative when no listed price is |
| `Selection.IsBlank` | frontend/paypercompare-simple/app/model/video/page.tsx:57 | `!s.trim()`: the string holds nothing but the characters `trim` removes (ECMAScript white space, every Zs space separator, and the line terminators) |
| `Selection.BlankPrompts` | frontend/paypercompare-simple/app/model/video/page.tsx:57 | a prompt of ideographic and em spaces, a tab and a newline is blank; one visible character makes it not blank |
| `Selection.ToggleCost` | frontend/paypercompare-simple/app/model/video/page.tsx:29 | the summed price drops by the key's price on removal, rises by it on addition, and is unchanged when refused |
| `Selection.ToggleTwiceKeepsCost` | frontend/paypercompare-simple/app/model/image/page.tsx:28 | toggling a key twice restores the summed price |
| `Selection.SortByPrice` | frontend/paypercompare-simple/app/model/video/page.tsx:75 | the keys in non-decreasing price order (missing price counts as 0), a permutation of the input |
| `VideoStudio.Page.Toggle` | frontend/paypercompare-simple/app/model/video/page.tsx:33-41 | the selection becomes `Toggled(…, 4)`, stays distinct and at most 4; the alert appears exactly when an absent key meets a full selection |
| `VideoStudio.Page.Cost` | frontend/paypercompare-simple/app/model/video/page.tsx:65 | the amount `run` pays: the selected models' prices summed, never negative when no price is |
| `VideoStudio.Page.RequiresImage` | frontend/paypercompare-simple/app/model/video/page.tsx:58 | some selected model is listed as image-to-video |
| `VideoStudio.Page.Button` | frontend/paypercompare-simple/app/model/video/page.tsx:27-31 | "Select Models First" iff nothing is selected; the pay label iff something is selected and a wallet is connected, showing the summed price and the count |
| `VideoStudio.Page.Run` | frontend/paypercompare-simple/app/model/video/page.tsx:56-73 | pays iff the prompt is not blank, wallet and config exist, and no image-to-video model is selected without an image; that case is refused with the upload alert; the amount is the summed price |
| `VideoStudio.Page.SortedKeys` | frontend/paypercompare-simple/app/model/video/page.tsx:75 | model keys in non-decreasing `cost_usd` order, a permutation holding exactly the page's models |
| `VideoStudio.PaysServerTotal` | frontend/paypercompare-simple/app/model/video/page.tsx:65 | with the server's prices, the page's summed price equals the server's total charge for the same models |
| `TtsStudio.RateCost` | frontend/paypercompare-simple/app/model/tts/page.tsx:32-33 | one model's share: (UTF-16 length / 1000) × rate for a non-zero rate, else 0; at least the per-character price for a non-negative rate, and 0 for an unknown model |
| `TtsStudio.PageCost` | frontend/paypercompare-simple/app/model/tts/page.tsx:30-34 | the summed shares of the selected models, never negative when no rate is |
| `TtsStudio.DisplayCost` | frontend/paypercompare-simple/app/model/tts/page.tsx:35 | the shown price is at least 0.0001 and at least the price, and equals the price from 0.0001 up |
| `TtsStudio.PageCostMatchesServer` | frontend/paypercompare-simple/app/model/tts/page.tsx:31-34 | with the server's rates and a text without characters above U+FFFF, the page's price equals the sum of the server's `calculate_tts_cost` over the selection |
| `TtsStudio.PagePaysAtLeastServer` | frontend/paypercompare-simple/app/model/tts/page.tsx:62-65 | with the server's rates, for every text, the page pays at least the sum of the server's `calculate_tts_cost` over the selection |
| `TtsStudio.Page.Toggle` | frontend/paypercompare-simple/app/model/tts/page.tsx:39-47 | as the video toggle, with cap 5 |
| `TtsStudio.Page.AccumulateCost` | frontend/paypercompare-simple/app/model/tts/page.tsx:30-34 | the `forEach` accumulates (UTF-16 length/1000) × rate over selected models with a non-zero rate: the result is `PageCost` |
| `TtsStudio.Page.UpdateButton` | frontend/paypercompare-simple/app/model/tts/page.tsx:26-37 | an empty selection is reported before an empty text; the pay label shows the floored price, at least 0.0001 |
| `TtsStudio.Page.Run` | frontend/paypercompare-simple/app/model/tts/page.tsx:54-74 | refused on blank text, no wallet or no config; otherwise pays the raw, unfloored price |
| `TtsStudio.Page.SortedKeys` | frontend/paypercompare-simple/app/model/tts/page.tsx:76 | model keys in non-decreasing `cost_per_1000_tokens` order, a permutation holding exactly the page's models |
| `ImageStudio.Page.Toggle` | frontend/paypercompare-simple/app/model/image/page.tsx:32-40 | as the video toggle, with cap 12 |
| `ImageStudio.Page.Cost` | frontend/paypercompare-simple/app/model/image/page.tsx:53 | the amount `run` pays: the selected models' prices summed, never negative when no price is |
| `ImageStudio.Page.Button` | frontend/paypercompare-simple/app/model/image/page.tsx:26-30 | "Select Models First" iff nothing is selected; otherwise the pay label (with a wallet) shows the summed price and count |
| `ImageStudio.Page.Run` | frontend/paypercompare-simple/app/model/image/page.tsx:47-61 | pays the summed price iff the prompt is not blank and wallet and config exist; else alerts "Enter prompt" |
| `ImageStudio.Page.SortedKeys` | frontend/paypercompare-simple/app/model/image/page.tsx:63 | model keys in non-decreasing `cost_usd` order, a permutation holding exactly the page's models |

## Left out

- Chain access. The RPC client, `get_transaction_receipt` and the ABI decoding by `process_receipt` are abstracted. A receipt is its status and its list of decoded `Transfer` events; which contract emitted each event is not modelled.
- `to_checksum_address`: addresses are strings that are already normalised.
- Several processes. The replay set is an in-memory set that belongs to one server process. Each worker process, and each restart, begins with an empty set, so under several workers a hash can be redeemed once per process. The model has one verifier with one set that persists.
- Floating point. Amounts are exact reals, so IEEE rounding is not reproduced (for example in `0.03 * 10**6` or in summing prices).
- Text formatting. The `NoValidTransfer` rejection carries the dollar amount and units as values, not the formatted detail string. Button labels carry the price, not the `toFixed` text.
- Replicate. `replicate.run` is a function parameter. Being a pure function, it always gives the same answer to the same reference and input. So a request that names a model twice gets identical results for both entries, whereas the real service can fail once and succeed the next time. Exceptions raised anywhere else in the `try` blocks, such as a failing `str()`, are not modelled. The only other modelled exception is iterating a non-list, non-string output under "array" output. Its message is a fixed text, and file objects that Python could iterate are treated as not iterable. `str()` of a list is carried in the output value.
- Selection.SortByPrice: proved sorted and a permutation. The stability that JavaScript's sort also guarantees is not stated.
- Tts.RunTts: states each result's model, cost, tokens, status and URLs, but not its error message; that is stated per model by `Tts.RunSingleTts`.
- Img2Vid.RunVideo: states each result's model, charge, status and URLs, but not its error message; that is stated per model by `Img2Vid.RunSingleVideo`.
- VideoStudio.Page.Run: the posted payload's prompt and image are not part of the plan; only the amount, the endpoint and the models are.
- TtsStudio.Page.Run: the posted payload's text is not part of the plan; only the amount, the endpoint and the models are.
- ImageStudio.Page.Run: the posted payload's prompt is not part of the plan; only the amount, the endpoint and the models are.
- Browser I/O: wallet connection, the signer, `tx.wait`, `fetch`, `FileReader` image upload, alerts other than the ones returned, and all JSX rendering, including the disabled state of the pay buttons.
- `main.py` (FastAPI and CORS wiring), `model/txt2img.py` (a thin wrapper around the provider) and `app/page.tsx` (a static landing page) are not part of this model. The image page's prices therefore have no server table to compare against.
