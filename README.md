# CCIP-Read v2 client: a verified model of the resolution loop

`CCIPReadV2` (`src/CCIPReadV2.ts`) is a contract runner that answers
`eth_call`s needing off-chain data. It follows EIP-3668 ("CCIP Read") and adds
two things of its own:

- the `OffchainTryNext(address sender)` revert, which asks the client to move
  on to the next gateway of the active lookup;
- the `OffchainLookupUnanswered()` selector, which is resubmitted once every
  gateway URL has been tried.

`call(tx0)` does the following:

1. It passes calls without a target, or with off-chain reads disabled,
   straight to the provider.
2. Otherwise it resolves the target to an origin address and makes the
   initial call to it.
3. It then loops. Each round takes the next gateway URL template of the
   active `OffchainLookup`, builds an HTTP request from it and fetches. It
   resubmits the gateway's answer to the origin. When no URL is left it
   resubmits the `UNANSWERED` selector instead.
4. The classified result decides the next step. Bytes end the call. A new
   lookup replaces the active one and resets the cursor. A try-next keeps
   the lookup and the cursor. A lookup or try-next from another address fails
   with "origin != sender". Any other revert is rethrown.

The model has five modules:

- `Signals`: the shared values. These are hex strings, the decoded
  `OffchainLookup` and the constant `UNANSWERED = "0xc584553e"`, which is the
  first four bytes of `keccak256("OffchainLookupUnanswered()")`.
- `CallExecutor`: `_call`, as the pure classifier `Classify` over the
  provider's raw result.
- `GatewayClient`: templating and the HTTP method choice. `BuildRequest` is
  built on `Contains`, `ReplaceAll` and `Split`/`Join`, which model
  JavaScript's `includes`, `replaceAll` and `split`/`join`.
- `Resolution`: the loop. `Round` specifies one pass of the `while (true)`
  body, `Run` specifies the rounds until a stop, and `Resolve` specifies the
  whole call. The class `Resolver` keeps the loop state `lookup` and `index`
  as mutable fields. Its `Step` and `Loop` methods are proved equal to
  `Round` and `Run`, and the method `Call` is proved equal to `Resolve`.
- `ResolutionProperties` and `Scenarios` prove what the loop promises, over
  all inputs and on concrete inputs.

The network is given as oracles: `Network.fetches` holds the successive
gateway answers and `Network.calls` the successive provider results.

- A fetch answer of `None` stands for anything that throws inside the `try`:
  fetch itself, `res.json()`, or `hexlify` of a missing or bad `data`.
- When the loop needs an answer the oracle no longer holds, the outcome is
  `Pending`. The source would still be awaiting at that point. This is how
  the model represents the path on which the source never returns
  (`ExhaustionRepeats`).

Where the code and the usual description of the protocol disagree, the model
follows the code:

- The code sends a template that contains `{data}` as a POST with the JSON
  body `{sender, data}`. Every other template goes with fetch's default
  method and no body. Section "Gateway Interface" of EIP-3668 asks for the
  opposite choice (GET when the URL carries `{data}`).
- `{sender}` is replaced in every template, including one without `{data}`.
  The URL of such a request (the one the usual description calls a POST)
  therefore is not always the unmodified template.
- The sender substituted is the address `resolveAddress` returned, as it is.
  There is no lower-casing.
- After exhaustion, a try-next from the origin does not end the loop: the
  next round resubmits `UNANSWERED` again, once per such answer.
- The HTTP status is never checked. A gateway answer is whatever
  `hexlify(data)` produced from the JSON body.
- The ABI declares `OffchainTryNext(adddres sender)`. The model takes the
  decoder to recognise the evident `OffchainTryNext(address sender)`.

## Model

| member | source | states |
|---|---|---|
| `CallExecutor.Classify` | src/CCIPReadV2.ts:86-103 | The result is bytes exactly when the call returned, and it carries those bytes. It is a new lookup exactly when the error is a call exception with at least 10 characters of data that decodes as `OffchainLookup`. It is a try-next exactly when the same holds for `OffchainTryNext` and the mode allows it. A malformed known error is the decoder's failure. Every other error is rethrown unchanged, and this step never reports an origin mismatch. |
| `CallExecutor.ModeOnlyGatesTryNext` | src/CCIPReadV2.ts:96-101 | The initial and resubmission modes classify every result alike, except that a try-next revert is rethrown unchanged in the initial mode. |
| `CallExecutor.ShortRevertRethrown` | src/CCIPReadV2.ts:93-94 | An error that is not a call exception, or has no data or fewer than 10 characters of it, is rethrown unchanged in both modes. |
| `GatewayClient.BuildRequest` | src/CCIPReadV2.ts:49-58 | The method is POST exactly when the raw template contains `{data}`, and exactly then a body is present. That body is `{sender: origin, data: request}`. |
| `GatewayClient.ReplaceAllIsSplitJoin` | src/CCIPReadV2.ts:57-58 | Replacing every occurrence equals cutting the string at the occurrences and joining the pieces with the replacement. |
| `GatewayClient.SplitJoinRoundTrip` | src/CCIPReadV2.ts:57-58 | Joining the pieces back with the pattern restores the string, so the cut loses only the occurrences. |
| `GatewayClient.SplitPiecesFree` | src/CCIPReadV2.ts:57-58 | No piece left by the cut still contains the pattern, so every occurrence is replaced. |
| `GatewayClient.ReplaceAllAbsent` | src/CCIPReadV2.ts:57-58 | A string without the pattern is left unchanged. |
| `GatewayClient.ReplaceAllSkips` | src/CCIPReadV2.ts:57-58 | Text in which no occurrence starts is copied through unchanged, and replacement continues after it. |
| `GatewayClient.ReplaceAllAtPattern` | src/CCIPReadV2.ts:57-58 | An occurrence at the front is replaced, and the scan resumes right after it with no overlap. |
| `GatewayClient.ContainsSkips` | src/CCIPReadV2.ts:50 | Text in which no occurrence starts does not change whether the template contains the placeholder. |
| `GatewayClient.TemplateSubstitution` | src/CCIPReadV2.ts:57-58 | The URL is the template with every `{data}` replaced by the request, then every `{sender}` replaced by the origin. After each replacement no piece still holds its placeholder. |
| `GatewayClient.TemplateWithoutPlaceholders` | src/CCIPReadV2.ts:49-58 | A template with neither placeholder goes out unmodified, with the default method and no body. |
| `GatewayClient.PlainTemplate` | src/CCIPReadV2.ts:49-58 | A template without any `{` goes out unmodified, with the default method and no body. |
| `GatewayClient.DataTemplate` | src/CCIPReadV2.ts:49-58 | `prefix{data}suffix` is POSTed to `prefix<request>suffix` with the JSON body. |
| `GatewayClient.SenderDataTemplate` | src/CCIPReadV2.ts:49-58 | `prefix{sender}middle{data}suffix` is POSTed to `prefix<origin>middle<request>suffix` with the JSON body. |
| `Resolution.ResubmitTx` | src/CCIPReadV2.ts:68 | The resubmission goes to the origin with the response as data and off-chain reads disabled. Every other field of the caller's transaction is dropped. |
| `Resolution.InitialTx` | src/CCIPReadV2.ts:36-40 | The initial call is the caller's transaction sent to the origin with off-chain reads disabled. All its other fields are kept. |
| `Resolution.Transition` | src/CCIPReadV2.ts:69-74 | The loop goes on exactly when the result is a lookup or a try-next from the origin. Bytes stop it with the answer and an error stops it with that error. A lookup or try-next from another address stops it with "origin != sender". A new lookup resets the cursor to 0. The state stays scoped to the origin. |
| `Resolution.Resubmit` | src/CCIPReadV2.ts:68-74 | A resubmission consumes exactly one provider answer, or none when the oracle is dry and the outcome is pending. It adds one call event per answer consumed and keeps the state scoped. An answer is the bytes the consumed call returned. |
| `Resolution.Round` | src/CCIPReadV2.ts:45-74 | One round keeps the state scoped and records one event per oracle answer consumed. It consumes at least one answer whenever the loop goes on. It uses at most one provider answer, the first, and any answer it stops with came from that call. |
| `Resolution.Run` | src/CCIPReadV2.ts:44-75 | The rounds record no more events than the oracles hold answers. |
| `Resolution.Resolve` | src/CCIPReadV2.ts:33-76 | The whole call records no more events than the oracles hold answers. |
| `Resolution.Resolver.constructor` | src/CCIPReadV2.ts:42-43 | A loop starts on a lookup scoped to the origin, with the cursor at 0 and nothing logged. |
| `Resolution.Resolver.Step` | src/CCIPReadV2.ts:45-74 | Updating `lookup` and `index` in place performs exactly the round `Round` specifies. It returns the same status and remaining oracles, logs the same events and keeps the state scoped. |
| `Resolution.Resolver.Loop` | src/CCIPReadV2.ts:44-75 | The `while (true)` loop over the mutable state produces exactly the outcome and events of `Run`. |
| `Resolution.Call` | src/CCIPReadV2.ts:33-76 | `call` returns exactly the outcome of `Resolve` and performs exactly its events. |
| `ResolutionProperties.CursorAdvances` | src/CCIPReadV2.ts:46-47 | While URLs remain, a round first fetches `urls[index]` and moves the cursor exactly one place on. Only a new lookup from the origin resets it to 0. |
| `ResolutionProperties.FetchFailureSkips` | src/CCIPReadV2.ts:62-64 | A failed fetch ends the round with no resubmission. The provider oracle is untouched and only the cursor moves. |
| `ResolutionProperties.ExhaustionSendsSentinel` | src/CCIPReadV2.ts:65-68 | Once every URL was tried, a round contacts no gateway and resubmits exactly `UNANSWERED`. A try-next from the origin then leaves lookup and cursor as they were. |
| `ResolutionProperties.NewLookupRestartsCursor` | src/CCIPReadV2.ts:71-74 | After a new lookup from the origin in answer to a gateway's data, the next gateway tried is the first URL of the new list. |
| `ResolutionProperties.NewLookupAfterSentinelRestartsCursor` | src/CCIPReadV2.ts:65-74 | After a new lookup from the origin in answer to the `UNANSWERED` sentinel, the next gateway tried is the first URL of the new list. |
| `ResolutionProperties.TryNextKeepsCursor` | src/CCIPReadV2.ts:46-47 | After a try-next from the origin, the next gateway tried is the URL after the one that answered. |
| `ResolutionProperties.RoundThenFetch` | src/CCIPReadV2.ts:44-47 | After a round that goes on with URLs left, the next event is the fetch of the URL at the new cursor. |
| `ResolutionProperties.FailedGatewaysInOrder` | src/CCIPReadV2.ts:46-64 | When gateways fail in a row, the URLs `urls[i..j]` are tried left to right, each once, with no resubmission. The loop then continues from cursor `j` with the remaining answers. |
| `ResolutionProperties.RunAfterFailedFetch` | src/CCIPReadV2.ts:62-64 | A round whose fetch fails is followed directly by the next round, one URL on. |
| `ResolutionProperties.FirstAnswerResubmitted` | src/CCIPReadV2.ts:46-68 | When `urls[i..j]` fail and `urls[j]` answers `d`, the loop's first events are exactly those attempts in order, then one resubmission of `d` to the origin. |
| `ResolutionProperties.AnsweredFetchResubmitted` | src/CCIPReadV2.ts:59-68 | A round whose fetch answers `d` resubmits `d` to the origin before anything else. |
| `ResolutionProperties.ExhaustionRepeats` | src/CCIPReadV2.ts:65-74 | After exhaustion, a contract that keeps answering try-next gets `UNANSWERED` resubmitted once per answer. No gateway is contacted and the loop never stops on its own. |
| `ResolutionProperties.RunCallsOnlyOrigin` | src/CCIPReadV2.ts:68 | Every provider call the loop makes goes to the origin with off-chain reads disabled. |
| `ResolutionProperties.RunAnswerFromContract` | src/CCIPReadV2.ts:69 | The loop's answer is bytes some provider call returned, unchanged. |
| `ResolutionProperties.ResolveAnswerFromContract` | src/CCIPReadV2.ts:33-76 | The call's answer is bytes some provider call returned, unchanged. |
| `ResolutionProperties.PassThrough` | src/CCIPReadV2.ts:34 | Without a target, or with off-chain reads disabled, the provider's result is the call's result after exactly one call of the unchanged transaction. |
| `ResolutionProperties.InitialBytesUnchanged` | src/CCIPReadV2.ts:36-41 | An initial call that returns bytes answers with them unchanged, and no gateway is contacted. |
| `ResolutionProperties.OriginCheckedBeforeFetch` | src/CCIPReadV2.ts:42 | An initial lookup from another address fails with "origin != sender" before any gateway is contacted. |
| `ResolutionProperties.InitialTryNextRethrown` | src/CCIPReadV2.ts:36-41 | A try-next revert in answer to the initial call is rethrown unchanged. |
| `Scenarios.SingleGatewayRoundTrip` | src/CCIPReadV2.ts:33-75 | With one gateway template answering 0x5678 and a resubmission returning 0xcafe, the call answers 0xcafe. It makes exactly one initial call, one gateway attempt and one resubmission of 0x5678. |
| `Scenarios.SingleGatewayRequest` | src/CCIPReadV2.ts:49-58 | `https://g1/{data}` with request 0x1234 is POSTed to `https://g1/0x1234` with the JSON body. |
| `Scenarios.SenderAndDataTemplate` | src/CCIPReadV2.ts:49-58 | `https://x.com/{sender}/{data}.json` is POSTed to `https://x.com/<origin>/<request>.json`. |
| `Scenarios.GatewayOnlyTemplate` | src/CCIPReadV2.ts:49-58 | `https://x.com/gateway` goes out unmodified, with the default method and no body. |

## Left out

- Network I/O is given as oracle sequences: `fetch`, `res.json()`, `hexlify` and `provider.call`. Which gateway failure happened is not distinguished, matching the single `catch` of the source.
- `resolveAddress` (ENS resolution of `tx0.to`) is the parameter `resolved`. Its failure, which would reject the call, is not modelled.
- ABI decoding (`Interface.parseError`) is given as the `decoded` field of a provider error. `isCallException` is given as a flag. The keccak256 of the sentinel's signature is the constant `UNANSWERED`.
- `Resolution.Run`: a resolution that never stops (the `UNANSWERED` and try-next cycle) is cut off by the finite oracles and shows as `Pending`. No infinite trace is modelled.
- JavaScript `replaceAll` treats `$` sequences in the replacement string specially. The model substitutes the replacement literally; hex requests and addresses contain no `$`.
- The JSON serialisation of the POST body and the JSON parsing of the answer are left out. The body is the pair `{sender, data}`.
- The `async`/`await` machinery is left out, and so is the `ContractRunner` interface beyond `call`.
- Transaction fields other than `to`, `data` and `enableCcipRead` are one opaque map (`others`). Their individual meaning (from, value, blockTag, ...) is not modelled.
- test/test.ts is not part of this model. It exercises a live deployment over the network.
