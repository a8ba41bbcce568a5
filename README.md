# FTS3 scheduling, delegation and option-handling core in Dafny

This project models the core of FTS3, the CERN File Transfer Service, and proves properties about it. The model covers seven parts:

- **Scheduler pass** of the transfer service (`TransfersService.cpp`, module `Scheduler`):
  - `executeUrlcopy` fails the transfers of unschedulable queues, then splits the schedulable queue list into at most four contiguous slices, one worker each.
  - `getFiles` pulls the ready transfers of its queues round-robin over the VOs through a `TransferFileHandler`. It skips malformed records, fetches each `(credId, userDn)` proxy once, and starts url-copy executors until the `MaxUrlCopyProcesses` throttle trips.
  - `failUnschedulable` turns every ready transfer of an unschedulable queue into one FAILED status message.
- **Transfer record** of the url-copy worker (`transfer.h`, module `UrlTransfer`): the checksum split, decoding a bulk-file line into seven positional fields, and building a record from the command-line options.
- **Delegation handler** (`GSoapDelegationHandler.cpp`, module `Delegation`):
  - delegation-id validation;
  - the hex id derived from the SHA-1 digest of the client's DN and attributes;
  - the FQAN string;
  - the transitions of the two database tables keyed by `(delegationId, dn)`: the certificate-request cache and the delegated-credential store.
- **Worker option parser** (`args.cpp`, module `UrlCopyArgs`): the `UrlCopyOpts` defaults, and the option switch of `parse` with its numeric-conversion error path.
- **Client message shaping** (`MsgPrinter.cpp`, module `MsgPrinting`): the verbose/JSON gating of the `delegation_*` printers, `error_msg`, and the fault-string splitting of `gsoap_error_msg`. Output is a list of text lines plus a key/value JSON tree.
- **Monitoring helpers** (`overview.py`, module `Overview`): the per-engine SQL fragments, the pair-limit fold, the de-duplicating triplet generator, `current` defaulting and the summary sums.
- **Job-state codes** (`JobStatusHandler.h`, module `JobStatus`): the enum values and their sign classification.

Two modules support the rest:

- `Text` models the library routines the core relies on: `boost::lexical_cast` to `int`, `long long` and `unsigned`; `boost::tokenizer` with a space separator; `std::string::find`.
- `Wrappers` holds `Option` and `Result`.

Database queries, the process table, the proxy lookup, the message producer, certificate handling and the SHA-1 digest are outside the model. Their results are parameters of the operations that use them:

- `getReadyTransfers`, `getProxyFile`, `initialCount` (the `fts_url_copy` process count) and `maxUrlCopy` in `Scheduler`;
- `digest`, `generated`, `termination` and `addKey` in `Delegation`;
- `isDouble` in `UrlTransfer`.

## Model

| member | source | states |
|---|---|---|
| Scheduler.TransfersService.ExecuteUrlcopy | src/server/services/transfers/TransfersService.cpp:231-299 | one FAILED message per ready transfer of the unschedulable queues, in VO-then-list order; the workers are the non-empty halving slices split_11, split_21, split_12, split_22 in that order, at most four, and concatenate back to the queue list; no worker for no queues, and exactly one worker holding the whole list for a single queue |
| Scheduler.Slices | src/server/services/transfers/TransfersService.cpp:253-263 | the four slices split_11, split_21, split_12, split_22 concatenate to the input, with the sizes of the two integer halvings |
| Scheduler.DispatchedSlicesPartition | src/server/services/transfers/TransfersService.cpp:246-277 | the slices that get a worker, in creation order, concatenate to exactly the queue list |
| Scheduler.SliceCounts | src/server/services/transfers/TransfersService.cpp:266-277 | with 2 or 3 queues split_11 is empty and only 2 or 3 workers start; with 4 or more queues exactly 4 start |
| Scheduler.DispatchedSlices | src/server/services/transfers/TransfersService.cpp:246-277 | no slices for no queues, the whole list for one queue, otherwise at most four, all non-empty |
| Scheduler.FailureStatus | src/server/services/transfers/TransfersService.cpp:212-223 | a failure record carries the transfer's job id, file id, source and destination SE, status FAILED, process id 0, retry false, errcode EPERM and the fixed "No share configured for this VO" message |
| Scheduler.FailUnschedulable | src/server/services/transfers/TransfersService.cpp:202-228 | exactly one message per ready transfer, in map-then-list order, each the transfer's failure record |
| Scheduler.TransfersService.GetFiles | src/server/services/transfers/TransfersService.cpp:104-196 | nothing starts and nothing is fetched for an empty queue list. Otherwise the executors started are, in order, the valid files of the round-robin order, cut at the throttle budget. Each executor gets the proxy of its own (credId, userDn). Proxies are fetched once per distinct key, and for exactly the keys of the valid files |
| Scheduler.TransfersService.Sweep | src/server/services/transfers/TransfersService.cpp:131-174 | one sweep over the VOs keeps the pass invariant, ends at the last VO or at the throttle break, and strictly decreases the number of files in the handler, so the outer loop terminates |
| Scheduler.TransfersService.TakeOne | src/server/services/transfers/TransfersService.cpp:142-172 | a VO with files hands out its head and the handler shrinks by one; an empty VO changes nothing; the pass invariant moves to the next VO |
| Scheduler.TransfersService.Dispatch | src/server/services/transfers/TransfersService.cpp:153-172 | the proxy is fetched before the throttle check, and only for a key not yet cached. The start is refused exactly when maxUrlCopy > 0 and the count exceeds it. A start appends one executor with the cached proxy and raises the count by one |
| Scheduler.TransferFileHandler.Get | src/server/services/transfers/TransfersService.cpp:142-145 | an empty VO yields nothing and the handler is unchanged; otherwise the VO's first file is returned and removed, other VOs unchanged |
| Scheduler.TransferFileHandler.constructor | src/server/services/transfers/TransfersService.cpp:124 | the handler holds the VOs in map order with each VO's ready files |
| Scheduler.TransferFileHandler.Empty | src/server/services/transfers/TransfersService.cpp:131 | empty exactly when no VO has a file left |
| Scheduler.TransfersService.constructor | src/server/services/transfers/TransfersService.cpp:48-60 | the service keeps the configured log and message directories, pool size, host alias, infosys and monitoring switch |
| Scheduler.Budget | src/server/services/transfers/TransfersService.cpp:160-171 | no cap when maxUrlCopy ≤ 0; otherwise at most maxUrlCopy − initialCount + 1 starts, and none when the initial count already exceeds the maximum |
| Scheduler.Take | src/server/services/transfers/TransfersService.cpp:160-171 | a capped run is the prefix of the eligible files of the budget's length; an uncapped run is all of them |
| Scheduler.PassResult | src/server/services/transfers/TransfersService.cpp:131-174 | when the handler is empty, the executors are the budgeted valid files of the round-robin order, each with its own proxy, and the fetch list is duplicate-free and covers exactly the valid files' keys |
| Scheduler.StepKeepsInv | src/server/services/transfers/TransfersService.cpp:142-172 | handing out one file, valid or skipped, started or refused, preserves the pass invariant |
| Scheduler.StepCache | src/server/services/transfers/TransfersService.cpp:153-158 | the proxy cache after a step is the cache of all files consumed so far; a start uses the file's own proxy |
| Scheduler.CacheIsConsistent | src/server/services/transfers/TransfersService.cpp:153-158 | the cache and the fetch list hold the same keys, fetches are never repeated, and each cached path is the lookup of its key |
| Scheduler.CacheCoversValid | src/server/services/transfers/TransfersService.cpp:149-158 | a key is fetched exactly when some consumed valid file has it; skipped files fetch nothing |
| Scheduler.TrippedTakesBudget | src/server/services/transfers/TransfersService.cpp:160-164 | once as many valid files as the budget allows have started, the budgeted prefix of all valid files is exactly those, so files handed out later are dropped |
| Scheduler.RoundRobinPermutes | src/server/services/transfers/TransfersService.cpp:131-145 | the round-robin order hands out every file of every VO exactly once |
| Scheduler.SweepTakes | src/server/services/transfers/TransfersService.cpp:131-145 | a sweep over a non-empty handler takes at least one file |
| Scheduler.PopAtTotal | src/server/services/transfers/TransfersService.cpp:142 | getting a file from a non-empty VO lowers the handler size by one |
| Scheduler.TotalZero | src/server/services/transfers/TransfersService.cpp:131 | the handler size is zero exactly when every VO list is empty |
| Scheduler.ValidOnesAppend | src/server/services/transfers/TransfersService.cpp:150-151 | the validity filter distributes over concatenation |
| UrlTransfer.SplitChecksum | src/url-copy/transfer.h:35-48 | the algorithm never contains ':'; without a colon it is the whole text and the value is ""; with one, algorithm ':' value rebuilds the text |
| UrlTransfer.SetChecksum | src/url-copy/transfer.h:35-48 | only the two checksum fields change, split at the first colon |
| UrlTransfer.SplitChecksumRoundTrip | src/url-copy/transfer.h:44-47 | for a colon-free algorithm, setting "alg:value" yields exactly (alg, value) |
| UrlTransfer.SplitChecksumKeepsLaterColons | src/url-copy/transfer.h:44-47 | colons after the first stay in the value |
| UrlTransfer.DurationMillis | src/url-copy/transfer.h:50-55 | zero when either time is zero, otherwise finish minus start |
| UrlTransfer.Fields | src/url-copy/transfer.h:62-64 | the seven-slot array holds the tokens in order and "" in the slots after them |
| UrlTransfer.CreateFromString | src/url-copy/transfer.h:58-76 | success exactly when the first token converts to unsigned and the fifth to double; then the job id is the given one, the file id that conversion, source and destination the second and third tokens, the checksum the fourth split at its first colon, metadata and token the sixth and seventh, and times, size and transferred bytes 0; failure names the unconvertible file id or size token |
| UrlTransfer.CreateFromStringRoundTrip | src/url-copy/transfer.h:58-76 | the line of seven space-free fields of a record decodes back to that record |
| UrlTransfer.MissingTrailingFieldsAreEmpty | src/url-copy/transfer.h:62-74 | a line of 5 or 6 tokens leaves the metadata and bring-online token "" |
| UrlTransfer.EmptyLineFails | src/url-copy/transfer.h:68 | a line with no tokens throws on the empty file id |
| UrlTransfer.CreatedTransferHasNoDuration | src/url-copy/transfer.h:30-33 | a decoded record starts with zero times, size and transferred bytes |
| UrlTransfer.CreateFromOptions | src/url-copy/transfer.h:79-91 | job id, file id, URLs, metadata and token are copied from their options; the checksum option is split at its first colon; start and finish times, size and transferred bytes keep their default 0 |
| Delegation.CheckDelegationId | src/server/ws/delegation/GSoapDelegationHandler.cpp:116-126 | accepted exactly when non-empty and made only of letters, digits, '.', ',' and '_' |
| Delegation.WholeMatch | src/server/ws/delegation/GSoapDelegationHandler.cpp:121-125 | the regex's whole match is the id when every character qualifies, and "" otherwise |
| Delegation.HexBytes | src/server/ws/delegation/GSoapDelegationHandler.cpp:106-107 | two valid id characters per byte |
| Delegation.UnhexOfHexBytes | src/server/ws/delegation/GSoapDelegationHandler.cpp:106-107 | "%02x" hex encoding decodes back to the bytes |
| Delegation.GeneratedIdIsValid | src/server/ws/delegation/GSoapDelegationHandler.cpp:106-109 | the generated id passes checkDelegationId and encodes the first 8 digest bytes |
| Delegation.MakeDelegationId | src/server/ws/delegation/GSoapDelegationHandler.cpp:81-114 | 16 characters, the hex id of the digest, always valid |
| Delegation.HandleDelegationId | src/server/ws/delegation/GSoapDelegationHandler.cpp:128-140 | "" maps to the generated id; a non-empty id maps to itself exactly when valid, and to "" exactly when invalid; the result is "" or valid |
| Delegation.FqansToString | src/server/ws/delegation/GSoapDelegationHandler.cpp:359-372 | "" exactly for no attributes, and at least one character per attribute |
| Delegation.FqansRoundTrip | src/server/ws/delegation/GSoapDelegationHandler.cpp:359-372 | splitting the string at spaces gives back the attributes when they are non-empty and space-free |
| Delegation.RequestOutcome | src/server/ws/delegation/GSoapDelegationHandler.cpp:142-199 | an invalid id fails with "'handleDelegationId' failed!" and changes nothing; a cached (id, dn) row's request is returned with no change; otherwise the call succeeds exactly when a request was generated, caching that request, its key and the client's attributes under (id, dn) and replying the request, or fails with "'GRSTx509CreateProxyRequest' failed!"; credentials and older rows are never touched |
| Delegation.PutOutcome | src/server/ws/delegation/GSoapDelegationHandler.cpp:374-444 | an invalid id fails with "'handleDelegationId' failed!", an unreadable proxy with "Failed to determine proxy's termination time!", and a key-matching error passes its text through, each with no change; without a cache row nothing changes; the tables change exactly when the cache row exists, the key matches and no stored credential outlives the incoming proxy, and then the credential becomes the full proxy, the client's attributes and the incoming expiry and the cache row is deleted; the reply is an error exactly on those three failures and Ok otherwise, including when a stored credential outlives the proxy |
| Delegation.NewRequestOutcome | src/server/ws/delegation/GSoapDelegationHandler.cpp:201-267 | getNewProxyReq behaves as a request for the generated id: same tables, success exactly when that request succeeds, its request returned with the id, and "'GRSTx509CreateProxyRequest' failed!" on failure |
| Delegation.RequestIsIdempotent | src/server/ws/delegation/GSoapDelegationHandler.cpp:151-158 | a second request for the same (id, dn) returns the cached request and changes nothing |
| Delegation.PutWithoutRequestChangesNothing | src/server/ws/delegation/GSoapDelegationHandler.cpp:384-390 | without a cache row for (id, dn), putProxy leaves both tables unchanged |
| Delegation.PutNeverShortensExpiry | src/server/ws/delegation/GSoapDelegationHandler.cpp:400-443 | no credential's termination time decreases. Other keys are untouched. When anything changed, the (id, dn) credential has the incoming expiry and its cache row is deleted; a readable, key-matching proxy not expiring before the stored one always replaces it |
| Delegation.RequestThenPutDelegates | src/server/ws/delegation/GSoapDelegationHandler.cpp:374-444 | request then put with the generated id stores the proxy, clears the cache row, and getTerminationTime reports the new expiry |
| Delegation.DestroyOutcome | src/server/ws/delegation/GSoapDelegationHandler.cpp:528-549 | an invalid id fails and changes nothing; otherwise both rows of (id, dn) are gone and every other row is kept |
| Delegation.TerminationTime | src/server/ws/delegation/GSoapDelegationHandler.cpp:506-526 | the expiry stored under the generated id, whatever id was given; otherwise the "Failed to retrieve termination time for DN" error with the DN |
| Delegation.RequestsKeepKeysValid | src/server/ws/delegation/GSoapDelegationHandler.cpp:142-267 | request transitions keep every table row keyed by a valid delegation id |
| Delegation.PutAndDestroyKeepKeysValid | src/server/ws/delegation/GSoapDelegationHandler.cpp:374-549 | putProxy and destroy keep every table row keyed by a valid delegation id |
| Delegation.DelegationHandler.GetProxyReq | src/server/ws/delegation/GSoapDelegationHandler.cpp:142-199 | the database moves to the request outcome's store and the reply is its result |
| Delegation.DelegationHandler.RenewProxyReq | src/server/ws/delegation/GSoapDelegationHandler.cpp:446-504 | identical to getProxyReq on the store and the reply |
| Delegation.DelegationHandler.GetNewProxyReq | src/server/ws/delegation/GSoapDelegationHandler.cpp:201-267 | the database moves to the new-request outcome's store and the reply carries request and id |
| Delegation.DelegationHandler.PutProxy | src/server/ws/delegation/GSoapDelegationHandler.cpp:374-444 | the database moves to putProxy's outcome store and the reply is its result, as PutOutcome states case by case |
| Delegation.DelegationHandler.Destroy | src/server/ws/delegation/GSoapDelegationHandler.cpp:528-549 | the database moves to destroy's outcome store and the reply is its result |
| Delegation.DelegationHandler.GetTerminationTime | src/server/ws/delegation/GSoapDelegationHandler.cpp:506-526 | the database is unchanged and the reply is the stored expiry under the generated id |
| UrlCopyArgs.UrlCopyOpts.constructor | src/url-copy/args.cpp:83-94 | a fresh object has the default option values and an empty error message |
| UrlCopyArgs.DefaultValues | src/url-copy/args.cpp:83-94 | defaults: all flags false, level 1, debug level 0, bring-online and pin lifetime −1, file id 0, retries 0, both replica flags "false", log dir "/var/log/fts3/", no checksum comparison |
| UrlCopyArgs.UrlCopyOpts.Parse | src/url-copy/args.cpp:125-299 | the object ends as the fold of the options over its old values; the status is that fold's status; on a bad number the error message names the option, otherwise it is untouched |
| UrlCopyArgs.ApplyOption | src/url-copy/args.cpp:136-288 | a step fails exactly on a numeric option whose argument does not convert to its C++ type, stops for usage exactly on '?', and otherwise keeps every field present |
| UrlCopyArgs.ApplyOptionString | src/url-copy/args.cpp:147-158 | a string option assigns its argument verbatim and leaves the other string fields alone |
| UrlCopyArgs.ApplyOptionNumber | src/url-copy/args.cpp:159-164 | a numeric option assigns its converted argument and leaves the other numeric fields alone |
| UrlCopyArgs.FlagsOnlyEverSet | src/url-copy/args.cpp:138-146 | no flag is ever reset, after a successful parse every flag option given is on, and a flag neither on before nor given stays off |
| UrlCopyArgs.StringFieldIsLastArgument | src/url-copy/args.cpp:207-215 | after a successful parse each string field holds the last argument given for it, or its earlier value |
| UrlCopyArgs.NumberFieldIsLastArgument | src/url-copy/args.cpp:219-233 | after a successful parse each numeric field holds the conversion of its last argument, or its earlier value |
| UrlCopyArgs.CompareChecksumFollowsLastA | src/url-copy/args.cpp:198-203 | after a successful parse the comparison mode is the one selected by the last 'A' option, or the earlier mode |
| UrlCopyArgs.ChecksumMode | src/url-copy/args.cpp:198-203 | relaxed exactly for "relaxed" or "r", strict otherwise, never "no check" |
| UrlCopyArgs.DebugWithoutArgument | src/url-copy/args.cpp:171-176 | 'F' without an argument sets the debug level to 0 and changes nothing else |
| UrlCopyArgs.BadNumberKeepsEarlierOptions | src/url-copy/args.cpp:291-296 | a failed parse stops at a numeric option whose argument does not convert, and keeps every option before it |
| UrlCopyArgs.NumericErrorMessage | src/url-copy/args.cpp:293-294 | the message is the fixed prefix followed by the option character |
| UrlCopyArgs.ReturnCode | src/url-copy/args.cpp:295-298 | 0 exactly for a completed parse, −1 exactly for a conversion failure |
| UrlCopyArgs.CompareChecksumText | src/url-copy/args.cpp:303-320 | each comparison mode prints its own distinct text |
| Text.LexInt | src/url-copy/args.cpp:163 | a cast to int succeeds exactly for a decimal in the 32-bit signed range, with that value |
| Text.LexLongLong | src/url-copy/args.cpp:160 | a cast to long long succeeds exactly for a decimal in the 64-bit signed range, with that value |
| Text.LexUnsigned | src/url-copy/args.cpp:173 | a cast to unsigned succeeds for a decimal of magnitude below 2^32, with the value itself when non-negative and reduced modulo 2^32 when negative |
| Text.TokensOfJoin | src/url-copy/transfer.h:62-64 | space tokenising of non-empty space-free words joined by spaces gives back the words |
| MsgPrinting.MsgPrinter.constructor | src/cli/MsgPrinter.cpp:528-531 | a fresh printer has no output lines and an empty JSON tree |
| MsgPrinting.DelegationEmission | src/cli/MsgPrinter.cpp:48-144 | non-verbose printers emit nothing, except the request error, which always emits; JSON mode writes exactly one entry and no line; text mode writes no entry; success prints its line only when verbose and delegated |
| MsgPrinting.HoursMinutesRoundTrip | src/cli/MsgPrinter.cpp:59 | the "h:m" JSON value splits at its colon back into both numbers |
| MsgPrinting.MsgPrinter.DelegationRequestDuration | src/cli/MsgPrinter.cpp:48-60 | appends the request-duration emission |
| MsgPrinting.MsgPrinter.DelegationRequestRetry | src/cli/MsgPrinter.cpp:62-74 | appends the retry emission |
| MsgPrinting.MsgPrinter.DelegationRequestError | src/cli/MsgPrinter.cpp:76-88 | appends the request-error emission, whatever the verbosity |
| MsgPrinting.MsgPrinter.DelegationRequestSuccess | src/cli/MsgPrinter.cpp:90-102 | appends the success emission |
| MsgPrinting.MsgPrinter.DelegationLocalExpiration | src/cli/MsgPrinter.cpp:104-116 | appends the local-expiration emission |
| MsgPrinting.MsgPrinter.DelegationServiceProxy | src/cli/MsgPrinter.cpp:118-130 | appends the service-proxy emission |
| MsgPrinting.MsgPrinter.DelegationMsg | src/cli/MsgPrinter.cpp:132-144 | appends the message emission |
| MsgPrinting.ErrorEmission | src/cli/MsgPrinter.cpp:322-332 | JSON mode sets only error.message to the message; text mode prints exactly "error: " followed by the message and puts nothing |
| MsgPrinting.MsgPrinter.ErrorMsg | src/cli/MsgPrinter.cpp:322-332 | appends the error emission |
| MsgPrinting.MsgPrinter.GsoapErrorMsg | src/cli/MsgPrinter.cpp:334-374 | appends the fault emission of the message with its backspaces removed |
| MsgPrinting.RemoveBackspaces | src/cli/MsgPrinter.cpp:336-341 | the erase loop ends with the message minus every backspace, all other characters kept in order |
| MsgPrinting.Without | src/cli/MsgPrinter.cpp:336-341 | the result contains no such character, only characters of the input, and equals the input when it had none |
| MsgPrinting.NoMarkerIsErrorMsg | src/cli/MsgPrinter.cpp:344-352 | without the "\nDetail: marker the fault printer behaves exactly like error_msg |
| MsgPrinting.MarkerInTextMode | src/cli/MsgPrinter.cpp:354-358 | with the marker, text mode prints the cleaned message unchanged |
| MsgPrinting.GsoapJsonSplit | src/cli/MsgPrinter.cpp:360-373 | for a message that is a quote-free text, a quote and anything, and also some text, the marker and a detail with no earlier marker, JSON mode reports that quote-free text as error.message and the detail as error.detail, each without one trailing newline |
| MsgPrinting.GsoapFaultRoundTrip | src/cli/MsgPrinter.cpp:360-373 | a fault string made from a message and a detail splits back into that message and detail |
| MsgPrinting.DropNewline | src/cli/MsgPrinter.cpp:362 | removes exactly one trailing newline, and only when there is one |
| Overview.DbToDate | src/fts3web/apps/ftsmon/views/overview.py:30-36 | other engines get the bare %s parameter; no fragment ends in a dangling '%' |
| Overview.DbToDateTakesOneParameter | src/fts3web/apps/ftsmon/views/overview.py:30-36 | every engine's fragment has exactly one %s placeholder, the %% escapes not counting |
| Overview.DbLimit | src/fts3web/apps/ftsmon/views/overview.py:39-45 | other engines keep the query; MySQL appends " LIMIT " and the limit to it; Oracle wraps it in "SELECT * FROM (" … ") WHERE rownum <= " and the limit |
| Overview.DbLimitRoundTrip | src/fts3web/apps/ftsmon/views/overview.py:39-45 | the MySQL result is the query, " LIMIT " and a number, and the Oracle result is the wrapper around the query followed by a number; in both the number parses back to the limit |
| Overview.GetPairLimits | src/fts3web/apps/ftsmon/views/overview.py:48-65 | each section holds, per key, the value of the last matching row that writes it. Bandwidth wins over active within a row, and falsy values write nothing. Empty sections are dropped |
| Overview.SectionAfterHoldsLastWrites | src/fts3web/apps/ftsmon/views/overview.py:50-60 | the folded section has a key exactly when some row is its last writer, with that row's value |
| Overview.SourceMatchShadowsDestination | src/fts3web/apps/ftsmon/views/overview.py:51-56 | a row whose source matches never changes the destination section |
| Overview.PairLimits | src/fts3web/apps/ftsmon/views/overview.py:61-65 | 'source' and 'destination' appear exactly when their sections are non-empty, with those sections |
| Overview.AllTriplets | src/fts3web/apps/ftsmon/views/overview.py:156-174 | yields every first-query triplet, then the terminal ones not seen before; every triplet of either query is yielded, and none of the terminal part repeats anything |
| Overview.AllTripletsYieldEachOnce | src/fts3web/apps/ftsmon/views/overview.py:156-174 | the generator's output has the same triplets as both queries together, with no terminal triplet repeated |
| Overview.FreshOnes | src/fts3web/apps/ftsmon/views/overview.py:168-174 | the unseen triplets, each once, and exactly those |
| Overview.DefaultCurrent | src/fts3web/apps/ftsmon/views/overview.py:241-242 | 'current' becomes 0 only when it was missing and 'active' present; every other key is unchanged |
| Overview.DefaultCurrentIdempotent | src/fts3web/apps/ftsmon/views/overview.py:241-242 | defaulting twice is defaulting once |
| Overview.Summary | src/fts3web/apps/ftsmon/views/overview.py:285-294 | the summary has exactly the eight counter keys, each the sum over all objects with a missing key counted as 0 |
| Overview.SumOfAppend | src/fts3web/apps/ftsmon/views/overview.py:285-294 | the sum over two lists of objects is the sum of the sums |
| Overview.SummaryAdditive | src/fts3web/apps/ftsmon/views/overview.py:285-294 | the summary of two groups of objects is the counter-wise sum of their summaries |
| Overview.SumBoundsEach | src/fts3web/apps/ftsmon/views/overview.py:285-294 | with non-negative counts, each object's count is at most the total |
| JobStatus.Id | src/common/JobStatusHandler.h:42-65 | every state's code lies in −6..15 |
| JobStatus.IdsFollowDeclarationOrder | src/common/JobStatusHandler.h:42-65 | the 22 states in declaration order take the codes −6 to 15 consecutively |
| JobStatus.FromId | src/common/JobStatusHandler.h:42-65 | decoding a code gives the state with that code, and fails exactly outside −6..15 |
| JobStatus.FromIdOfId | src/common/JobStatusHandler.h:42-65 | decoding a state's code gives the state back |
| JobStatus.IdInjective | src/common/JobStatusHandler.h:42-65 | distinct states have distinct codes |
| JobStatus.ClassificationIsPartition | src/common/JobStatusHandler.h:36-41 | every state is exactly one of failed, finished or in progress |
| JobStatus.FailedStates | src/common/JobStatusHandler.h:43-49 | the failed states are exactly the six negative ones, including canceled and unknown; finished is exactly FINISHED |

## Left out

- The service loop `runService`, its sleeps, drain mode and thread interruption (TransfersService.cpp:68-101, 136-140, 183-187) are left out: they concern time, threads and cancellation. Also left out: the thread pool and thread group that run the executors and `getFiles` workers. `ExecuteUrlcopy` returns the worker slices, and `GetFiles` returns the executors started, in order.
- `std::random_shuffle` and `applyVoShares` (TransfersService.cpp:239-242) are randomised or not part of this model. `ExecuteUrlcopy` takes the schedulable and unschedulable queue lists they produce as inputs.
- The database query `getReadyTransfers`, `DelegCred::getProxyFile`, `countProcessesWithName` and the `MaxUrlCopyProcesses` setting are parameters. A query is a deterministic function of the queue list. These parameters never fail. In the source, an exception thrown by one of them is caught and logged and ends the pass (TransfersService.cpp:188-198); the model has no such path.
- Scheduler.TransfersService.GetFiles: the model assumes the executors never touch the handler. The real executors run on pool threads and hold a reference to it.
- The status message's timestamp and the `Producer` that sends it are left out. `FailUnschedulable` returns the messages in sending order.
- Scheduler.TransferFileHandler.Get: the handler's own source is not part of this model. It is specified by how `getFiles` uses it: `get` on a VO pops that VO's first file, and the VOs are visited in map order.
- Integer widths in the scheduler are unbounded. The `int` process counter cannot overflow in the model.
- UrlTransfer.DurationMillis: returns the difference in milliseconds, not the `double` number of seconds the source computes.
- UrlTransfer.CreateFromString: `userFileSize` (a `double`) is not stored. Whether `lexical_cast<double>` accepts the size token is the `isDouble` parameter.
- UrlTransfer.CreateFromString requires at most seven tokens. With more, `std::copy` writes past the seven-element array, which is undefined behaviour.
- `Transfer::throughput` and `userFileSize` are floating point and are not modelled.
- `Transfer::initListFromFile` is not modelled: it reads and deletes a file.
- The `getopt_long_only` tokenisation, `usage()` and the process exit (args.cpp:105-116, 134) are left out. `Parse` takes the (option, argument) pairs getopt returns and stops with `ShowUsage` on '?'.
- Option 'g' (args.cpp:225-227) is modelled like the other unsigned options, although getopt never returns it: 'g' is in neither option table.
- The `DEFAULT_NOSTREAMS`, `DEFAULT_BUFFSIZE` and `DEFAULT_TIMEOUT` constants come from a header that is not part of this model. They are constructor parameters.
- The "Uknown value!" branch of `operator<<` (args.cpp:317-318) cannot be reached with a well-typed enum value. `CompareChecksumText` has no such case.
- SHA-1 over the DN and attributes is not modelled. The digest is a parameter of the handler, and `MakeDelegationId` encodes its first 8 bytes. The `m == NULL` early return of `makeDelegationId` is left out.
- GRST proxy-request generation is a parameter of the request operations (`generated`, `None` on failure). So are `readTerminationTime` (`termination`) and `addKeyToProxyCertificate` (`addKey`). X.509 parsing, `x509ToString` and the `init` cipher filter are left out.
- Database exceptions during inserts, updates and deletes, and their messages, are not modelled: the tables always accept the write. The handler's log lines are not modelled.
- MsgPrinting.MsgPrinter.constructor takes the verbose and JSON switches as parameters. The header with their setters is not part of this model.
- The Boost property tree is a flat map from dotted path to text; a boolean is stored as "true" or "false". `write_json` is not modelled.
- MsgPrinting.GsoapJsonSplit: an empty detail or an empty message prefix makes the source read index −1 of an empty string, which is undefined behaviour. The model then leaves the empty text unchanged.
- `job_status`, `job_summary`, `file_list` and the other printers of MsgPrinter.cpp are not modelled: they format local times and nested property trees.
- `_get_pair_udt` (overview.py:68-76) is not modelled. It indexes the row list instead of the loop row, and compares tuples to strings.
- `OverviewExtended`, the Django queries, the ordering lambdas, the `rate` and `avg_duration` values and the throughput product for `current` (overview.py:79-131, 208-221, 243-249, 257-282, 295-296) are not modelled. They are ORM, floating point and database I/O. `Summary` takes the per-triplet objects as input.
- Overview.AllTriplets: the two cursors are given as sequences, and the generator's lazy yielding is an output sequence.
