# Verified model of the smart contactor controller

The firmware may energise an outlet only while a Tesla is confirmed home. This project models, in
Dafny, the parts of the firmware that decide that and the parts that decision rests on, and proves
what they keep over every run, every interleaving and every loss of power. The Dafny files follow
the program's own components:

- **Control.** `settings`, `policy`, `epoch`, `auto_journal` and `shared` are the state the control
  task, the commands and the storage worker share. `control` puts them together as one transition
  system: commands at lock granularity, the control loop cut at its two critical sections, every
  writer and the storage worker cut at each durable write and each read of the shared state, boot in
  steps, and a crash at any point. A durable write may fail, fail though it landed, or succeed.
  `control_proofs` is the invariant, `control_results` the safety theorems, `policy_runs` the theorems
  about the policy alone, `relay_dwell` those about the relay's own dwell. `control_runs` has the boot
  that example runs start with; `late_ack` and `store_faults` are what can come between the storage
  worker's critical sections.
- **Tokens and spending.** `tokens` and `budget` are the two journals; `rotation` runs the token
  journal against a server that accepts its newest token or the one most recently used; `client` is
  the Fleet client over both journals, and `client_life` its whole lives, cut anywhere by power.
- **Wire formats.** `json_*` and `json` are the token-array JSON parser, `http*` the streaming
  response decoder, `http_retry` its delays and dates, `decimal` the exact conversion of JSON numbers, `percent` form encoding, `crc` the
  checksum of every record.
- **Firmware update.** `firmware_update` is the transfer's own state machine, `ota` the worker against
  the HTTP calls, the Fleet worker and a crash at any point, `ota_proofs` and `ota_results` what holds.

An object whose methods update its fields is a class here; a datatype beside it says what each
operation computes, each method is proved to compute exactly that, and the theorems are about the
datatype. `dafny verify dfyconfig.toml` checks the whole project.

## Findings

Where a property that one would expect is false of the code, the model keeps the code as it is.

- **An acknowledgement can be late, or for nothing.** docs/architecture.md:147-149 promises that a new
  Home cannot energise before its commit is acknowledged. But `auto_storage_step`
  (main/auto_state.cpp:8-9) acknowledges what it asked for in a critical section of its own, whatever
  has come between. `LateAcks.LateAckCanOpenTheGate` gives, for any settings that use saved decisions, a
  run from the first boot in which the decision goes Home, Away and Home again around one storage step:
  the acknowledgement of Away is refused, the worker believes Home is saved, and the relay is commanded
  ON (unless in a dry run) while the durable record says Away. `LateAcks.EmptyAckCanOpenTheGate` gives
  one in which a command comes between: the record is emptied, and the acknowledgement is taken for
  Home. `LateAcks.LateAckIsCoherentIff` is the exact condition for one acknowledgement, and
  `ControlResults.SavedAgreesIffTold` for all of a run: the saved state agrees with the record if and
  only if no acknowledgement is outstanding and the last one was for what had been written.
  `ControlResults.HomeIsCommittedFirst` has the gate under exactly that condition.
- **A storage step can raise the critical fault though no storage fails.** The worker reads the settings
  in one critical section and compares them with the stored profile in another
  (main/storage.cpp:53-66); a request read while a command was in progress, whose settings have since
  been applied, matches no profile. `StoreFaults.StoreFaultsIff` is the exact condition,
  `StoreFaults.StoreCanFault` a run from the first boot, for any settings that use saved decisions.
- **A backslash before a NUL byte is accepted as an escape**, because components/controller/json.cpp:33
  looks the character up with `strchr`. `JsonRfc.AcceptedIsRfcUnlessNul`: of the texts the parser
  accepts, exactly those without a NUL are JSON texts; `JsonRfc.NulIsAnEscape` is such a text.
- **Some whole numbers are refused** by `exact_positive_integer`. `Decimals.ExactPositiveInteger` has
  the condition, if and only if: the text is shorter than 64 characters, is not negative, its
  exponent is at most 64 in magnitude, and a zero does not lack digits for its negative scale.
  `Decimals.RefusedThoughWhole` gives two refused whole numbers.
- **Some field names are refused.** RFC 9110, section 5.6.2, allows more characters in a field name than
  components/controller/http_decoder.cpp:78 does; one such field, even a trailer, fails the response.
  `HttpRoundTrip.NamesAreChecked` has the condition.
- **The relay can skip the dwell.** docs/architecture.md:247 promises that every actual OFF transition
  starts one, and main/ota.cpp:51 relies on it after an aborted update. But main/app.cpp:216 masks a
  commanded decision while an update is under way, and the policy learns of the update only if it is
  still under way when the next iteration reads it (main/app.cpp:214). `RelayDwell.RelayCanSkipDwell`
  gives, for any settings under which the output may be commanded and any gap, a run from the first boot
  in which the relay falls and is ON again after that gap. `RelayDwell.BackTooSoonIff` is the exact
  condition: a fall lets the relay back too soon, in some continuation, if and only if it was such a mask
  and nothing else; `RelayDwell.TooSoon` says what such a run looks like. `RelayDwell.RelayKeepsDwell` is
  what a caller can use: if the iteration after each such mask sees the update, or an OFF, every ON of
  the relay comes a dwell after every earlier OFF.
- **Generations repeat** after 2^32 - 1 changes (`Epochs.EpochsRepeat`, if and only if). The control
  system is modelled for boots with fewer changes than that.

## Model

| member | source | states |
|---|---|---|
| `PolicyRuns.ExpireRefinesChains` | components/controller/policy.cpp:53-132 | Under Expire, AUTO is home at a later tick if and only if there is a chain of evidence from a fix within the enable radius, each later fix or sleep reply strictly before the deadline the last one left, nothing in between that ends AUTO, and the tick before the last deadline |
| `PolicyRuns.LeaseNeedsAFix` | components/controller/policy.cpp:103-137 | Under either policy, lease time is reported only within `sleep_s` of the source time of some accepted fix, with nothing since that ends AUTO |
| `PolicyRuns.HoldLastIsTheLastVerdict` | components/controller/policy.cpp:53-136 | Under HoldLast, whatever settings came before, the AUTO state is what the last decisive call decided, and Unknown if there was none: no lapse, sleep reply, clock jump, tick or override changes it |
| `PolicyRuns.HoldLastDecisionIgnoresTime` | components/controller/policy.cpp:128-137 | Under HoldLast the decision at any later time is home if and only if the AUTO state is Home |
| `PolicyRuns.OverridesDoNotTouchAuto` | components/controller/policy.cpp:63-66 | Erasing every timed ON from any run leaves home, lease, ceiling, AUTO state, restored mark, distance and last source the same at every later tick |
| `PolicyRuns.DwellOverWholeRuns` | components/controller/policy.cpp:67-80 | Every OFF-to-ON edge is made by a tick, at least the current dwell (never under 30 s) after boot and after every earlier withdrawal by tick, configure, off or fault, and none follows a fault |
| `PolicyRuns.AdmissionIsTimeFree` | components/controller/policy.cpp:95-118 | Which evidence is admitted depends on the calls alone: two runs with the same calls at different times agree on every admission field throughout |
| `PolicyRuns.FaultIsLatched` | components/controller/policy.cpp:80 | A fault, once called, stays through every later call, reconfiguration included |
| `PolicyModel.Policy.Configure` | components/controller/policy.cpp:67-74 | New settings withdraw the output, AUTO and any override, and invalid settings latch a fault; the object's new state is that of the policy the theorems are about |
| `PolicyModel.Policy.Restore` | components/controller/policy.cpp:57-62 | A saved state is taken only under valid, commissioned, enabled HoldLast settings without fault |
| `PolicyModel.Policy.Off` | components/controller/policy.cpp:75-79 | OFF ends AUTO and override and disables, under the new generation |
| `PolicyModel.Policy.TimedOn` | components/controller/policy.cpp:88-94 | A timed ON is refused without settings, with a fault, uncommissioned, disabled, for no time or more than eight hours; deadlines are applied first either way |
| `PolicyModel.Policy.Observe` | components/controller/policy.cpp:95-127 | Evidence is applied after deadlines, and only if admitted; the new state is that of the policy the theorems are about |
| `PolicyModel.Policy.Tick` | components/controller/policy.cpp:128-154 | The decision and the new state, with the moment of an ON-to-OFF transition |
| `PolicyModel.Policy.ClockJump` | components/controller/policy.cpp:81-87 | A clock jump ends AUTO under Expire and only the remaining time under HoldLast |
| `PolicyModel.Policy.Fault` | components/controller/policy.cpp:80 | A fault is kept, ends AUTO and override, and withdraws the output at once |
| `Epochs.EpochsRepeat` | components/controller/include/control_epoch.hpp:12-16 | Generations m and n changes after any other are equal if and only if 2^32 - 1 divides n - m, and none is zero |
| `Epochs.NextTicket` | components/controller/include/control_epoch.hpp:13-16 | Within one period each change issues a generation that differs from every one issued before |
| `Epochs.ControlEpoch.Begin` | components/controller/include/control_epoch.hpp:17-20 | A command begins if and only if it carries the current generation, and then gets the next one |
| `Epochs.ControlEpoch.Cancel` | components/controller/include/control_epoch.hpp:13-16 | The next generation, past zero |
| `AutoJournals.SavedIsLoaded` | components/controller/auto_journal.cpp:27-55 | A saved decision is loaded under the same settings if these use saved decisions, and as Unknown under all others |
| `AutoJournals.ClearedIsForgotten` | components/controller/auto_journal.cpp:56-58 | After a successful clear nothing loads under any settings; a failed one leaves the old record or the empty one |
| `AutoJournals.RecoverIsCautious` | components/controller/auto_journal.cpp:59-69 | Boot restores no more than the record says, Home only with usable tokens after an ordinary reset, and what it reports agrees with the record it leaves |
| `AutoJournals.AutoJournal.SaveDecision` | components/controller/auto_journal.cpp:48-55 | Saving over any store outcome leaves the slot and the error of the specification |
| `AutoJournals.AutoJournal.ClearDecision` | components/controller/auto_journal.cpp:56-58 | Clearing likewise |
| `AutoJournals.AutoJournal.LoadDecision` | components/controller/auto_journal.cpp:27-40 | Loading reports the specification's state, source time and error |
| `AutoJournals.AutoJournal.RecoverDecision` | components/controller/auto_journal.cpp:59-69 | Recovery likewise, with the slot it leaves |
| `SharedState.Control.Inhibit` | main/app.cpp:43-51 | OFF takes a new generation, inhibits, and drops pending settings and overrides in one critical section |
| `SharedState.Control.InhibitCurrent` | main/app.cpp:52-57 | Another command does so only without provisioning or update and under the current generation |
| `SharedState.Control.BeginProvision` | main/app.cpp:58-66 | Provisioning likewise, unconditionally of the generation if none is given |
| `SharedState.Control.Configure` | main/app.cpp:67-81 | Settings are handed over only under the current generation |
| `SharedState.Control.AutoCommitAck` | main/app.cpp:82-91 | An acknowledgement counts only for the decision still published under the generation it was read under |
| `SharedState.Control.Timed` | main/app.cpp:92-98 | A timed request is taken only when ready, enabled, commissioned, current and at most eight hours |
| `SharedState.Control.Take` | main/app.cpp:183-197 | The first critical section of an iteration: what it takes and what it publishes with new settings |
| `SharedState.Control.Publish` | main/app.cpp:215-223 | The second: the output is withdrawn when inhibited, superseded, masked or refused by the pin |
| `ControlProofs.RunOk` | main/app.cpp:43-98 | The invariant of the control system holds after every run of commands, loop, writers, worker, boot and crashes |
| `ControlProofs.InitOk` | main/storage.cpp:34-39 | It holds at the first boot with any profile |
| `ControlProofs.WriteOk` | main/storage.cpp:51-72 | The storage worker's write keeps the invariant, which says how the saved state and the durable record differ until it is acknowledged |
| `ControlProofs.AckOk` | main/app.cpp:82-91 | Its acknowledgement keeps it too, whether it is taken or not |
| `ControlResults.AcknowledgedOffSurvives` | main/storage.cpp:202-231 | After `change_config(Disabled, e)` returns true, in any interleaving with writers, worker, provisioning, crashes and reboots, the durable profile stays disabled and the relay is never commanded ON until another command begins |
| `ControlResults.OffDominates` | main/app.cpp:43-66 | After OFF or the start of provisioning, ON is commanded again only after a command has begun since and its settings have then been applied: nothing older comes back |
| `ControlResults.BootRestoreIsSound` | main/storage.cpp:46-70 | Boot restores Home under settings c only if the worker, holding the mutex, found Home published by a policy under c and wrote it before letting go; no profile write has landed since, and the record has said Home ever since, across any crashes |
| `ControlResults.SavedAgreesIffTold` | main/auto_state.cpp:3-10 | In every reachable state with enabled settings that use saved decisions, the saved state agrees with the durable record if and only if no acknowledgement is outstanding and the last one was for what had been written |
| `ControlResults.HomeIsCommittedFirst` | main/app.cpp:183-223 | Under HoldLast, for ON without an override: where this very iteration read the commit state, the durable record would have restored Home under the settings in force if and only if the storage worker was in step |
| `LateAcks.LateAckIsCoherentIff` | main/auto_state.cpp:8-9 | Whether one acknowledgement leaves the saved state in agreement with the record, if and only if, for any generation and whatever was written |
| `LateAcks.LateAckCanOpenTheGate` | main/app.cpp:82-91 | For any settings that use saved decisions, a run from the first boot where it does not: ON is commanded over a durable Away and nothing is left to store |
| `LateAcks.EmptyAckCanOpenTheGate` | main/storage.cpp:59-60 | Another, where the acknowledgement of an emptied record is taken for Home: ON is commanded with nothing on record |
| `StoreFaults.StoreFaultsIff` | main/storage.cpp:51-72 | In any run from the first boot, with a store that can be read and written, the worker's write raises the fault if and only if it is to keep a request read under settings that a command had withdrawn |
| `StoreFaults.StoreCanFault` | main/auto_state.cpp:4-9 | For any settings that use saved decisions, a run from the first boot where it does |
| `RelayDwell.TooSoon` | main/app.cpp:214-217 | In any boot, if the relay is back within the dwell in force, its fall was a mask by an update alone, so was every publication in between, and every decision since commanded ON |
| `RelayDwell.BackTooSoonIff` | main/app.cpp:214-217 | When the relay falls, some continuation of the boot brings it back within the dwell if and only if the fall was an update alone masking a decision to command ON |
| `RelayDwell.RelayKeepsDwell` | main/app.cpp:183-223 | In any boot where the iteration after each such mask sees the update or an OFF, each ON of the relay comes a dwell after every earlier OFF |
| `RelayDwell.RelayWaitsAfterBoot` | main/app.cpp:173 | Whatever masks the relay, each ON comes a dwell, never under 30 s, after boot |
| `RelayDwell.RelayCanSkipDwell` | main/ota.cpp:44-53 | For any settings under which the output may be commanded and any gap, a boot in which the relay is back after that gap |
| `TokenJournals.UnsentIsFree` | components/controller/reliability.cpp:24-45 | A cancelled unsent attempt leaves the record that was in memory before it, count and deadline included, or the attempt's own if the write failed |
| `TokenJournals.TokenJournal.Load` | components/controller/reliability.cpp:4-13 | What each stored, missing or damaged record is taken for |
| `TokenJournals.TokenJournal.Begin` | components/controller/reliability.cpp:24-37 | The attempt is on record before it is allowed, and refused past 32 attempts or a day |
| `TokenJournals.TokenJournal.CancelUnsent` | components/controller/reliability.cpp:38-45 | The previous count and deadline are put back |
| `TokenJournals.TokenJournal.Finish` | components/controller/reliability.cpp:46-53 | The replacement becomes current and the old token previous, only if it fits |
| `TokenJournals.TokenJournal.Revoke` | components/controller/reliability.cpp:54-57 | Consent is needed from now on, and an attempt is over |
| `Rotation.ChainIsNeverLost` | components/controller/reliability.cpp:14-53 | Over lost replies, crashes and writes of every outcome, the durable refresh token is the server's newest or the one most recently used |
| `Rotation.SentIsDurable` | components/controller/client.cpp:34-54 | Every token sent is the durable one, its attempt already counted on record |
| `Rotation.AccessFollowsItsRefreshToken` | components/controller/client.cpp:75-81 | An access token comes into use only when the refresh token issued with it is durable |
| `Rotation.AmbiguityIsBounded` | components/controller/reliability.cpp:28-36 | Across reboots and write failures each refresh token is possibly sent at most 32 times, all begun within a day |
| `Budgets.GrantKeepsCaps` | components/controller/reliability.cpp:63-84 | A granted request leaves day and month totals within the caps given and location requests within 5000, on disk when it reserved |
| `Budgets.RefusedIffSpent` | components/controller/reliability.cpp:72-78 | A request is refused for budget if and only if the totals of its period, or the location cap, leave no room |
| `Budgets.GrantsAreReserved` | components/controller/reliability.cpp:58-84 | Over takes, rollovers, cap changes, reboots and failed commits, grants never exceed durable reservations in day or month, per endpoint, nor 5000 location requests in any month |
| `Budgets.Budget.Load` | components/controller/reliability.cpp:58-62 | A missing record is a fresh one, a damaged one an error |
| `Budgets.Budget.Take` | components/controller/reliability.cpp:63-84 | The object takes exactly the step of the ledger, credit and store |
| `FleetClients.FleetClient.Account` | components/controller/client.cpp:26-31 | No request is paid for without a clock, and the caps are those of the settings |
| `FleetClients.FleetClient.Refresh` | components/controller/client.cpp:34-85 | A refresh as the specification has it: paid, on record, sent once, then cancelled, finished, revoked or released |
| `FleetClients.FleetClient.Fetch` | components/controller/client.cpp:88-106 | One request to the vehicle under its own grant, only while the generation is current |
| `FleetClients.FleetClient.Get` | components/controller/client.cpp:107-115 | One retry after a refresh, if the first answer was 401 |
| `FleetClients.FleetClient.Poll` | components/controller/client.cpp:116-139 | A whole poll, including the month's location cap checked before anything is sent |
| `ClientLives.PollFollows` | components/controller/client.cpp:116-139 | Whatever the world answers, a poll acts in an order where each request follows its own grant and each refresh its durable intent, and ends as its log says |
| `ClientLives.RefreshFollows` | components/controller/client.cpp:34-85 | The same of a refresh called on its own |
| `ClientLives.CutAnywhere` | components/controller/client.cpp:11-14 | Power may fail after any event of any call, and what was on disk is what the next boot finds |
| `ClientLives.RefreshIsDurable` | components/controller/client.cpp:40-54 | In any life a refresh is asked for with the token then durable, its attempt on record |
| `ClientLives.ClientKeepsItsChain` | components/controller/client.cpp:34-85 | In any life the durable token is one the server accepts, the access token in use came with it or the one before, every refresh was asked for with the durable token, and each token was possibly sent at most 32 times, all begun within a day |
| `ClientLives.ClientKeepsItsCaps` | components/controller/client.cpp:21-31 | In any life at most 5000 location requests per month are made, and no requests of any endpoint beyond the durable reservation of its day and of its month |
| `Jsons.Json.Parse` | components/controller/json.cpp:99-105 | A text is accepted if and only if it is at most 16384 characters and renders a tree within depth and token limits with unescaped unique keys; the array then holds that tree |
| `JsonText.ParsedIffRendered` | components/controller/json.cpp:38-105 | The descent parses a text to a tree, white space and escapes included, if and only if the text renders that tree |
| `JsonText.OneTree` | components/controller/json.cpp:38-98 | A text renders one tree only |
| `JsonRfc.AcceptedIsRfcUnlessNul` | components/controller/json.cpp:21-37 | An accepted text is a JSON text of RFC 8259 if and only if it has no NUL |
| `JsonRfc.NulIsAnEscape` | components/controller/json.cpp:33 | An accepted text that is none |
| `Jsons.Json.Value` | components/controller/json.cpp:38-98 | One value: its token and those below it are appended exactly as its tree has them, or the text has no value here |
| `Jsons.Json.Quoted` | components/controller/json.cpp:21-37 | A string is taken up to its closing quote if and only if its text is a string's |
| `Jsons.Json.SkipNumber` | components/controller/json.cpp:76-94 | A number is taken as far as the grammar goes |
| `Jsons.Json.Repeats` | components/controller/json.cpp:58-59 | The walk over the keys so far finds a key if and only if the object has it |
| `Jsons.Json.Get` | components/controller/json.cpp:107-112 | The token found is that of the value the object has for the key, and -1 if it has none or is no object |
| `Jsons.Json.Element` | components/controller/json.cpp:113-117 | The token found is that of the element of that number |
| `Jsons.Json.Equal` | components/controller/json.cpp:150-152 | True if and only if the token is a string of exactly this text |
| `Jsons.Json.Text` | components/controller/json.cpp:118-149 | The value of a string is copied if and only if it is one, has no NUL and fits |
| `JsonNodes.EveryIndex` | components/controller/json.cpp:95-97 | Every index of the array is the token of a node, followed by that node's own tokens |
| `JsonNodes.MemberOfNode` | components/controller/json.cpp:107-112 | Walking by `end` reaches the value of the key in the tree |
| `JsonNodes.ItemOfNode` | components/controller/json.cpp:113-117 | Walking by `end` reaches the element in the tree |
| `JsonStrings.SpellingsDecode` | components/controller/json.cpp:118-149 | However each code point is spelled, surrogate pairs included, decoding yields the UTF-8 of the value |
| `JsonStrings.Utf8Decodes` | components/controller/json.cpp:136-141 | The bytes written for a code point decode to it, and none is zero but for NUL |
| `JsonStrings.Decode` | components/controller/json.cpp:118-149 | The copying loop yields the specification's bytes, or refuses if and only if there are none or they do not fit |
| `Decimals.Integer` | components/controller/json.cpp:168-178 | Plain digits are read if and only if there are at most nineteen and they fit 63 bits |
| `Decimals.ExactPositiveInteger` | components/controller/protocol.cpp:35-66 | A JSON number is converted if and only if it is convertible and its exact value is an integer of 63 bits, and to that value |
| `Decimals.RefusedThoughWhole` | components/controller/protocol.cpp:50-60 | Two whole numbers that are refused |
| `Percent.UrlEncode` | components/controller/protocol.cpp:220-231 | The encoding is written if and only if it fits with its terminator |
| `Percent.EncodedDecodes` | components/controller/protocol.cpp:220-231 | What is sent decodes to what was encoded |
| `Percent.OnlySafe` | components/controller/protocol.cpp:222-228 | Only unreserved characters and escapes are sent |
| `Crcs.Crc32` | components/controller/protocol.cpp:237-241 | The branch-free loop computes the CRC of the bitwise definition |
| `Crcs.IntactIff` | components/controller/include/reliability.hpp:13-14 | A record is intact if and only if its version is 1 and its stored bytes, up to and with the checksum, leave one fixed residue |
| `Crcs.CorruptionIsFound` | components/controller/include/reliability.hpp:13-14 | A change of an intact record within four consecutive stored bytes, in the body, the checksum or across both, is always found; padding after the checksum may change |
| `Crcs.CanSeal` | components/controller/include/reliability.hpp:13 | Every body of version 1 has a checksum that makes it intact, whatever pads it |
| `Https.HttpDecoder.Feed` | components/controller/http_decoder.cpp:117-147 | Feeding bytes takes the object through the specification's steps and reports whether it failed |
| `Https.HttpDecoder.EndLine` | components/controller/http_decoder.cpp:40-116 | A complete line is acted on as the specification has it |
| `Https.HttpDecoder.Eof` | components/controller/http_decoder.cpp:148-152 | The end of the connection ends a body of unknown length and is an error anywhere else |
| `Https.FailedStays` | components/controller/http_decoder.cpp:118 | After a failure nothing more is taken in |
| `HttpRoundTrip.DecodeInvertsEncode` | components/controller/http_decoder.cpp:40-152 | For every response the decoder's limits and field names allow, with a body of at most 16384 bytes, by length, in chunks with extensions and trailers, or to the end of the connection, it ends with exactly its status, body and Retry-After |
| `HttpRoundTrip.NamesAreChecked` | components/controller/http_decoder.cpp:76-80 | A field line is taken only if its name is letters, digits and hyphens, and a trailer if and only if |
| `HttpRoundTrip.PiecesDecode` | components/controller/http_decoder.cpp:117-147 | The same status, body, Retry-After and end for every way of cutting the wire into pieces |
| `HttpMessages.PiecesAreOne` | components/controller/http_decoder.cpp:117-147 | Feeding pieces leaves the decoder as feeding them at once does, whatever the bytes |
| `HttpRoundTrip.PrefixIsNotDone` | components/controller/http_decoder.cpp:121-125 | No proper prefix of a response is taken for a complete one |
| `HttpRetry.DelaySeconds` | components/controller/http_decoder.cpp:8-16 | A numeric delay of any length is read without overflow, as the number but a day at most |
| `HttpRetry.WaitSeconds` | components/controller/http_decoder.cpp:8-39 | The delay of any field: a number, the time left until a date, or an hour for anything else |
| `HttpRetry.DateOfIff` | components/controller/http_decoder.cpp:17-38 | A field is read as an instant if and only if it is exactly the text of that instant in the calendar, day of the week and leap years included, up to the year 2100 |
| `HttpRetry.DayNumberOfCalendar` | components/controller/http_decoder.cpp:32-35 | The sum over years and months is the number of days walked one by one from the start of 1970 |
| `HttpRetry.CalendarOfDayNumber` | components/controller/http_decoder.cpp:32-35 | Every day from 1970 on is reached by that walk, at its own number |
| `FirmwareUpdates.OperationsKeep` | components/controller/firmware_update.cpp:36-63 | Every operation keeps the transfer consistent, none but `begin` changes what it is of, and a failed one goes on only by `begin` |
| `FirmwareUpdates.IsCompatibleVersion` | components/controller/firmware_update.cpp:21-29 | The digit loops accept exactly the versions 0.minor.patch with minor 2 or later |
| `FirmwareUpdates.FirmwareUpdate.Begin` | components/controller/firmware_update.cpp:36-40 | A transfer begins only when none is active, with whole sectors that fit the slot |
| `FirmwareUpdates.FirmwareUpdate.Chunk` | components/controller/firmware_update.cpp:45-50 | A chunk is taken only at the place the last one ended, current, and the first only if compatible |
| `FirmwareUpdates.FirmwareUpdate.Written` | components/controller/firmware_update.cpp:51-54 | What was queued, and only that, is counted as received |
| `FirmwareUpdates.FirmwareUpdate.Finish` | components/controller/firmware_update.cpp:55-58 | Verification starts only with all bytes received |
| `OtaProofs.RunKeeps` | main/ota.cpp:76-131 | The invariant of the update system holds after every run of worker, calls, Fleet worker, faults and crashes |
| `OtaResults.OnlyCompleteImagesBoot` | main/ota.cpp:108-128 | Every image that runs or is selected is the first one, or one whose bytes are exactly the contiguous accepted chunks, as many as announced, compatible, selected after a check under the transfer's generation and both deadlines |
| `OtaResults.IdleMeansRunning` | main/ota.cpp:39-53 | With no update busy the running slot is the selected one, or a critical fault has been raised |
| `OtaResults.SlotHoldsAcceptedChunks` | main/ota.cpp:91-107 | The slot holds exactly the chunks accepted and written so far, and is open only after the relay was seen off and never while a Fleet request is in flight |
| `OtaResults.CanceledUpdateIsUndone` | main/ota.cpp:34-53 | From any reachable state, an update that OFF, new settings or an abort has canceled never restarts the device, is over within nine worker steps with the running slot selected or a fault raised, and writes and selects nothing but by a call already past its check |

## Left out

- Trigonometry of the distance: the distance of a fix is an input, any real number.
- `ClockGuard` and `recent_utc_sync`: whether time may be trusted and whether it jumped are inputs of each control iteration.
- Calendar conversions for the budget: the day and month of a request are inputs. Of `strptime` and `strftime` only the fixed form of a date is modelled.
- CRC collisions of settings: a saved decision is bound to its settings by their equality.
- NVS, FreeRTOS, TLS, Wi-Fi, SNTP, the GPIO driver, the watchdog and real-time bounds: a store with three write outcomes, atomic critical sections, and a pin command that may fail stand for them.
- A mutex that times out is a change that is dropped, or a fault, as its caller has it.
- `migrate_password`, profile validation, certificates, sessions, cookies and HTTP routes.
- `Scheduler`, the event ring, diagnostics text, observation sequence numbers, enum-to-name functions: they would only add easy members.
- `parse_vehicle` and `parse_tokens`: what they make of a body is an input of the client.
- `Json::number`: its value comes from `strtod`.
- The x-txid and date header fields of a response, kept for diagnostics only.
- JSON and HTTP text: characters stand for bytes, and fixed output buffers for strings with a bound on their length.
- The recursive descent's one loop over both kinds of container is two methods here, one for each.
- `OtaSystem` after a bootloader rollback for which the other slot is not the previous program: nothing is claimed from there on.
- The SDK's own verification of an image is its answer to `esp_ota_end`.
- `ControlResults.HomeIsCommittedFirst`: the record is that of the reading; a write that lands before the decision is published is not undone.
- `PolicyRuns.DwellOverWholeRuns`: does not bound the relay itself, which may be masked without the policy's knowledge; `RelayDwell` does.
- `RelayDwell.RelayKeepsDwell`: the time of an edge is the one its iteration read, and the pin is taken to follow its command.
- `ClientLives.ClientKeepsItsChain`: assumes that a token the client accepts is one its server issued for that request, and that a request is processed before the next is sent or never.
- `Budgets.GrantsAreReserved`: compares with the reservations of the period on record; earlier periods are overwritten there.
