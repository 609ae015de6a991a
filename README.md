# botVPN core, modelled in Dafny

botVPN is a Telegram bot that sells WireGuard VPN subscriptions. An administrator
registers VPN servers and subscription plans through dialogs in the chat. A user
buys a plan with a Telegram payment. The bot then provisions a WireGuard peer on
a server over SSH and hands out the client configuration file. A background
checker marks expired subscriptions, revokes their VPN configurations, warns
users whose subscription ends soon, and sends administrators a report.

This project models the four parts that carry that logic:

- **the WireGuard manager** (`internal/vpn/wireguard.go`):
  - server setup: detecting the OS, installing the packages, generating keys,
    writing `wg0.conf` and starting the service;
  - client creation, removal, revocation, blocking, unblocking and the blocked check.

  The remote host is a value: the lines of `wg0.conf`, whether the key files
  exist, the file staged in `/tmp`, and the trace of every command sent. Each
  command's exit status and output comes from an oracle the caller supplies.
  Commands that read or edit `wg0.conf`, such as `grep`, `sed`, `test` and
  `echo >>`, take their result from the modelled file instead
  (`RemoteShell`, `PeerRegistry`, `Wireguard`, `WireguardClients`).
- **the database layer** (`internal/database/database.go`): a class whose tables
  are maps from id to row, with id counters (`Models`, `Database`).
- **the subscription checker** (`internal/scheduler/subscription_checker.go`):
  - the sweep over active subscriptions, with the expire-then-revoke-then-notify
    order and its `continue` on failure;
  - the expiry warning window;
  - the administrator report (`Scheduler`).
- **the bot handlers** (`internal/handlers/bot_handlers.go`):
  - the per-user dialog state machine of `handleStateBasedInput`;
  - callback-data and payment-payload parsing;
  - the purchase checks, plan actions, and the small formatting helpers
    (`BotHelpers`, `Dialog`).

The string and number functions of Go's standard library that the core relies on
are modelled in `GoText`:

- `strings.Split`, `strings.TrimSpace`, `strings.Contains`, `strings.TrimSuffix`;
- `strconv.Atoi` and `strconv.Itoa`, with 64-bit bounds;
- `filepath.Split`.

## Model

| member | source | states |
|---|---|---|
| GoText.Wrap64 | internal/vpn/wireguard.go:778 | Go's 64-bit `maxIP+1` wraps around: the result always lies in the int64 range and is the input itself when the input already fits |
| GoText.TrimSuffix | internal/vpn/wireguard.go:199 | with the suffix present, the result followed by the suffix is the input; otherwise the input is returned unchanged |
| GoText.TrimRightStrips | internal/vpn/wireguard.go:327 | TrimRight keeps a prefix of the input that does not end in white space, and everything cut off is white space |
| GoText.TrimLeftStrips | internal/vpn/wireguard.go:327 | TrimLeft keeps a suffix of the input that does not start with white space, and everything cut off is white space |
| GoText.AtoiValue | internal/handlers/bot_handlers.go:372-374 | the value an ignored Atoi error leaves: the parsed number when parsing succeeds, 0 for text without digits, always within int64 |
| GoText.AtoiItoa | internal/handlers/bot_handlers.go:1327 | parsing the decimal text of any int64 gives that number back |
| GoText.NatToStringValue | internal/handlers/bot_handlers.go:1327 | the digits printed for n read back as n |
| GoText.FileName | internal/vpn/wireguard.go:196 | the file part of a path: contains no '/', is a suffix of the path, and is preceded by '/' when shorter than the path |
| GoText.SplitWithoutSep | internal/handlers/bot_handlers.go:415 | splitting text that lacks the separator gives the text alone |
| GoText.SplitAtFirst | internal/handlers/bot_handlers.go:415 | splitting a + sep + b gives a, followed by the split of b |
| GoText.SplitJoin | internal/handlers/bot_handlers.go:415 | splitting pieces joined by a separator none of them contains gives back the pieces |
| GoText.JoinSplit | internal/vpn/wireguard.go:746 | joining the pieces of a split with the same separator gives back the text |
| GoText.TrimSpaceFramed | internal/vpn/wireguard.go:543 | TrimSpace removes exactly the white space around a word that neither starts nor ends with white space |
| GoText.TrimLeftAllSpace | internal/vpn/wireguard.go:327 | text made only of white space trims to the empty string |
| GoText.ContainsAppend | internal/vpn/wireguard.go:320 | a substring of s is still a substring of s followed by anything |
| GoText.ContainsPrepend | internal/vpn/wireguard.go:320 | a substring of s is still a substring of anything followed by s |
| GoText.NotContainsShort | internal/vpn/wireguard.go:320 | text shorter than the pattern does not contain it |
| Database.ServerProblem | internal/database/database.go:160-178 | a server is accepted exactly when its IP, port (1..65535), SSH user and password are set and its client limit is positive; the first failing check names the error |
| Database.Refreshed | internal/database/database.go:433-450 | re-registering a known Telegram user keeps the row's id, Telegram id and admin flag and takes the new names |
| Database.Rewritten | internal/database/database.go:596-612 | UpdateSubscription rewrites status, data usage and last connection and leaves every other column as it was |
| Database.WriteSubscription | internal/database/database.go:596-612 | the table keeps its id set; only the row with the given id changes, and a missing id changes nothing |
| Database.DB.constructor | internal/database/database.go:35-135 | InitTables on an empty database gives empty tables satisfying the invariant |
| Database.DB.GetServerByID | internal/database/database.go:138-145 | returns the stored row exactly when the id is present, and NoRows otherwise |
| Database.DB.GetUserByID | internal/database/database.go:278-286 | returns the stored row exactly when the id is present, and NoRows otherwise |
| Database.DB.GetSubscriptionPlanByID | internal/database/database.go:463-471 | returns the stored row exactly when the id is present, and NoRows otherwise |
| Database.DB.GetSubscriptionByID | internal/database/database.go:539-547 | returns the stored row exactly when the id is present, and NoRows otherwise |
| Database.DB.AddServer | internal/database/database.go:158-236 | invalid fields or a duplicate IP leave the table unchanged and return the error; otherwise the server is stored under the next id with zero current clients |
| Database.DB.UpdateServer | internal/database/database.go:237-257 | succeeds exactly for a stored id and replaces that row; a missing id returns NoRows and changes nothing |
| Database.DB.FindTelegramId | internal/database/database.go:269-276 | finds a row with the given Telegram id when one exists, and reports none only when no row has it |
| Database.DB.GetUserByTelegramID | internal/database/database.go:269-276 | succeeds exactly when some stored user has the Telegram id and returns that stored row, and NoRows otherwise |
| Database.DB.AddUser | internal/database/database.go:433-450 | a known Telegram id refreshes that row in place; a new one is stored under the next id |
| Database.DB.SetUserAdmin | internal/database/database.go:423-430 | sets the admin flag of a stored user and changes nothing else; a missing id changes nothing |
| Database.DB.GetAllAdmins | internal/database/database.go:311-318 | lists every admin row once, and only admin rows |
| Database.DB.AddSubscriptionPlan | internal/database/database.go:474-489 | stores the plan under the next id |
| Database.DB.UpdateSubscriptionPlan | internal/database/database.go:492-508 | succeeds exactly for a stored id and replaces that row; a missing id returns NoRows and changes nothing |
| Database.DB.DeleteSubscriptionPlan | internal/database/database.go:511-516 | a soft delete: clears the plan's active flag and keeps the row |
| Database.DB.GetAllSubscriptionPlans | internal/database/database.go:454-461 | lists every active plan once, and only active plans |
| Database.DB.AddSubscription | internal/database/database.go:549-574 | a missing user, server or plan violates a foreign key and stores nothing; otherwise the row is stored under the next id and the server's client count goes up by one |
| Database.DB.UpdateSubscription | internal/database/database.go:596-612 | the table becomes WriteSubscription of the old table |
| Database.SoftDeletedPlanFound | internal/database/database.go:511-516 | after a soft delete the plan is still found, inactive, and otherwise unchanged |
| Database.RefreshedIdempotent | internal/database/database.go:433-450 | registering the same user twice has the effect of registering once |
| Database.WriteSubscriptionKeeps | internal/database/database.go:596-612 | an update never changes a row's id, owner, server, plan, dates or config path |
| Database.StoredIpTaken | internal/database/database.go:198-209 | after a server is stored, its IP counts as taken, so a second AddServer with that IP is refused |
| Scheduler.UserInfo | internal/scheduler/subscription_checker.go:275-278 | the report names a user by username, or by "ID: " and the Telegram id when the username is empty |
| Scheduler.GetActiveSubscriptions | internal/scheduler/subscription_checker.go:134-144 | returns every active subscription once, and only active ones, as stored |
| Scheduler.NotifyUser | internal/scheduler/subscription_checker.go:164-236 | sends at most one message, and sends it exactly when both the user and the plan are found |
| Scheduler.RevokeVPNConfig | internal/scheduler/subscription_checker.go:152-162 | revokes through the subscription's server and config path; a missing server sends nothing and fails |
| Scheduler.CheckOne | internal/scheduler/subscription_checker.go:80-120 | one subscription of the sweep: an expired one is stored as expired only when the update succeeds, and no other row changes |
| Scheduler.BuildReport | internal/scheduler/subscription_checker.go:238-290 | the report is the specification ReportOf of the expired subscriptions |
| Scheduler.NotifyAdmins | internal/scheduler/subscription_checker.go:238-304 | every admin receives the report once, and nobody else does |
| Scheduler.Sweep | internal/scheduler/subscription_checker.go:80-121 | the loop over subscriptions emits SweepCalls, reports Reported and leaves the table as Persisted |
| Scheduler.CheckExpiredSubscriptions | internal/scheduler/subscription_checker.go:64-132 | sweeps exactly the active subscriptions; admins get the report only when something expired, and then every admin gets it |
| Scheduler.DeadlineIsNotExpiry | internal/scheduler/subscription_checker.go:82 | at the end instant itself a subscription is not yet expired; it has 0 days left and is warned |
| Scheduler.WarnWindow | internal/scheduler/subscription_checker.go:110-113 | a live subscription is warned exactly when less than four whole days remain, since the day count is truncated |
| Scheduler.PersistedRows | internal/scheduler/subscription_checker.go:86-91 | after the sweep, each swept row is expired exactly when it had expired and its update succeeded; the key set and unswept rows are unchanged |
| Scheduler.ReportedExactly | internal/scheduler/subscription_checker.go:86-109 | the report list holds exactly the expired subscriptions that were persisted and revoked, each marked expired |
| Scheduler.SweepOrder | internal/scheduler/subscription_checker.go:86-120 | every revoke follows the expiry write of the same subscription, and warnings go only to subscriptions inside the warning window |
| Scheduler.ReportLinesNumbered | internal/scheduler/subscription_checker.go:260-287 | the report lines carry the positions of their subscriptions in the expired list, in increasing order |
| Scheduler.ReportLineFound | internal/scheduler/subscription_checker.go:260-287 | an expired subscription whose user and plan are found has its line in the report |
| BotHelpers.IsAdmin | internal/handlers/bot_handlers.go:49-56 | a user is an admin exactly when their id is in the configured list |
| BotHelpers.NoColonIgnored | internal/handlers/bot_handlers.go:415-419 | callback data without ':' is ignored |
| BotHelpers.UnknownActionIgnored | internal/handlers/bot_handlers.go:424-485 | an action outside the known list is ignored |
| BotHelpers.PlanStatusNeverHandled | internal/handlers/bot_handlers.go:485-512 | the plan_status callback is never dispatched, because its branch sits inside another case |
| BotHelpers.CancelEditIgnored | internal/handlers/bot_handlers.go:1827 | the cancel-edit button's data "plan:view:<id>" does not match any case and is ignored |
| BotHelpers.TwoPartsIgnored | internal/handlers/bot_handlers.go:428-468 | the actions that need three parts do nothing when they are given two |
| BotHelpers.PlanActionRoundTrip | internal/handlers/bot_handlers.go:437-443 | data formatted as plan_action:<action>:<id> parses back to that action and plan id |
| BotHelpers.PayloadRoundTrip | internal/handlers/bot_handlers.go:975-985 | the invoice payload written as "plan:<id>" parses back to the id |
| BotHelpers.PayloadExact | internal/handlers/bot_handlers.go:975-985 | a payload accepted by the parser is exactly "plan:" followed by one colon-free number |
| BotHelpers.FirstAvailable | internal/handlers/bot_handlers.go:1001-1007 | picks the first active server with room, and reports none only when no server qualifies |
| BotHelpers.CheckBuyPlan | internal/handlers/bot_handlers.go:1283-1319 | a missing plan, an inactive plan or no free server each give their error; otherwise returns the stored active plan and the first free server |
| BotHelpers.CheckPayment | internal/handlers/bot_handlers.go:975-1012 | a bad payload, a missing plan or no free server each give their error; otherwise returns the stored plan and the first free server; it never checks the active flag |
| BotHelpers.MaskPassword | internal/handlers/bot_handlers.go:2149-2155 | two characters or fewer become "**"; longer passwords keep their first and last byte and star every byte between |
| BotHelpers.MaskHidesMiddle | internal/handlers/bot_handlers.go:2149-2155 | passwords of the same length with the same first and last byte mask to the same text |
| BotHelpers.FormatBytes | internal/handlers/bot_handlers.go:1191-1202 | below 1024 prints plain bytes; otherwise picks the largest unit whose size does not exceed the number |
| BotHelpers.SeventhPower | internal/handlers/bot_handlers.go:1191-1202 | the largest divisor the lookup can reach, 1024^7, exceeds every int64, so the unit index stays within the unit list |
| BotHelpers.StatusDistinct | internal/handlers/bot_handlers.go:2158-2172 | the active and inactive status texts and emojis are different |
| Dialog.BotHandler.constructor | internal/handlers/bot_handlers.go:38-47 | a new handler has no dialog states |
| Dialog.BotHandler.HandleStateBasedInput | internal/handlers/bot_handlers.go:148-402 | the new state map and the requests sent are the specification functions StatesAfter and RequestsAfter of the old map |
| Dialog.BotHandler.StartServerAddition | internal/handlers/bot_handlers.go:2075-2085 | the chat enters the first stage of the add-server dialog |
| Dialog.BotHandler.HandlePlanAction | internal/handlers/bot_handlers.go:1775-1905 | edit starts the edit dialog with the plan's current values; add starts the add-plan dialog; confirm_delete soft-deletes a stored plan; nothing else changes state or plans |
| Dialog.BotHandler.StartServerEditing | internal/handlers/bot_handlers.go:1966-1979 | a stored server puts the chat into editing_server with its id; a missing one changes nothing |
| Dialog.BotHandler.ChoosePlanStatus | internal/handlers/bot_handlers.go:485-512 | the status choice the unreachable plan_status branch was meant to apply: it records the choice, then finishes the edit as the status stage does |
| Dialog.MenuFirst | internal/handlers/bot_handlers.go:150-164 | a menu button, or a user with no dialog, changes no state and sends nothing |
| Dialog.UnknownStageDropped | internal/handlers/bot_handlers.go:399-401 | an unknown stage is deleted |
| Dialog.RejectedKeepsState | internal/handlers/bot_handlers.go:173-178 | input that fails validation keeps the dialog where it is |
| Dialog.Advance | internal/handlers/bot_handlers.go:167-348 | accepted input is stored under the stage's key and moves the dialog to the next stage |
| Dialog.KeepDot | internal/handlers/bot_handlers.go:297-348 | "." in an edit stage keeps the current value and moves on |
| Dialog.FinishServer | internal/handlers/bot_handlers.go:200-236 | the last stage ends the dialog and runs the server setup; the server is added only when the setup succeeds |
| Dialog.AddServerDialog | internal/handlers/bot_handlers.go:167-236 | five valid answers lead through every stage to the setup and the added server, built from those answers |
| Dialog.AddPlanDialog | internal/handlers/bot_handlers.go:239-294 | four valid answers end the dialog with the plan built from them, active |
| Dialog.EditDotsReachStatus | internal/handlers/bot_handlers.go:297-368 | answering "." four times keeps every current value and reaches the status stage |
| Dialog.EditedPlanOf | internal/handlers/bot_handlers.go:369-384 | the plan written at the end of the edit is built from the stored answers |
| Dialog.KeptDataReads | internal/handlers/bot_handlers.go:1781-1806 | the edit dialog starts from the plan's own id, duration, name, description and active flag, with no status answer yet |
| Dialog.FinishStatus | internal/handlers/bot_handlers.go:348-392 | any non-menu text at the status stage writes the edited plan and ends the dialog |
| Dialog.ChoiceStored | internal/handlers/bot_handlers.go:485-512 | the status choices active, inactive and current store true, false and the plan's present flag |
| Dialog.EditKeepingEverythingDeactivates | internal/handlers/bot_handlers.go:348-392 | as written, an edit that keeps every value still saves the plan as inactive |
| Dialog.EditKeepingEverythingIntended | internal/handlers/bot_handlers.go:485-512 | with the intended status step, the saved plan keeps every value and takes the chosen status |
| Dialog.ChosenPlan | internal/handlers/bot_handlers.go:348-392 | any stored answers that agree with a plan finish as that plan with the chosen status |
| Dialog.SetupBeforeAdd | internal/handlers/bot_handlers.go:219-233 | a server is only ever added right after its setup, and only when the setup succeeded |
| Dialog.StateStep | internal/handlers/bot_handlers.go:166-401 | each stage's step agrees with the specification StepOf |
| Dialog.AddServerStep | internal/handlers/bot_handlers.go:167-236 | each add-server stage's step agrees with StepOf |
| Dialog.AddPlanStep | internal/handlers/bot_handlers.go:239-294 | each add-plan stage's step agrees with StepOf |
| Dialog.EditPlanStep | internal/handlers/bot_handlers.go:297-392 | each edit-plan stage's step agrees with StepOf |
| Dialog.EditCheckedStep | internal/handlers/bot_handlers.go:317-348 | the price and duration edit stages validate their input unless it is "." |
| PeerRegistry.LinesOfText | internal/vpn/wireguard.go:746 | text written as lines, each ended by a newline, reads back as those lines |
| PeerRegistry.TextAppend | internal/vpn/wireguard.go:793 | appending lines to a file appends their text |
| PeerRegistry.Matching | internal/vpn/wireguard.go:741 | grep keeps only lines that contain the pattern |
| PeerRegistry.Without | internal/vpn/wireguard.go:833 | grep -v keeps only lines that do not contain the pattern |
| PeerRegistry.CountMatching | internal/vpn/wireguard.go:320 | grep -c counts the matching lines |
| PeerRegistry.WithoutAppend | internal/vpn/wireguard.go:833 | grep -v distributes over concatenated files |
| PeerRegistry.MatchingAppend | internal/vpn/wireguard.go:741 | grep distributes over concatenated files |
| PeerRegistry.AppendedLines | internal/vpn/wireguard.go:782-798 | the echoed peer entry adds the six lines: empty, "# name", [Peer], PublicKey, AllowedIPs, empty |
| PeerRegistry.BlockLineCases | internal/vpn/wireguard.go:238 | the sed script renames the client's comment, comments out every [Peer], PublicKey and AllowedIPs line, and leaves the rest |
| PeerRegistry.UnblockLineCases | internal/vpn/wireguard.go:280 | the unblock script restores the client's comment, re-enables every disabled line, and leaves the rest |
| PeerRegistry.BlockEffect | internal/vpn/wireguard.go:238 | line by line over a whole file, Block acts as BlockLineCases says |
| PeerRegistry.UnblockEffect | internal/vpn/wireguard.go:280 | line by line over a whole file, Unblock acts as UnblockLineCases says |
| PeerRegistry.BlockIdempotent | internal/vpn/wireguard.go:212-251 | blocking twice has the effect of blocking once |
| PeerRegistry.UnblockIdempotent | internal/vpn/wireguard.go:254-293 | unblocking twice has the effect of unblocking once |
| PeerRegistry.UnblockAfterBlock | internal/vpn/wireguard.go:238-280 | unblocking restores a blocked file when it held no disabled line and no blocked comment of that name |
| PeerRegistry.UnblockAfterBlockLossy | internal/vpn/wireguard.go:238-280 | a line that was disabled before blocking comes back enabled after unblocking |
| PeerRegistry.BlockDisablesOtherPeers | internal/vpn/wireguard.go:238 | blocking one client also comments out another client's key and address lines |
| PeerRegistry.BlockOne | internal/vpn/wireguard.go:212-251 | the intended block touches only the named client's four lines and keeps the file's length |
| PeerRegistry.BlockOneWithoutName | internal/vpn/wireguard.go:212-251 | the intended block leaves a file without the client's comment unchanged |
| PeerRegistry.BlockOneLeavesOtherPeers | internal/vpn/wireguard.go:212-251 | the intended block leaves another client's entry unchanged |
| PeerRegistry.BlockOneBlocksPeer | internal/vpn/wireguard.go:238 | on the client's own entry, the intended block does what the sed script does |
| PeerRegistry.RemovalIsFilter | internal/vpn/wireguard.go:833 | the two-stage grep removal equals the first grep -v alone |
| PeerRegistry.RemovalNoMatch | internal/vpn/wireguard.go:833 | removal leaves a file without the client's comment unchanged |
| PeerRegistry.RemovalKeepsPeerLines | internal/vpn/wireguard.go:830-839 | removing a client drops only its comment line; its [Peer], PublicKey and AllowedIPs lines stay |
| PeerRegistry.RemoveEntry | internal/vpn/wireguard.go:830-839 | the intended removal drops the client's comment and the three lines after it, and never grows the file |
| PeerRegistry.RemoveEntryWithoutName | internal/vpn/wireguard.go:830-839 | the intended removal leaves a file without the client's comment unchanged |
| PeerRegistry.RemoveEntryUndoesAppend | internal/vpn/wireguard.go:782-839 | the intended removal of a just-appended client restores the file, apart from two empty lines |
| PeerRegistry.BlockedCommentSurvivesRemoval | internal/vpn/wireguard.go:833 | "#BLOCKED name" does not contain "# name", so removing a blocked client keeps all its lines |
| PeerRegistry.BlockedCheck | internal/vpn/wireguard.go:316-332 | a missing file reads as not blocked, a positive count as blocked, and a zero count ("0" then the echoed "0") as a parse error |
| PeerRegistry.ParseZeroThenEcho | internal/vpn/wireguard.go:320-329 | the output "0\n0\n" of a zero count fails to parse |
| PeerRegistry.ParseCount | internal/vpn/wireguard.go:327-332 | a positive count reads as blocked |
| PeerRegistry.BlockedAfterBlock | internal/vpn/wireguard.go:212-333 | after blocking a client that had a comment line, the check reports it blocked |
| PeerRegistry.BlockedPrefixName | internal/vpn/wireguard.go:320 | "#BLOCKED user_10" makes user_1 read as blocked, because grep matches substrings |
| PeerRegistry.NotBlockedIsError | internal/vpn/wireguard.go:320-329 | a file without the client's blocked comment gives a parse error, not false |
| PeerRegistry.MaxOctet | internal/vpn/wireguard.go:747-775 | the running maximum over the AllowedIPs lines starts at 1 and never drops below it |
| PeerRegistry.MaxOctetBounds | internal/vpn/wireguard.go:755-775 | every last octet read from a line is at most the maximum |
| PeerRegistry.MaxOctetAttained | internal/vpn/wireguard.go:747-775 | the maximum is 1, or is read from some line |
| PeerRegistry.NextClientIP | internal/vpn/wireguard.go:738-779 | the loop returns 10.0.0.<max+1>/32, the specification NextAddress of the grep result |
| PeerRegistry.OctetOfAllowed | internal/vpn/wireguard.go:755-767 | the line "AllowedIPs = 10.0.0.n/32" yields octet n |
| PeerRegistry.NextAddressIncreases | internal/vpn/wireguard.go:738-798 | after the peer with the next address is appended, the following allocation is one higher |
| PeerRegistry.NextAfterAllocation | internal/vpn/wireguard.go:738-798 | an appended peer raises the maximum by one |
| PeerRegistry.NextAddressOfConf | internal/vpn/wireguard.go:738-779 | the next address is one past the largest last octet among the AllowedIPs lines of the file |
| PeerRegistry.NextAfterSingle | internal/vpn/wireguard.go:738-779 | one peer at 10.0.0.n makes the next address 10.0.0.(n+1) |
| PeerRegistry.ServerConfigOneLine | internal/vpn/wireguard.go:562-568 | the server config is made of single lines when the key and interface are |
| PeerRegistry.PortFallback | internal/vpn/wireguard.go:722-732 | with no ListenPort line the port is the default 51820 |
| PeerRegistry.PortOfServerConfig | internal/vpn/wireguard.go:562-568 | the port read back from the config setup writes is 51820 |
| PeerRegistry.PortOfAssignment | internal/vpn/wireguard.go:722-732 | a single "key = value" line yields the trimmed value as the port |
| PeerRegistry.ClientConfigRead | internal/vpn/wireguard.go:801-818 | the client config text reads back as its lines, with the CIDR suffix of the address dropped |
| PeerRegistry.ClientName | internal/vpn/wireguard.go:189-199 | an empty path or empty name is an error; a name has no '/', and the path ends in the name with or without ".conf" |
| PeerRegistry.ClientNameOfConfigPath | internal/vpn/wireguard.go:821 | the path the manager writes for a client gives that client's name back |
| PeerRegistry.ClientNameOfDirectory | internal/vpn/wireguard.go:196-199 | a path ending in '/' has an empty file name and is refused |
| PeerRegistry.ClientNameOfBareSuffix | internal/vpn/wireguard.go:196-199 | the file name ".conf" alone is refused |
| PeerRegistry.ClientNameWithoutSuffix | internal/vpn/wireguard.go:196-199 | a file name without ".conf" is taken whole as the client name |
| Wireguard.Shells | internal/vpn/wireguard.go:394-414 | one plain shell command is sent per text, in order |
| Wireguard.RunProbe | internal/vpn/wireguard.go:515-536 | a probe command sends once and answers yes exactly when it ran and the probed file exists |
| Wireguard.Attempted | internal/vpn/wireguard.go:436-459 | required installer commands run up to and including the first failure |
| Wireguard.UntilSuccess | internal/vpn/wireguard.go:461-488 | fallback installers run up to and including the first success |
| Wireguard.AttemptedStopsAtFailure | internal/vpn/wireguard.go:436-459 | every command before the last one sent succeeded, and all succeed exactly when every command ran and the last succeeded |
| Wireguard.UntilSuccessFound | internal/vpn/wireguard.go:461-488 | a fallback succeeds exactly when the last one tried succeeded; with no success every fallback was tried |
| Wireguard.IsWireguardInstalled | internal/vpn/wireguard.go:417-425 | installed exactly when `which wg` runs and prints something other than white space |
| Wireguard.TryGenericInstallers | internal/vpn/wireguard.go:461-488 | the generic installers run until one succeeds; none succeeding is an unsupported OS |
| Wireguard.InstallAndCheck | internal/vpn/wireguard.go:491-501 | the install command runs first and `which wg` runs only after it succeeds; each failure has its error |
| Wireguard.InstallDebian | internal/vpn/wireguard.go:436-443 | apt update, install and check run in order, stopping at the first failure, which names the error |
| Wireguard.InstallTwoStep | internal/vpn/wireguard.go:444-459 | on RedHat, Arch and Alpine the optional EPEL step runs first, then install and check stop at the first failure |
| Wireguard.RunOptional | internal/vpn/wireguard.go:446-452 | EPEL is installed only on RedHat-like systems that need it, and its failure is ignored |
| Wireguard.InstallPackages | internal/vpn/wireguard.go:434-495 | the OS family picks the installer sequence; an unknown OS falls back to the generic installers |
| Wireguard.InstallWireguard | internal/vpn/wireguard.go:428-505 | a failed os-release read is an OS detection failure; otherwise the packages for the detected family are installed |
| Wireguard.NetInterface | internal/vpn/wireguard.go:550-559 | the interface is the trimmed route output, or eth0 when that fails or is empty |
| Wireguard.ReadNetInterface | internal/vpn/wireguard.go:550-559 | sends the route command once and returns NetInterface of its result |
| Wireguard.CheckConfigured | internal/vpn/wireguard.go:515-524 | a server counts as configured exactly when both wg0.conf and the public key exist |
| Wireguard.GenerateKeys | internal/vpn/wireguard.go:527-536 | key generation creates both key files; a failure or missing file stops setup with its error |
| Wireguard.ReadPrivateKey | internal/vpn/wireguard.go:539-547 | an unreadable or empty private key stops setup; otherwise the trimmed key is returned |
| Wireguard.PrepareServerConfig | internal/vpn/wireguard.go:527-559 | the key and interface steps run in order, each failure at its step with its error and trace; success yields the key and interface |
| Wireguard.PlaceServerConfig | internal/vpn/wireguard.go:570-587 | the config is staged, moved into place and made private; each failure leaves the matching partial state |
| Wireguard.StartService | internal/vpn/wireguard.go:589-605 | forwarding, service start and the interface check run in order, stopping at the first failure |
| Wireguard.WriteServerConfig | internal/vpn/wireguard.go:527-606 | the server and result are those of the key, place and service stages run in order, each only after the previous one succeeded |
| Wireguard.FreshStopsAtFirstFailure | internal/vpn/wireguard.go:527-605 | the ten fresh-setup commands are sent in order, each only after every earlier one passed; the setup succeeds exactly when all ten pass, and otherwise reports the error of the first that did not |
| Wireguard.FreshHostInOrder | internal/vpn/wireguard.go:527-605 | the trace after a fresh setup is the trace before it followed by the commands FreshStopsAtFirstFailure describes |
| Wireguard.SetupServerConfig | internal/vpn/wireguard.go:508-608 | a mkdir failure stops setup; an existing config and public key end it successfully with nothing changed; otherwise the fresh setup runs |
| Wireguard.ConfigStartsWithMkdir | internal/vpn/wireguard.go:508-513 | setupServerConfig sends the mkdir first, whatever follows |
| Wireguard.ConfigOutcomeInOrder | internal/vpn/wireguard.go:508-608 | without an existing config, the mkdir and the probes are followed by the ten fresh commands, stopping at the first failure, whose error is reported |
| Wireguard.ConfigOutcomeReady | internal/vpn/wireguard.go:508-608 | a successful setupServerConfig leaves wg0.conf and the server's public key |
| Wireguard.ProvisionServer | internal/vpn/wireguard.go:72-101 | `which wg`, then the install only when WireGuard is missing, then setupServerConfig only when the install succeeded; every failure returns its error |
| Wireguard.InstalledSkipsInstall | internal/vpn/wireguard.go:76-97 | when `which wg` finds WireGuard, the next command is setupServerConfig's mkdir: no install command is sent |
| Wireguard.FailedInstallStops | internal/vpn/wireguard.go:83-89 | a failed install returns an error, leaves wg0.conf alone and never sends the mkdir |
| Wireguard.InstallSendsNoMkdir | internal/vpn/wireguard.go:428-505 | installing keeps the earlier trace and never sends the mkdir of the configuration directory |
| Wireguard.ProvisionedReady | internal/vpn/wireguard.go:72-104 | successful provisioning leaves wg0.conf and the server's public key |
| Wireguard.SetupServer | internal/vpn/wireguard.go:42-105 | a refused or timed-out connection fails without sending anything; success implies a connection, a config and a public key |
| WireguardClients.GenerateClientKeys | internal/vpn/wireguard.go:651-668 | generates the private key, derives the public key from it, and fails at the first failing step |
| WireguardClients.EnsureServerKeys | internal/vpn/wireguard.go:675-697 | existing server keys are used; otherwise mkdir, keygen and chmod run in order, stopping at the first failure |
| WireguardClients.FetchPublicIP | internal/vpn/wireguard.go:711-719 | the curl answer is used when it succeeds; otherwise `hostname -I` is tried |
| WireguardClients.ReadServerPort | internal/vpn/wireguard.go:722-732 | the port is read from the ListenPort line and is never empty |
| WireguardClients.ReadPublicKey | internal/vpn/wireguard.go:700-708 | an unreadable or empty server public key is an error; otherwise the trimmed key is returned |
| WireguardClients.ReadServerInfo | internal/vpn/wireguard.go:700-732 | the returned key is the trimmed, non-empty key file, and the port is the one the config states |
| WireguardClients.FreshServerPort | internal/vpn/wireguard.go:562-732 | a client of a freshly configured server is told port 51820 |
| WireguardClients.GetServerInfo | internal/vpn/wireguard.go:671-735 | the key step, then the key, IP and port reads, in order and stopping at the first failure; success implies a non-empty public key, the config's port, and an unchanged config |
| WireguardClients.ServerInfoKeepsConf | internal/vpn/wireguard.go:671-735 | getServerInfo changes only the key files, and only extends the trace |
| WireguardClients.ServerInfoErrors | internal/vpn/wireguard.go:671-735 | getServerInfo fails only for reasons of its own, never with a registration or local-write failure |
| WireguardClients.GetNextClientIP | internal/vpn/wireguard.go:738-779 | sends one grep and returns NextAddress of the file's AllowedIPs lines |
| WireguardClients.AddClientToServer | internal/vpn/wireguard.go:782-798 | on success wg0.conf gains exactly the client's six-line peer block at its end; a failure changes nothing |
| WireguardClients.RestartWireguard | internal/vpn/wireguard.go:842-849 | sends the restart once; the result follows its exit status |
| WireguardClients.CreateLocalClientConfig | internal/vpn/wireguard.go:801-827 | a successful write adds exactly the client's config file at configDir/name.conf, and the name reads back from that path |
| WireguardClients.RegisterClient | internal/vpn/wireguard.go:128-144 | grep, append, restart in order, stopping at the first failure; wg0.conf gains the peer entry exactly when the append succeeded, and stays changed if the restart then fails |
| WireguardClients.RegisterOk | internal/vpn/wireguard.go:128-144 | a successful registration sent the grep, the append and the restart, the last two succeeded, and the address is the grep's next one |
| WireguardClients.RegisterFailure | internal/vpn/wireguard.go:134-144 | a registration fails only at the append or the restart; a failed append leaves wg0.conf alone, a failed restart leaves the peer entry in it |
| WireguardClients.ProvisionClient | internal/vpn/wireguard.go:116-152 | keys, server info, registration and local write in order, stopping at the first failure; on success the local file holds the client config for the trimmed keys, the server info and the address, wg0.conf holds the peer, and the commands were sent in order |
| WireguardClients.CreationInOrder | internal/vpn/wireguard.go:116-152 | a successful creation sent the keygen, the pubkey of its trimmed output, getServerInfo's commands, the grep, the append and the restart, in that order; the keys are the trimmed outputs and the restart succeeded |
| WireguardClients.CreationFailure | internal/vpn/wireguard.go:116-152 | a failed creation writes no local file; a failure before the append leaves wg0.conf alone, and one at the restart or the local write leaves the peer entry in it |
| WireguardClients.CreateClientConfig | internal/vpn/wireguard.go:108-153 | no connection means no change; once connected, the outcome of the creation run: on success the local file holds the config for the trimmed keys, the non-empty server key and the configured port, wg0.conf holds the peer, and keygen, pubkey, server info, grep, append and a successful restart were sent in that order |
| WireguardClients.RemoveFromServer | internal/vpn/wireguard.go:830-839 | on success wg0.conf loses exactly the lines that contain "# name", and the service is restarted |
| WireguardClients.RemoveLocalConfig | internal/vpn/wireguard.go:177-183 | a missing file is not an error; a failed delete keeps the files; success deletes just that file |
| WireguardClients.RemoveClient | internal/vpn/wireguard.go:156-186 | no connection changes nothing; once connected, a failed filter is RemoveFailed with wg0.conf and the local files kept, a failed restart is RestartFailed with the filtered wg0.conf and the local files kept, and only after a successful restart is the local file deleted; success means the filter and the restart were sent and succeeded |
| WireguardClients.RevokeClientConfig | internal/vpn/wireguard.go:189-209 | a bad path or no connection changes nothing; otherwise RemoveClient's outcome for the name taken from the path, with the same errors and the restart before the local delete |
| WireguardClients.BlockOnServer | internal/vpn/wireguard.go:238-250 | a failed sed is BlockFailed with only the sed sent; otherwise wg0.conf is Block of the old file, the restart follows, and the result is the restart's |
| WireguardClients.UnblockOnServer | internal/vpn/wireguard.go:280-292 | a failed sed is UnblockFailed with only the sed sent; otherwise wg0.conf is Unblock of the old file, the restart follows, and the result is the restart's |
| WireguardClients.BlockClient | internal/vpn/wireguard.go:212-251 | a bad path or no connection changes nothing; otherwise BlockOnServer's outcome for the name taken from the path; success means the sed and a successful restart, with wg0.conf blocked |
| WireguardClients.UnblockClient | internal/vpn/wireguard.go:254-293 | a bad path or no connection changes nothing; otherwise the reverse sed and the restart with UnblockFailed or RestartFailed; success means the sed and a successful restart, with wg0.conf unblocked |
| WireguardClients.BlockOutcomeOk | internal/vpn/wireguard.go:238-250 | a successful block sent exactly the sed and the restart, the restart succeeded, and wg0.conf is Block of the old file |
| WireguardClients.UnblockOutcomeOk | internal/vpn/wireguard.go:280-292 | a successful unblock sent exactly the reverse sed and the restart, the restart succeeded, and wg0.conf is Unblock of the old file |
| WireguardClients.CheckBlockedOnServer | internal/vpn/wireguard.go:316-332 | a missing file reads as not blocked, a positive count as blocked, and no blocked line as a parse error |
| WireguardClients.IsClientBlocked | internal/vpn/wireguard.go:296-333 | a bad path or no connection fails without sending; otherwise the answer is CheckBlockedOnServer's for the name taken from the path |

## Left out

- SSH transport: connectToServer, the session handling of executeCommand and the
  upload steps of writeFileToServer are not modelled. Each command's success
  and output come from an oracle, and the connection outcome is a parameter.
- Concurrency: the 30-second connection timeout goroutine of SetupServer is
  modelled only as its outcome, a parameter. The checker's ticker loop
  (Start, Stop) is not modelled.
- Floating point: plan prices and `%.2f` formatting appear only as a price-text
  parameter. `strconv.ParseFloat` is an oracle. The `%.1f` of formatBytes is
  replaced by the unit index and divisor it picks. `Hours()/24` is modelled on
  whole seconds.
- Calendar dates: times are whole seconds on one clock. Date formatting and
  created_at/updated_at columns are not modelled.
- Telegram: message texts, keyboards and the Bot API calls are not modelled.
  The model records who is sent what, not the wording.
- Database.DB.GetAllAdmins: does not promise the newest-first order of the
  query's `ORDER BY created_at DESC`, because the model keeps no creation time.
- Database.DB.GetAllSubscriptionPlans: promises no order. The query has no
  ORDER BY, so the database may return the active plans in any order.
- Scheduler.GetActiveSubscriptions: promises no order. The query has no ORDER BY,
  so the database may return the active subscriptions in any order.
- GetAllServers and its error path are not modelled. The purchase checks take
  the server list as a parameter.
- The transaction and error-wrapping paths of the database are not modelled. A
  database error other than a missing row or a constraint violation is not
  modelled.
- AddPayment and the part of handleSuccessfulPayment after the plan and server
  are chosen are not modelled. That part creates the client, the subscription
  and the payment, and sends the file. The model stops at CheckPayment.
- The UserState field PreviousState is not modelled, because the core never
  reads it.
- Dialog states are keyed by one user id. The source writes them under the chat
  id and reads them under the user id, which agree in private chats.
- handleServerAction branches other than editing_server are not modelled. Nor
  are handleUserAction, handleSubscriptionAction and the statistics views.
- The MkdirAll of the local config directory in CreateClientConfig is folded
  into the write outcome.
- GoText.JoinPath: models filepath.Join only for a clean directory, such as the
  bot's "vpn_configs". The Clean that filepath.Join applies to other
  directories is not modelled.

## Findings

| source | as written | input that shows it | evidently intended | confidence | as-written member | corrected member |
|---|---|---|---|---|---|---|
| internal/handlers/bot_handlers.go:485-512 | the `plan_status:` branch sits inside the server_confirm_delete case, so it never runs; the edit dialog then saves the plan with is_active false | edit a plan and answer "." at every stage | the status choice is applied and the plan keeps its other values | high, not executed | BotHelpers.PlanStatusNeverHandled, Dialog.EditKeepingEverythingDeactivates | Dialog.BotHandler.ChoosePlanStatus, Dialog.EditKeepingEverythingIntended |
| internal/vpn/wireguard.go:238 | the sed script comments out every `[Peer]`, `PublicKey` and `AllowedIPs` line in wg0.conf, whoever they belong to | block "bob" in a file that also holds the entry of "alice": alice's key and address lines are disabled too | only the named client's comment and the three lines after it change | high, not executed | PeerRegistry.BlockDisablesOtherPeers | PeerRegistry.BlockOne, PeerRegistry.BlockOneLeavesOtherPeers, PeerRegistry.BlockOneBlocksPeer |
| internal/vpn/wireguard.go:830-839 | `grep -v '# name'` removes only the comment line, so the second grep finds nothing to cut; the peer's `[Peer]`, `PublicKey` and `AllowedIPs` lines stay | remove a client right after adding it: its key and address remain in wg0.conf | the comment and the three lines after it are removed | high, not executed | PeerRegistry.RemovalKeepsPeerLines | PeerRegistry.RemoveEntry, PeerRegistry.RemoveEntryUndoesAppend |

The server-side methods (WireguardClients.BlockOnServer, WireguardClients.RemoveFromServer)
keep the commands as written, because they model what is sent to the host. The
corrected functions state what those commands were meant to do to wg0.conf.
