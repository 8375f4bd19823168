# Cloudflare dynamic-DNS updaters, modelled in Dafny

The repository has two scripts that keep a domain's Cloudflare DNS records
pointing at the host's current addresses:

- `cloudflareupdatedns/dnsupdate.py`. Its `CloudflareDNSUpdater` keeps lists
  of the changes made and the errors met during a run. Its `main` mails a
  status report.
- `updatecloudflaredns.py`. This is the log-only script.

A run of either script goes through these steps:

1. It verifies the API token.
2. It asks an echo service for the public IPv4 address.
3. With an interface given, it picks a permanent global IPv6 address from the
   output of `ip -6 addr show`.
4. It looks up the zone id.
5. It lists the A and AAAA records and makes three passes over the listings:
   - it updates every A record whose content is not the IPv4;
   - if there is an IPv6, it updates every AAAA record whose content is not
     the IPv6;
   - if asked, it creates an AAAA record for every A record whose name has no
     AAAA record.

   A dry run only announces each of these mutations.

The model is organised as follows:

- `common.dfy` (`Common`): Python truthiness, `or`, `startswith`, `in`,
  `split` and `join` on strings. It also holds the outcome of a request (a
  reply or a transport failure) and the way a step ends (go on, `SystemExit`,
  or an uncaught exception).
- `dns.dfy` (`Dns`) holds:
  - records and mutations;
  - the parts of the provider's replies the scripts read;
  - the token acceptance rule and the first-error rule;
  - the zone id rule;
  - `Service`, the answer the outside world gives to each request of one
    run. The n-th mutating request gets the answer `mutations(n)`.
- `reconcile.dfy` (`Reconcile`): the three passes of `update_dns`, the same
  in both scripts, as a specification `Plan` of the ordered mutations, with
  lemmas about which records get which mutation and in which order.
- `address.dfy` (`AddressSelection`): Python's `str.split()`, the line
  filter of `get_public_ip`, and the loop that collects the addresses.
- `settings.dfy` (`Settings`): where the credentials come from.
- `report.dfy` (`Report`): the lines of `generate_status_report` and the
  mail policy of `main`.
- `dnsupdate_run.dfy` (`UpdateRun`): `update_dns` of `dnsupdate.py` as a
  fold (`Execute`) of the plan over the provider's replies, with its lemmas.
- `dnsupdate.dfy` (`DnsUpdate`): the class `Updater`, whose methods change
  its fields as the script's methods do. Each method is proved against the
  functions above. `LookUp` specifies the three lookups and `Attempted`
  the lookups followed by `update_dns`. `RunScript` models `main`.
- `classic.dfy` (`Classic`): the same for `updatecloudflaredns.py`, with a
  fold `Replay` of the plan. There the warnings and errors the script logs
  are kept as events, and the actions it handles as a ghost trace.

Some behaviour of the code is kept as written:

- In `dnsupdate.py`, an unsuccessful reply whose `errors` list is empty makes
  `[0]` raise IndexError.
  - In `verify_api_key` nothing catches it. The run ends with a traceback and
    no mail.
  - In the record loops, `update_dns` catches it. It records "Failed to update
    DNS records: list index out of range" and exits.
- Truthiness is modelled as Python has it, so an empty IPv6 string counts as
  no IPv6.
- The `fe80` test is a textual prefix test.
- A config file that is not JSON is fatal in `dnsupdate.py` and only a warning
  in `updatecloudflaredns.py`.

## Model

| member | source | states |
|---|---|---|
| Reconcile.Scan | cloudflareupdatedns/dnsupdate.py:341-344 | a pass issues at most one mutation per record of its listing |
| Reconcile.ScanFits | cloudflareupdatedns/dnsupdate.py:341-358 | every mutation a pass issues has the pass's shape: an A update to the IPv4 of a record that differs from it, an AAAA update to the IPv6 of a record that differs from it, or a creation with the IPv6 for a name missing from the AAAA names |
| Reconcile.ScanPrefix | cloudflareupdatedns/dnsupdate.py:341-358 | the mutations issued for the first records of a listing come first |
| Reconcile.ScanHit | cloudflareupdatedns/dnsupdate.py:341-344 | a selected record gets its mutation, placed after those of the records before it |
| Reconcile.ScanOrder | cloudflareupdatedns/dnsupdate.py:341-344 | selected records get their mutations in listing order |
| Reconcile.SourceOf | cloudflareupdatedns/dnsupdate.py:341-344 | every mutation of a pass comes from a record the pass selects |
| Reconcile.Plan | cloudflareupdatedns/dnsupdate.py:340-358 | a run issues at most one mutation per A record in the A pass and in the creation pass, and one per AAAA record; with no IPv6, at most one per A record |
| Reconcile.PlanParts | cloudflareupdatedns/dnsupdate.py:340-358 | the plan is the A updates, then the AAAA updates if there is an IPv6, then the creations if `add_aaaa` is set and there is an IPv6; each part has its pass's shape |
| Reconcile.PlanGroupsInOrder | cloudflareupdatedns/dnsupdate.py:340-358 | all A updates come before all AAAA updates, which come before all creations |
| Reconcile.PlanUpdatesChangeContent | cloudflareupdatedns/dnsupdate.py:342-348 | no update rewrites a record with the content it already has |
| Reconcile.ARecordUpdatedIffStale | cloudflareupdatedns/dnsupdate.py:341-344 | an A record gets an update to the IPv4 exactly when its content differs from the IPv4; the update keeps its id, name, ttl and proxied flag |
| Reconcile.AUpdatesFromStaleRecords | cloudflareupdatedns/dnsupdate.py:341-344 | every A update of the plan is the update of an A record whose content differs from the IPv4 |
| Reconcile.AUpdatesInListingOrder | cloudflareupdatedns/dnsupdate.py:341-344 | two stale A records get their updates in listing order |
| Reconcile.NoIpv6NoAaaaActions | cloudflareupdatedns/dnsupdate.py:347-354 | with no IPv6, the plan holds only A updates, whatever `add_aaaa` is |
| Reconcile.AaaaRecordUpdatedIffStale | cloudflareupdatedns/dnsupdate.py:347-351 | with an IPv6, an AAAA record gets an update exactly when its content differs from the IPv6; the update keeps its id, name, ttl and proxied flag |
| Reconcile.CreationIffNameMissing | cloudflareupdatedns/dnsupdate.py:354-358 | an A record's name gets a creation with that record's ttl and proxied flag exactly when `add_aaaa` is set, there is an IPv6, the content is the IPv6 and no AAAA record has that name |
| Reconcile.DuplicateNamesEachCreated | cloudflareupdatedns/dnsupdate.py:355-358 | the name set is taken once, so two A records with the same missing name each get a creation, in listing order |
| AddressSelection.TokensAreMaximalRuns | cloudflareupdatedns/dnsupdate.py:137 | `line.split()` gives the texts of the maximal runs of non-whitespace characters, in order: each token is a non-empty run with whitespace or an end of the line on both sides, the runs do not overlap and come in increasing order, every non-whitespace character lies in one of them, and there is no token exactly when the line is all whitespace |
| AddressSelection.QualifyingLineHasTwoTokens | cloudflareupdatedns/dnsupdate.py:136-137 | a line containing `scope global` has a second whitespace token, so `line.split()[1]` cannot raise |
| AddressSelection.NoCandidatesIffNoneEligible | cloudflareupdatedns/dnsupdate.py:134-139 | no address is collected exactly when no line passes the filter |
| AddressSelection.FirstCandidateIsFirstEligible | cloudflareupdatedns/dnsupdate.py:134-141 | the first address collected is that of the first line that passes the filter |
| AddressSelection.SelectIpv6 | cloudflareupdatedns/dnsupdate.py:134-141 | the loop over the lines chooses the address of the first line that passes the filter, and none exactly when no line does |
| Settings.ResolveCredentials | cloudflareupdatedns/dnsupdate.py:392-397 | email from the command line over the config, key from `CF_API_KEY` over the config; the run can start exactly when both are non-empty |
| Report.RenderInjective | cloudflareupdatedns/dnsupdate.py:233-269 | different report lines render to different texts |
| Report.ReportTextLines | cloudflareupdatedns/dnsupdate.py:269 | splitting the joined report at newlines gives back its lines when no line holds a newline |
| Report.Placement | cloudflareupdatedns/dnsupdate.py:233-267 | a heading or notice is in the report exactly when it is in one of the blocks |
| Report.ReportBanner | cloudflareupdatedns/dnsupdate.py:237-245 | the dry-run notice is there exactly in dry-run mode and opens the report; the title and time follow |
| Report.ReportErrorsBlock | cloudflareupdatedns/dnsupdate.py:248-252 | "Errors:" appears exactly when there are errors, followed by one bullet per error in order |
| Report.ReportAddressesBlock | cloudflareupdatedns/dnsupdate.py:255-259 | the IP block follows the errors block; its IPv4 line shows "Not available" when unset; its IPv6 line, with "Not found" when unset, appears exactly when an interface is set |
| Report.ReportChangesBlock | cloudflareupdatedns/dnsupdate.py:262-267 | "Changes Made:" and the changes in order close the report when there are changes; "No changes were necessary." appears exactly when there are neither changes nor errors |
| Report.MailSubject | cloudflareupdatedns/dnsupdate.py:409-421 | a mail goes out exactly when `mail_to` is set and there are changes, errors or `force_report` (errors only, after an exit); the subject is the domain line with " [ERROR]" if there are errors, else " [UPDATED]" if there are changes, else nothing |
| UpdateRun.Announcement | cloudflareupdatedns/dnsupdate.py:192-197 | the change logged for a mutation starts with "Would " exactly in dry-run mode |
| UpdateRun.AnnouncementsAt | cloudflareupdatedns/dnsupdate.py:192-197 | the i-th change announced for a plan is the announcement of its i-th mutation, so changes are logged in plan order |
| UpdateRun.Perform | cloudflareupdatedns/dnsupdate.py:190-231 | one change is appended first; a dry run sends nothing and goes on; live, the request is sent, a transport failure records "API call failed" and exits, an unsuccessful reply records one error and goes on, and an empty `errors` list raises IndexError |
| UpdateRun.Execute | cloudflareupdatedns/dnsupdate.py:340-358 | performing a plan only appends to the changes, the errors and the requests sent |
| UpdateRun.ExecuteAppend | cloudflareupdatedns/dnsupdate.py:340-358 | performing two parts of a plan is performing the first, then the second if the run goes on |
| UpdateRun.ExecuteSettled | cloudflareupdatedns/dnsupdate.py:340-362 | once part of the plan stops the run, the rest is never performed |
| UpdateRun.ExecuteDryRun | cloudflareupdatedns/dnsupdate.py:192-194 | in a dry run every mutation of the plan is announced with "Would ...", in order; nothing is sent, no error is recorded and the run goes on |
| UpdateRun.ExecuteLive | cloudflareupdatedns/dnsupdate.py:196-231 | live, a prefix of the plan is announced and sent in order, and the whole plan when the run goes on |
| UpdateRun.ExecuteLiveStops | cloudflareupdatedns/dnsupdate.py:196-231 | live, errors are only appended, at most one per request; the run exits only after a transport failure with an error recorded, and raises only on an empty `errors` list |
| UpdateRun.ExecuteAccepted | cloudflareupdatedns/dnsupdate.py:196-231 | when the provider accepts every request, the whole plan is announced and sent in order with no error |
| UpdateRun.UpdateDnsStep | cloudflareupdatedns/dnsupdate.py:332-362 | `update_dns` only appends to the changes, the errors and the requests sent |
| UpdateRun.UpdateDnsExitsWithError | cloudflareupdatedns/dnsupdate.py:332-362 | `update_dns` lets no exception escape, keeps earlier errors, and exits only after recording a new error |
| UpdateRun.UpdateDnsDryRun | cloudflareupdatedns/dnsupdate.py:332-362 | a dry-run `update_dns` sends nothing; given both listings it announces the whole plan and records nothing |
| UpdateRun.UpdateDnsAccepted | cloudflareupdatedns/dnsupdate.py:332-362 | live, when the provider accepts every request, `update_dns` announces and sends the whole plan and goes on |
| DnsUpdate.Updater.constructor | cloudflareupdatedns/dnsupdate.py:45-71 | the settings are stored; no zone, no addresses, no changes, no errors, nothing sent |
| DnsUpdate.Updater.AddError | cloudflareupdatedns/dnsupdate.py:103-106 | appends one error and changes nothing else |
| DnsUpdate.Updater.LogChange | cloudflareupdatedns/dnsupdate.py:185-188 | appends one change and changes nothing else |
| DnsUpdate.Updater.VerifyApiKey | cloudflareupdatedns/dnsupdate.py:108-120 | goes on exactly when the token is accepted; a transport failure or a rejection records one error and exits; an empty `errors` list raises IndexError |
| DnsUpdate.Updater.GetPublicIp | cloudflareupdatedns/dnsupdate.py:122-148 | the IPv4 is the echo reply, and failing to get it records an error and exits; with an interface, the IPv6 is the chosen address, and no address, or a failed command, records exactly one error and leaves the IPv6 as it was; with no interface nothing is looked up or recorded |
| DnsUpdate.Updater.GetZoneId | cloudflareupdatedns/dnsupdate.py:175-183 | goes on exactly when the first zone has an id and stores it; otherwise records one error and exits |
| DnsUpdate.Updater.Send | cloudflareupdatedns/dnsupdate.py:190-231 | the new changes, errors, requests and ending are those `Perform` gives for the reply to this request |
| DnsUpdate.Updater.UpdateDnsRecord | cloudflareupdatedns/dnsupdate.py:190-210 | performs the update of the record's id to the new content, keeping its type, name, ttl and proxied flag |
| DnsUpdate.Updater.AddAaaaRecord | cloudflareupdatedns/dnsupdate.py:212-231 | performs the creation of an AAAA record with the given content, ttl and proxied flag |
| DnsUpdate.Updater.Interrupted | cloudflareupdatedns/dnsupdate.py:360-362 | an exception is recorded as "Failed to update DNS records: ..." and becomes an exit |
| DnsUpdate.Updater.Visit | cloudflareupdatedns/dnsupdate.py:341-358 | one iteration of a pass's loop leaves the state and ending of performing, after the earlier passes, the pass's mutations for the records up to and including this one |
| DnsUpdate.Updater.RunPass | cloudflareupdatedns/dnsupdate.py:341-358 | one pass's loop leaves the state of performing the pass's mutations after the earlier ones |
| DnsUpdate.Updater.UpdateDns | cloudflareupdatedns/dnsupdate.py:332-362 | the state and ending are those of `UpdateDnsStep`: the listings are fetched, the plan is performed, and any exception is recorded and becomes an exit |
| DnsUpdate.Updater.Prepare | cloudflareupdatedns/dnsupdate.py:402-404 | the token check, the addresses and the zone in turn: the ending, the errors recorded, the addresses and the zone id are those of `LookUp`; no change is logged and nothing is sent |
| DnsUpdate.Updater.Attempt | cloudflareupdatedns/dnsupdate.py:402-406 | the four steps in turn: the addresses and zone id are those of `LookUp`, and the changes, errors, requests and ending are those of `Attempted`, that is, the lookups' errors and then `UpdateDnsStep` on the listings and replies when the lookups go on; raises only IndexError with no error recorded; exits only after recording an error; a dry run sends nothing |
| DnsUpdate.Updater.GenerateStatusReport | cloudflareupdatedns/dnsupdate.py:233-269 | the text is the report's lines, in the fixed block order, joined with newlines |
| DnsUpdate.AppendErrors | cloudflareupdatedns/dnsupdate.py:248-252 | appends "Errors:", one bullet per error and a blank line exactly when there are errors |
| DnsUpdate.AppendAddresses | cloudflareupdatedns/dnsupdate.py:255-259 | appends the IP block: the IPv4 or "Not available", and the IPv6 or "Not found" with the interface exactly when an interface is set |
| DnsUpdate.AppendChanges | cloudflareupdatedns/dnsupdate.py:262-267 | appends "Changes Made:" and the change bullets when there are changes, else "No changes were necessary." when there are no errors either |
| DnsUpdate.AppendBullets | cloudflareupdatedns/dnsupdate.py:250-251 | appends one "• " bullet per item, in order |
| DnsUpdate.LookUpIpv6 | cloudflareupdatedns/dnsupdate.py:131-148 | with no interface nothing is looked up or recorded; otherwise the IPv6 becomes the chosen address when the command gives one, and else exactly one error is recorded and the IPv6 is kept |
| DnsUpdate.LookUp | cloudflareupdatedns/dnsupdate.py:108-183 | the lookups go on exactly when the token is accepted, the IPv4 is delivered and the zone has an id, and then hold that IPv4, that zone id and the IPv6 of `LookUpIpv6`; they raise only IndexError on an empty `errors` list with nothing recorded; an exit records an error; a rejected token changes no address or zone |
| DnsUpdate.AttemptedAccepted | cloudflareupdatedns/dnsupdate.py:402-406 | a fresh live run whose lookups go on, with both listings read and every request accepted, logs the whole plan as changes, records only the lookups' errors, sends the plan in order and goes on |
| DnsUpdate.AttemptedDryRun | cloudflareupdatedns/dnsupdate.py:402-406 | a fresh dry run sends nothing; when the lookups go on and both listings are read it announces the whole plan and records only the lookups' errors |
| DnsUpdate.SendReport | cloudflareupdatedns/dnsupdate.py:408-421 | the mail is `ReportMail` of the updater's changes and errors, with the report text built from its fields |
| DnsUpdate.LoadConfig | cloudflareupdatedns/dnsupdate.py:380-390 | a missing file is an empty config; a file that is not JSON or cannot be read ends the run with its message |
| DnsUpdate.ReportMail | cloudflareupdatedns/dnsupdate.py:409-421 | a mail goes to `mail_to`, with the report as body, exactly when `MailSubject` gives a subject |
| DnsUpdate.RunScript | cloudflareupdatedns/dnsupdate.py:364-422 | config and credential failures print their message and exit with no updater; otherwise an exit has recorded an error and mails the report when `mail_to` is set; an uncaught IndexError sends no mail; the mail follows `MailSubject`; the updater's addresses and zone id are those of `LookUp` and its changes, errors, requests and ending those of `AttemptedFresh`, so a run goes on only when the token, the IPv4 and the zone were all found; a dry run sends nothing |
| Classic.Issue | updatecloudflaredns.py:108-145 | a dry run returns before any request; live, the request is sent, a transport failure logs an error and exits, and an unsuccessful reply is only logged |
| Classic.Replay | updatecloudflaredns.py:155-170 | issuing a plan only appends to the handled mutations, the requests sent and the events |
| Classic.ReplayAppend | updatecloudflaredns.py:147-170 | issuing two parts of a plan is issuing the first, then the second if the run goes on |
| Classic.ReplaySettled | updatecloudflaredns.py:147-170 | once part of the plan stops the run, the rest is never issued |
| Classic.ReplayDryRun | updatecloudflaredns.py:109-111 | in a dry run every mutation of the plan is handled in order; nothing is sent or logged and the run goes on |
| Classic.ReplayLive | updatecloudflaredns.py:113-145 | live, a prefix of the plan is sent in order, the whole plan when the run goes on; it never raises, and exits only right after a transport failure, which is the last event |
| Classic.ReplayDelivered | updatecloudflaredns.py:124-126 | when every request gets a reply, unsuccessful ones included, the whole plan is sent and the run goes on; the events are exactly the rejections |
| Classic.RejectionsOfAccepted | updatecloudflaredns.py:125-126 | with every reply successful nothing is logged |
| Classic.RejectionsFromPlan | updatecloudflaredns.py:125-126 | at most one rejection per request, each naming a mutation of the plan |
| Classic.UpdateDnsStage | updatecloudflaredns.py:147-172 | `update_dns` only appends to the handled mutations, the requests sent and the events |
| Classic.UpdateDnsDryRun | updatecloudflaredns.py:147-172 | a dry-run `update_dns` sends nothing; given both listings it handles the whole plan and logs nothing |
| Classic.UpdateDnsEndings | updatecloudflaredns.py:147-172 | `update_dns` raises exactly when a listing lacks `result` (KeyError); it exits only after logging a failed call, and it keeps earlier events |
| Classic.ReplayEventsGrow | updatecloudflaredns.py:147-172 | events are only appended, and an exit appends one |
| Classic.Updater.constructor | updatecloudflaredns.py:21-30 | the settings are stored; no zone, no addresses, nothing sent or handled |
| Classic.Updater.Log | updatecloudflaredns.py:53 | appends one event and changes nothing else |
| Classic.Updater.VerifyApiKey | updatecloudflaredns.py:48-54 | goes on exactly when the token is accepted; otherwise logs an error and exits |
| Classic.Updater.GetPublicIp | updatecloudflaredns.py:56-83 | the IPv4 is the echo reply, and failing to get it logs an error and exits; the IPv6 is the chosen address; no address, a failed command or a missing interface logs only a warning and the run goes on |
| Classic.Updater.GetZoneId | updatecloudflaredns.py:99-106 | goes on exactly when the first zone has an id and stores it; otherwise logs an error and exits |
| Classic.Updater.Send | updatecloudflaredns.py:108-145 | the new trace and ending are those `Issue` gives for the reply to this request |
| Classic.Updater.UpdateDnsRecord | updatecloudflaredns.py:108-126 | issues the update of the record's id to the new content, keeping its type, name, ttl and proxied flag |
| Classic.Updater.AddAaaaRecord | updatecloudflaredns.py:128-145 | issues the creation of an AAAA record with the given content, ttl and proxied flag |
| Classic.Updater.Visit | updatecloudflaredns.py:155-170 | one iteration of a pass's loop leaves the trace and ending of issuing, after the earlier passes, the pass's mutations for the records up to and including this one |
| Classic.Updater.RunPass | updatecloudflaredns.py:155-170 | one pass's loop leaves the trace of issuing the pass's mutations after the earlier ones |
| Classic.Updater.UpdateDns | updatecloudflaredns.py:147-172 | the trace and ending are those of `UpdateDnsStage` |
| Classic.Updater.Prepare | updatecloudflaredns.py:208-210 | token check, addresses and zone in turn: the ending, the events logged, the addresses and the zone id are those of `LookUp`, so it exits only after logging an error and goes on only when all three succeeded |
| Classic.Updater.Run | updatecloudflaredns.py:208-211 | the steps in turn: the addresses and zone id are those of `LookUp`, and the trace and ending those of `Attempted`, that is, the lookups' events and then `UpdateDnsStage` on the listings and replies when the lookups go on; raises only KeyError on a listing without `result`; every exit is preceded by an error event; a dry run sends nothing |
| Classic.LookUpIpv6 | updatecloudflaredns.py:64-83 | the IPv6 becomes the chosen address when an interface is set and the command gives one; otherwise exactly one warning is logged and the IPv6 is kept |
| Classic.LookUp | updatecloudflaredns.py:48-106 | the lookups never raise; they go on exactly when the token is accepted, the IPv4 is delivered and the zone has an id, and then hold that IPv4, that zone id and the IPv6 of `LookUpIpv6`; an exit ends the events with an error; a rejected token changes no address or zone |
| Classic.AttemptedDelivered | updatecloudflaredns.py:208-211 | a fresh live run whose lookups go on, with both listings read and every request answered, handles and sends the whole plan in order and goes on; the events are the lookups' then the rejections |
| Classic.AttemptedAccepted | updatecloudflaredns.py:208-211 | when every request is accepted as well, the only events are the lookups' |
| Classic.AttemptedDryRun | updatecloudflaredns.py:208-211 | a fresh dry run sends nothing; when the lookups go on and both listings are read it handles the whole plan and logs only the lookups' events |
| Classic.LenientConfig | updatecloudflaredns.py:189-197 | a parsed config is used as is; a missing, invalid or unreadable file counts as empty, and the last two log one warning |
| Classic.RunScript | updatecloudflaredns.py:174-211 | the config warnings come first; missing credentials log an error and exit; every exit ends the log with an error event; the updater's addresses and zone id are those of `LookUp` and its trace and ending those of `AttemptedFresh` after the config warnings, so a run goes on only when the token, the IPv4 and the zone were all found; a dry run sends nothing |

## Left out

- HTTP, SMTP and the `ip` subprocess are not run. Each request's outcome is
  a parameter (`Service`): a decoded reply, or a transport failure with its
  text. `cf_api_call`, `raise_for_status` and the ipify request are folded
  into that outcome.
- Sending mail: the model decides whether a mail goes out, and its
  recipient, subject, body and sender setting. SMTP delivery, the
  `root@<fqdn>` default sender and the error `send_email` records when
  delivery fails are left out.
- Logging: `setup_logging`, log files, `SMTPDebugHandler` and info-level
  messages are left out.
  - In `dnsupdate.py` only the errors and changes lists are modelled.
  - In `updatecloudflaredns.py` warnings and errors are modelled as events
    without their exact wording. This includes the `repr` of the reply that
    the token and mutation errors print.
- argparse: the arguments are a datatype. `--verbose` and `--quiet` only
  affect logging.
- The environment and the clock: `CF_API_KEY` and the formatted start time
  are parameters.
- JSON shapes: records are assumed to carry `id`, `name`, `content`, `ttl`
  and `proxied` of the right types.
  - A record missing one of these keys raises KeyError in the source. That
    path is not modelled.
  - JSON `null` in place of a list or object is not modelled.
  - Config values are assumed to be strings.
  - A config file holding valid JSON that is not an object makes
    `config.get(...)` raise AttributeError, which nothing catches
    (`cloudflareupdatedns/dnsupdate.py:392-393`,
    `updatecloudflaredns.py:199-200`). The model takes every parsed config to
    be an object, so that crash is not modelled.
  - An entry of a reply's `errors` list that is not an object makes
    `[0].get('message')` raise AttributeError. In `verify_api_key`
    (`cloudflareupdatedns/dnsupdate.py:115`) nothing catches it; in the record
    mutations (`:209`, `:230`) `update_dns` turns it into "Failed to update DNS
    records: ..." and an exit. The model takes every entry to be an object
    with an optional message, so neither path is modelled.
- DnsUpdate.Updater.UpdateDns: requires an IPv4. `main` always has one at
  that point, so the source's comparison with `None` is not modelled.
- The three loops of each `update_dns` are modelled as one loop method
  (`RunPass`), called once per pass, with the loop body in `Visit`. The
  mutation order is the same as the source's.
- The `netifaces` import is unused and left out.
