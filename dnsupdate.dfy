/** cloudflareupdatedns/dnsupdate.py: the `CloudflareDNSUpdater` class, which
    keeps the lists of changes and errors of a run and mails a status report,
    and the `main` entry point that drives it. The provider's API, the public
    address echo service and the `ip` command are given as a `Service`: the
    answer each of them gives during the run. */
module DnsUpdate {
  import opened Common
  import opened Dns
  import opened Reconcile
  import opened AddressSelection
  import opened Settings
  import opened Report
  import opened UpdateRun

  function VerificationFailed(message: string): string {
    "API token verification failed: " + message
  }

  function Ipv4Failed(detail: string): string {
    "Failed to retrieve public IPv4 address: " + detail
  }

  function NoIpv6Found(iface: string): string {
    "No permanent global IPv6 address found on interface " + iface
  }

  function Ipv6CommandFailed(iface: string, detail: string): string {
    "Failed to retrieve IPv6 address for interface " + iface + ": " + detail
  }

  function Ipv6LookupError(detail: string): string {
    "Error while getting IPv6 address: " + detail
  }

  function ZoneNotFound(domain: string): string {
    "Unable to fetch Zone ID for " + domain + ". Check your domain name and API credentials."
  }

  /** The IPv6 half of `get_public_ip`: with a truthy interface, the address
      chosen from the `ip` command's output lines; finding none, or the
      command failing, records one error and leaves the IPv6 as it was.
      Without an interface nothing is looked up or recorded. */
  function LookUpIpv6(iface: Option<string>, command: IpCommand, prior: Option<string>)
    : (r: (Option<string>, seq<string>))
    ensures |r.1| <= 1
    ensures r.1 == [] <==> !Truthy(iface) || (command.Output? && Chosen(SplitOn(command.text, '\n')).Some?)
    ensures r.1 == [] && Truthy(iface) ==> r.0 == Chosen(SplitOn(command.text, '\n'))
    ensures r.1 != [] || !Truthy(iface) ==> r.0 == prior
  {
    if !Truthy(iface) then (prior, [])
    else match command
      case Output(text) =>
        var found := Chosen(SplitOn(text, '\n'));
        if found.Some? then (found, []) else (prior, [NoIpv6Found(iface.value)])
      case CommandFailed(detail) => (prior, [Ipv6CommandFailed(iface.value, detail)])
      case LaunchFailed(detail) => (prior, [Ipv6LookupError(detail)])
  }

  /** What the token check and the two lookups at the head of `main`'s `try`
      leave: how they ended, the errors they recorded, the two addresses and
      the zone id. */
  datatype Lookups = Lookups(status: Status, errors: seq<string>,
                             ipv4: Option<string>, ipv6: Option<string>, zoneId: Option<string>)

  /** `verify_api_key`, `get_public_ip` and `get_zone_id`, each run only when
      the ones before it let the run go on, from the given addresses and zone. */
  function LookUp(domain: string, iface: Option<string>, api: Service,
                  ipv4: Option<string>, ipv6: Option<string>, zoneId: Option<string>): (l: Lookups)
    ensures l.status == Proceed <==>
              && api.verify.Delivered? && TokenAccepted(api.verify.reply)
              && api.publicIp.Delivered? && api.zone.Delivered? && ZoneIdOf(api.zone.reply).Some?
    ensures l.status == Proceed ==>
              && l.ipv4 == Some(api.publicIp.reply) && l.zoneId == ZoneIdOf(api.zone.reply)
              && (l.ipv6, l.errors) == LookUpIpv6(iface, api.ipCommand, ipv6)
    ensures l.status.Raise? ==>
              && l.status == Raise(IndexErrorText) && l.errors == []
              && api.verify.Delivered? && api.verify.reply.errors == Some([])
    ensures l.status == Exit ==> l.errors != []
    ensures !(api.verify.Delivered? && TokenAccepted(api.verify.reply)) ==>
              l.ipv4 == ipv4 && l.ipv6 == ipv6 && l.zoneId == zoneId
  {
    match api.verify
    case Failed(detail) => Lookups(Exit, [ApiCallFailed(detail)], ipv4, ipv6, zoneId)
    case Delivered(response) =>
      if !TokenAccepted(response) then
        var message := FirstErrorMessage(response.errors);
        if message.None? then Lookups(Raise(IndexErrorText), [], ipv4, ipv6, zoneId)
        else Lookups(Exit, [VerificationFailed(message.value)], ipv4, ipv6, zoneId)
      else match api.publicIp
        case Failed(detail) => Lookups(Exit, [Ipv4Failed(detail)], ipv4, ipv6, zoneId)
        case Delivered(address) =>
          var (found, warnings) := LookUpIpv6(iface, api.ipCommand, ipv6);
          match api.zone
          case Failed(detail) => Lookups(Exit, warnings + [ApiCallFailed(detail)], Some(address), found, zoneId)
          case Delivered(zone) =>
            if ZoneIdOf(zone).None? then Lookups(Exit, warnings + [ZoneNotFound(domain)], Some(address), found, zoneId)
            else Lookups(Proceed, warnings, Some(address), found, ZoneIdOf(zone))
  }

  /** The changes, errors and requests that `main`'s `try` leaves, and how it
      ends: the lookups from the given addresses and zone, then, when they
      let the run go on, `update_dns` from the log they leave. */
  function Attempted(domain: string, iface: Option<string>, dryRun: bool, addAaaa: bool, api: Service,
                     ipv4: Option<string>, ipv6: Option<string>, zoneId: Option<string>, log: Log): Step {
    var l := LookUp(domain, iface, api, ipv4, ipv6, zoneId);
    var looked := log.(errors := log.errors + l.errors);
    if l.status != Proceed then Step(looked, l.status)
    else UpdateDnsStep(dryRun, addAaaa, l.ipv4.value, l.ipv6, api.aListing, api.aaaaListing, api.mutations, looked)
  }

  /** `Attempted` on a fresh updater. */
  function AttemptedFresh(domain: string, iface: Option<string>, dryRun: bool, addAaaa: bool, api: Service): Step {
    Attempted(domain, iface, dryRun, addAaaa, api, None, None, None, Log([], [], []))
  }

  /** A live run that gets past the lookups, reads both listings and has
      every request accepted sends exactly the plan for those listings, the
      echoed IPv4 and the IPv6 chosen on the interface, announces each
      mutation, records no error beyond the IPv6 lookup's, and goes on. */
  lemma AttemptedAccepted(domain: string, iface: Option<string>, addAaaa: bool, api: Service)
    requires LookUp(domain, iface, api, None, None, None).status == Proceed
    requires ListingsRead(api) && AcceptsEveryMutation(api)
    ensures var l := LookUp(domain, iface, api, None, None, None);
            var plan := Plan(api.aListing.reply.result.value, api.aaaaListing.reply.result.value,
                             api.publicIp.reply, l.ipv6, addAaaa);
            && l.ipv6 == LookUpIpv6(iface, api.ipCommand, None).0
            && AttemptedFresh(domain, iface, false, addAaaa, api) == Step(Log(Announcements(false, plan), l.errors, plan), Proceed)
  {
    var l := LookUp(domain, iface, api, None, None, None);
    assert Log([], [], []).(errors := [] + l.errors) == Log([], l.errors, []);
    UpdateDnsAccepted(addAaaa, l.ipv4.value, l.ipv6, api.aListing.reply.result.value,
                      api.aaaaListing.reply.result.value, api.mutations, Log([], l.errors, []));
  }

  /** A dry run sends nothing; past the lookups and with both listings read
      it announces the whole plan as "Would ..." changes and goes on. */
  lemma AttemptedDryRun(domain: string, iface: Option<string>, addAaaa: bool, api: Service)
    ensures var l := LookUp(domain, iface, api, None, None, None);
            var s := AttemptedFresh(domain, iface, true, addAaaa, api);
            && s.log.sent == []
            && (l.status == Proceed && ListingsRead(api) ==>
                  var plan := Plan(api.aListing.reply.result.value, api.aaaaListing.reply.result.value,
                                   api.publicIp.reply, l.ipv6, addAaaa);
                  s == Step(Log(Announcements(true, plan), l.errors, []), Proceed))
  {
    var l := LookUp(domain, iface, api, None, None, None);
    assert Log([], [], []).(errors := [] + l.errors) == Log([], l.errors, []);
    if l.status == Proceed {
      UpdateDnsDryRun(addAaaa, l.ipv4.value, l.ipv6, api.aListing, api.aaaaListing, api.mutations, Log([], l.errors, []));
    }
  }

  /** Once a pass stops at a record, the records after it change nothing. */
  lemma PassSettled(dryRun: bool, pass: Pass, records: seq<DnsRecord>, i: nat, before: seq<Action>,
                    replies: nat -> Call<MutationReply>, log: Log)
    requires i < |records|
    requires Execute(dryRun, before + Scan(pass, records[..i + 1]), replies, log).status != Proceed
    ensures Execute(dryRun, before + Scan(pass, records), replies, log)
            == Execute(dryRun, before + Scan(pass, records[..i + 1]), replies, log)
  {
    ScanPrefix(pass, records, i + 1);
    ExecuteSettled(dryRun, before + Scan(pass, records[..i + 1]), before + Scan(pass, records), replies, log);
  }

  class Updater {
    const domain: string
    const email: string
    const apiKey: string
    const networkInterface: Option<string>
    const addAaaa: bool
    const dryRun: bool
    const forceReport: bool
    /** `run_start_time`, already formatted as `%Y-%m-%d %H:%M`. */
    const startTime: string
    const api: Service

    var zoneId: Option<string>
    var ipv4: Option<string>
    var ipv6: Option<string>
    var changes: seq<string>
    var errors: seq<string>
    /** The PUT and POST requests sent to the provider so far, in order. */
    var sent: seq<Action>

    constructor (domain: string, email: string, apiKey: string, networkInterface: Option<string>,
                 addAaaa: bool, dryRun: bool, forceReport: bool, startTime: string, api: Service)
      ensures this.domain == domain && this.email == email && this.apiKey == apiKey
      ensures this.networkInterface == networkInterface && this.addAaaa == addAaaa
      ensures this.dryRun == dryRun && this.forceReport == forceReport
      ensures this.startTime == startTime && this.api == api
      ensures zoneId == None && ipv4 == None && ipv6 == None
      ensures changes == [] && errors == [] && sent == []
    {
      this.domain := domain;
      this.email := email;
      this.apiKey := apiKey;
      this.networkInterface := networkInterface;
      this.addAaaa := addAaaa;
      this.dryRun := dryRun;
      this.forceReport := forceReport;
      this.startTime := startTime;
      this.api := api;
      zoneId := None;
      ipv4 := None;
      ipv6 := None;
      changes := [];
      errors := [];
      sent := [];
    }

    /** The part of the state `update_dns` works on. */
    function CurrentLog(): Log
      reads this
    {
      Log(changes, errors, sent)
    }

    method AddError(error: string)
      modifies this
      ensures errors == old(errors) + [error]
      ensures changes == old(changes) && sent == old(sent)
      ensures zoneId == old(zoneId) && ipv4 == old(ipv4) && ipv6 == old(ipv6)
    {
      errors := errors + [error];
    }

    method LogChange(message: string)
      modifies this
      ensures changes == old(changes) + [message]
      ensures errors == old(errors) && sent == old(sent)
      ensures zoneId == old(zoneId) && ipv4 == old(ipv4) && ipv6 == old(ipv6)
    {
      changes := changes + [message];
    }

    /** The token is accepted only with `success` and status `active`; any
        other reply records the first error's message and exits, except that
        an empty `errors` list raises IndexError, which nothing catches. */
    method VerifyApiKey() returns (status: Status)
      modifies this
      ensures status == Proceed <==> api.verify.Delivered? && TokenAccepted(api.verify.reply)
      ensures status == Proceed ==> errors == old(errors)
      ensures api.verify.Failed? ==> status == Exit && errors == old(errors) + [ApiCallFailed(api.verify.detail)]
      ensures api.verify.Delivered? && !TokenAccepted(api.verify.reply) && api.verify.reply.errors != Some([]) ==>
                status == Exit
                && errors == old(errors) + [VerificationFailed(FirstErrorMessage(api.verify.reply.errors).value)]
      ensures api.verify.Delivered? && !TokenAccepted(api.verify.reply) && api.verify.reply.errors == Some([]) ==>
                status == Raise(IndexErrorText) && errors == old(errors)
      ensures changes == old(changes) && sent == old(sent)
      ensures zoneId == old(zoneId) && ipv4 == old(ipv4) && ipv6 == old(ipv6)
    {
      match api.verify
      case Failed(detail) =>
        AddError(ApiCallFailed(detail));
        return Exit;
      case Delivered(response) =>
        if TokenAccepted(response) {
          return Proceed;
        }
        var message := FirstErrorMessage(response.errors);
        if message.None? {
          return Raise(IndexErrorText);
        }
        AddError(VerificationFailed(message.value));
        return Exit;
    }

    /** The IPv4 is whatever the echo service answers; failing to reach it is
        fatal. With a truthy interface the IPv6 is the address chosen from the
        `ip` command's output lines; finding none, or the command failing,
        records one error and leaves the IPv6 as it was. Without an interface
        nothing is looked up and nothing recorded. */
    method GetPublicIp() returns (status: Status)
      modifies this
      ensures api.publicIp.Failed? ==>
                status == Exit && errors == old(errors) + [Ipv4Failed(api.publicIp.detail)]
                && ipv4 == old(ipv4) && ipv6 == old(ipv6)
      ensures api.publicIp.Delivered? ==> status == Proceed && ipv4 == Some(api.publicIp.reply)
      ensures api.publicIp.Delivered? && !Truthy(networkInterface) ==> ipv6 == old(ipv6) && errors == old(errors)
      ensures api.publicIp.Delivered? && Truthy(networkInterface) && api.ipCommand.Output? ==>
                var found := Chosen(SplitOn(api.ipCommand.text, '\n'));
                && (found.Some? ==> ipv6 == found && errors == old(errors))
                && (found.None? ==> ipv6 == old(ipv6) && errors == old(errors) + [NoIpv6Found(networkInterface.value)])
      ensures api.publicIp.Delivered? && Truthy(networkInterface) && api.ipCommand.CommandFailed? ==>
                ipv6 == old(ipv6)
                && errors == old(errors) + [Ipv6CommandFailed(networkInterface.value, api.ipCommand.detail)]
      ensures api.publicIp.Delivered? && Truthy(networkInterface) && api.ipCommand.LaunchFailed? ==>
                ipv6 == old(ipv6) && errors == old(errors) + [Ipv6LookupError(api.ipCommand.detail)]
      ensures api.publicIp.Delivered? ==>
                var (found, warnings) := LookUpIpv6(networkInterface, api.ipCommand, old(ipv6));
                ipv6 == found && errors == old(errors) + warnings
      ensures changes == old(changes) && sent == old(sent) && zoneId == old(zoneId)
    {
      match api.publicIp
      case Failed(detail) =>
        AddError(Ipv4Failed(detail));
        return Exit;
      case Delivered(text) =>
        ipv4 := Some(text);
      if Truthy(networkInterface) {
        match api.ipCommand
        case Output(output) =>
          var found := SelectIpv6(SplitOn(output, '\n'));
          if found.Some? {
            ipv6 := found;
          } else {
            AddError(NoIpv6Found(networkInterface.value));
          }
        case CommandFailed(detail) =>
          AddError(Ipv6CommandFailed(networkInterface.value, detail));
        case LaunchFailed(detail) =>
          AddError(Ipv6LookupError(detail));
      }
      return Proceed;
    }

    /** The zone id is the `id` of the first zone listed; no such id is fatal. */
    method GetZoneId() returns (status: Status)
      modifies this
      ensures status == Proceed <==> api.zone.Delivered? && ZoneIdOf(api.zone.reply).Some?
      ensures status == Proceed ==> zoneId == ZoneIdOf(api.zone.reply) && errors == old(errors)
      ensures api.zone.Failed? ==> status == Exit && errors == old(errors) + [ApiCallFailed(api.zone.detail)]
      ensures api.zone.Delivered? && ZoneIdOf(api.zone.reply).None? ==>
                status == Exit && errors == old(errors) + [ZoneNotFound(domain)]
      ensures status != Proceed ==> zoneId == old(zoneId)
      ensures changes == old(changes) && sent == old(sent) && ipv4 == old(ipv4) && ipv6 == old(ipv6)
    {
      match api.zone
      case Failed(detail) =>
        AddError(ApiCallFailed(detail));
        return Exit;
      case Delivered(response) =>
        var id := ZoneIdOf(response);
        if id.None? {
          AddError(ZoneNotFound(domain));
          return Exit;
        }
        zoneId := id;
        return Proceed;
    }

    /** Sends one mutation, unless in dry-run mode, and reacts to the reply. */
    method Send(act: Action) returns (status: Status)
      modifies this
      ensures Step(CurrentLog(), status) == Perform(dryRun, act, api.mutations(|old(sent)|), old(CurrentLog()))
      ensures zoneId == old(zoneId) && ipv4 == old(ipv4) && ipv6 == old(ipv6)
    {
      if dryRun {
        LogChange(Announcement(true, act));
        return Proceed;
      }
      LogChange(Announcement(false, act));
      var reply := api.mutations(|sent|);
      sent := sent + [act];
      match reply
      case Failed(detail) =>
        AddError(ApiCallFailed(detail));
        return Exit;
      case Delivered(response) =>
        if !response.success {
          var message := FirstErrorMessage(response.errors);
          if message.None? {
            return Raise(IndexErrorText);
          }
          AddError(Complaint(act, message.value));
        }
        return Proceed;
    }

    /** `update_dns_record`: announce the update, then PUT the record's new
        content, keeping its id, name, ttl and proxied flag. */
    method UpdateDnsRecord(recordType: RecordType, recordName: string, oldIp: string, newIp: string,
                           recordId: string, ttl: int, proxied: bool) returns (status: Status)
      modifies this
      ensures var act := Update(recordType, recordId, recordName, oldIp, newIp, ttl, proxied);
              Step(CurrentLog(), status) == Perform(dryRun, act, api.mutations(|old(sent)|), old(CurrentLog()))
      ensures zoneId == old(zoneId) && ipv4 == old(ipv4) && ipv6 == old(ipv6)
    {
      status := Send(Update(recordType, recordId, recordName, oldIp, newIp, ttl, proxied));
    }

    /** `add_aaaa_record`: announce the creation, then POST an AAAA record. */
    method AddAaaaRecord(recordName: string, address: string, ttl: int, proxied: bool) returns (status: Status)
      modifies this
      ensures var act := Create(recordName, address, ttl, proxied);
              Step(CurrentLog(), status) == Perform(dryRun, act, api.mutations(|old(sent)|), old(CurrentLog()))
      ensures zoneId == old(zoneId) && ipv4 == old(ipv4) && ipv6 == old(ipv6)
    {
      status := Send(Create(recordName, address, ttl, proxied));
    }

    /** The `except Exception` clause of `update_dns`: an exception is
        recorded and turned into an exit; an exit passes through. */
    method Interrupted(s: Status) returns (status: Status)
      requires s != Proceed
      modifies this
      ensures status == Exit
      ensures s.Raise? ==> errors == old(errors) + [UpdateFailed(s.message)]
      ensures !s.Raise? ==> errors == old(errors)
      ensures changes == old(changes) && sent == old(sent)
      ensures zoneId == old(zoneId) && ipv4 == old(ipv4) && ipv6 == old(ipv6)
    {
      if s.Raise? {
        AddError(UpdateFailed(s.message));
      }
      return Exit;
    }

    /** The body of a pass's loop for the i-th record of the listing: when the
        pass selects the record, its mutation is issued at once. */
    method Visit(pass: Pass, records: seq<DnsRecord>, i: nat, ghost before: seq<Action>, ghost log0: Log)
      returns (status: Status)
      requires i < |records|
      requires Execute(dryRun, before + Scan(pass, records[..i]), api.mutations, log0) == Step(CurrentLog(), Proceed)
      modifies this
      ensures Step(CurrentLog(), status) == Execute(dryRun, before + Scan(pass, records[..i + 1]), api.mutations, log0)
      ensures zoneId == old(zoneId) && ipv4 == old(ipv4) && ipv6 == old(ipv6)
    {
      var record := records[i];
      ghost var done := before + Scan(pass, records[..i]);
      PassStep(pass, records, i, before);
      if !Selects(pass, record) {
        assert done + [] == done;
        return Proceed;
      }
      ExecuteSnoc(dryRun, done, ActionFor(pass, record), api.mutations, log0);
      match pass {
        case RefreshA(address) =>
          status := UpdateDnsRecord(A, record.name, record.content, address, record.id, record.ttl, record.proxied);
        case RefreshAaaa(address) =>
          status := UpdateDnsRecord(AAAA, record.name, record.content, address, record.id, record.ttl, record.proxied);
        case AddMissingAaaa(_, address) =>
          status := AddAaaaRecord(record.name, address, record.ttl, record.proxied);
      }
    }

    /** One of the three loops of `update_dns` over a listing; a stop ends
        the loop. The state it leaves is that of executing the pass's actions
        after the ones executed before. */
    method RunPass(pass: Pass, records: seq<DnsRecord>, ghost before: seq<Action>, ghost log0: Log)
      returns (status: Status)
      requires Execute(dryRun, before, api.mutations, log0) == Step(CurrentLog(), Proceed)
      modifies this
      ensures Step(CurrentLog(), status) == Execute(dryRun, before + Scan(pass, records), api.mutations, log0)
      ensures zoneId == old(zoneId) && ipv4 == old(ipv4) && ipv6 == old(ipv6)
    {
      assert before + Scan(pass, records[..0]) == before;
      var i := 0;
      while i < |records|
        invariant i <= |records|
        invariant Execute(dryRun, before + Scan(pass, records[..i]), api.mutations, log0) == Step(CurrentLog(), Proceed)
        invariant zoneId == old(zoneId) && ipv4 == old(ipv4) && ipv6 == old(ipv6)
      {
        status := Visit(pass, records, i, before, log0);
        if status != Proceed {
          PassSettled(dryRun, pass, records, i, before, api.mutations, log0);
          return;
        }
        i := i + 1;
      }
      assert records[..i] == records;
      return Proceed;
    }

    /** `update_dns`: fetch both listings, then run the three passes, each
        mutation issued as soon as it is decided; the state it leaves is the
        one `UpdateDnsStep` describes. */
    method UpdateDns() returns (status: Status)
      requires ipv4.Some?
      modifies this
      ensures Step(CurrentLog(), status)
              == UpdateDnsStep(dryRun, addAaaa, old(ipv4).value, ipv6, api.aListing, api.aaaaListing,
                               api.mutations, old(CurrentLog()))
      ensures zoneId == old(zoneId) && ipv4 == old(ipv4) && ipv6 == old(ipv6)
    {
      if api.aListing.Failed? {
        AddError(ApiCallFailed(api.aListing.detail));
        return Exit;
      }
      if api.aaaaListing.Failed? {
        AddError(ApiCallFailed(api.aaaaListing.detail));
        return Exit;
      }
      var aResult, aaaaResult := api.aListing.reply.result, api.aaaaListing.reply.result;
      if aResult.None? || aaaaResult.None? {
        AddError(UpdateFailed(MissingResultText));
        return Exit;
      }
      var aRecords, aaaaRecords := aResult.value, aaaaResult.value;
      ghost var log0 := CurrentLog();
      ghost var plan := Plan(aRecords, aaaaRecords, ipv4.value, ipv6, addAaaa);
      ghost var p1 := Scan(RefreshA(ipv4.value), aRecords);
      ghost var p2 := if Truthy(ipv6) then Scan(RefreshAaaa(ipv6.value), aaaaRecords) else [];

      // Update A records
      status := RunPass(RefreshA(ipv4.value), aRecords, [], log0);
      assert [] + p1 == p1;
      if status != Proceed {
        ExecuteSettled(dryRun, p1, plan, api.mutations, log0);
        status := Interrupted(status);
        return;
      }

      // Update AAAA records
      if Truthy(ipv6) {
        status := RunPass(RefreshAaaa(ipv6.value), aaaaRecords, p1, log0);
        if status != Proceed {
          ExecuteSettled(dryRun, p1 + p2, plan, api.mutations, log0);
          status := Interrupted(status);
          return;
        }
      } else {
        assert p1 + p2 == p1;
      }

      // Add missing AAAA records if the option is enabled
      if addAaaa && Truthy(ipv6) {
        var existing := set record | record in aaaaRecords :: record.name;
        status := RunPass(AddMissingAaaa(existing, ipv6.value), aRecords, p1 + p2, log0);
        if status != Proceed {
          status := Interrupted(status);
          return;
        }
      } else {
        assert p1 + p2 == plan;
      }
    }

    /** The first steps inside `main`'s `try`: the token check and the two
        lookups, each run only when the ones before it let the run go on. */
    method Prepare() returns (status: Status)
      modifies this
      ensures var l := LookUp(domain, networkInterface, api, old(ipv4), old(ipv6), old(zoneId));
              && status == l.status && errors == old(errors) + l.errors
              && ipv4 == l.ipv4 && ipv6 == l.ipv6 && zoneId == l.zoneId
      ensures changes == old(changes) && sent == old(sent)
    {
      status := VerifyApiKey();
      if status != Proceed {
        return;
      }
      status := GetPublicIp();
      if status != Proceed {
        return;
      }
      status := GetZoneId();
    }

    /** The steps inside `main`'s `try`: token check, addresses, zone and
        records, each run only when the ones before it let the run go on. The
        records are updated from the log the lookups leave, with the IPv4 the
        echo service gave and the IPv6 the interface lookup chose. */
    method Attempt() returns (status: Status)
      modifies this
      ensures var l := LookUp(domain, networkInterface, api, old(ipv4), old(ipv6), old(zoneId));
              ipv4 == l.ipv4 && ipv6 == l.ipv6 && zoneId == l.zoneId
      ensures Step(CurrentLog(), status)
              == Attempted(domain, networkInterface, dryRun, addAaaa, api, old(ipv4), old(ipv6), old(zoneId), old(CurrentLog()))
      ensures status.Raise? ==> status == Raise(IndexErrorText) && errors == old(errors)
      ensures status == Exit ==> |errors| > |old(errors)|
      ensures dryRun ==> sent == old(sent)
    {
      status := Prepare();
      if status == Proceed {
        ghost var before := CurrentLog();
        UpdateDnsExitsWithError(dryRun, addAaaa, ipv4.value, ipv6, api.aListing, api.aaaaListing, api.mutations, before);
        if dryRun {
          UpdateDnsDryRun(addAaaa, ipv4.value, ipv6, api.aListing, api.aaaaListing, api.mutations, before);
        }
        status := UpdateDns();
      }
    }

    /** `generate_status_report`: the report's lines appended one by one,
        joined with newlines. */
    method GenerateStatusReport() returns (text: string)
      ensures text == ReportText(dryRun, domain, startTime, errors, ipv4, networkInterface, ipv6, changes)
    {
      RenderedOpening(dryRun, domain, startTime);
      var report: seq<string> := [];
      if dryRun {
        report := report + ["*** DRY RUN MODE - NO CHANGES WERE MADE ***", ""];
      }
      report := report + ["DNS Update for " + domain, "Time: " + startTime, ""];
      assert report == Rendered(Banner(dryRun)) + Rendered(Header(domain, startTime));
      report := AppendErrors(report, errors);
      report := AppendAddresses(report, ipv4, networkInterface, ipv6);
      report := AppendChanges(report, changes, errors);
      RenderedReport(dryRun, domain, startTime, errors, ipv4, networkInterface, ipv6, changes);
      text := JoinOn(report, '\n');
    }
  }

  /** The errors section of `generate_status_report`, present only when
      errors were recorded. */
  method AppendErrors(report: seq<string>, errors: seq<string>) returns (extended: seq<string>)
    ensures extended == report + Rendered(ErrorsBlock(errors))
  {
    RenderedBulletBlocks(errors, []);
    extended := report;
    if errors != [] {
      extended := extended + ["Errors:"];
      extended := AppendBullets(extended, errors);
      extended := extended + [""];
    }
  }

  /** The IP-address section of `generate_status_report`; the IPv6 line
      appears only when an interface was given. */
  method AppendAddresses(report: seq<string>, ipv4: Option<string>, iface: Option<string>, ipv6: Option<string>)
    returns (extended: seq<string>)
    ensures extended == report + Rendered(AddressesBlock(ipv4, iface, ipv6))
  {
    RenderedAddresses(ipv4, iface, ipv6);
    var ipv4Text := "IPv4: " + OrElse(ipv4, "Not available");
    extended := report + ["IP Addresses:", "• " + ipv4Text];
    if Truthy(iface) {
      var ipv6Text := "IPv6: " + OrElse(ipv6, "Not found") + " (Interface: " + iface.value + ")";
      extended := extended + ["• " + ipv6Text];
    }
    extended := extended + [""];
  }

  /** The changes section of `generate_status_report`: the changes made, or
      a note that none were necessary when there were no errors either. */
  method AppendChanges(report: seq<string>, changes: seq<string>, errors: seq<string>) returns (extended: seq<string>)
    ensures extended == report + Rendered(ChangesBlock(changes, errors))
  {
    RenderedBulletBlocks(errors, changes);
    extended := report;
    if changes != [] {
      extended := extended + ["Changes Made:"];
      extended := AppendBullets(extended, changes);
    } else if errors == [] {
      extended := extended + ["No changes were necessary."];
    }
  }

  /** The loops of `generate_status_report` that append one bullet line per item. */
  method AppendBullets(report: seq<string>, items: seq<string>) returns (extended: seq<string>)
    ensures extended == report + Rendered(Bullets(items))
  {
    extended := report;
    var i := 0;
    while i < |items|
      invariant i <= |items|
      invariant extended == report + Rendered(Bullets(items[..i]))
    {
      RenderedAppend(Bullets(items[..i]), [Item(items[i])]);
      assert Bullets(items[..i + 1]) == Bullets(items[..i]) + [Item(items[i])];
      extended := extended + ["• " + items[i]];
      i := i + 1;
    }
    assert items[..i] == items;
  }

  /** The command-line arguments `main` uses (logging verbosity left out). */
  datatype Arguments = Arguments(
    domain: string,
    email: Option<string>,
    config: string,
    iface: Option<string>,
    dryRun: bool,
    addAaaa: bool,
    forceReport: bool,
    mailTo: Option<string>,
    mailFrom: Option<string>)

  /** A report handed to `send_email`. */
  datatype Mail = Mail(recipient: string, subject: string, body: string, sender: Option<string>)

  /** What a run shows and does at its end: the lines `main` prints itself,
      how the process ends (exit status 0, exit status 1, or an uncaught
      exception), and the report mailed, if any. */
  datatype Outcome = Outcome(printed: seq<string>, ending: Status, mail: Option<Mail>)

  const CredentialsMissing := "Error: Cloudflare email and API key are required. Provide them via arguments, environment variables, or in the config file."

  /** The config read by `main`: a missing file is an empty config, and a
      file that is not JSON or cannot be read ends the run with a message. */
  function LoadConfig(path: string, file: ConfigFile): (r: Result<map<string, string>>)
    ensures r.Success? <==> file.Missing? || file.Parsed?
    ensures file.Missing? ==> r.value == map[]
    ensures file.Parsed? ==> r.value == file.entries
    ensures r.Failure? ==> StartsWith(r.error, "Error")
    ensures file.NotJson? ==> r.error == "Error: Config file " + path + " is not valid JSON"
    ensures file.Unreadable? ==> r.error == "Error reading config file " + path + ": " + file.detail
  {
    match file
    case Missing => Success(map[])
    case Parsed(entries) => Success(entries)
    case NotJson =>
      var message := "Error: Config file " + path + " is not valid JSON";
      assert message[..5] == "Error";
      Failure(message)
    case Unreadable(detail) =>
      var message := "Error reading config file " + path + ": " + detail;
      assert message[..5] == "Error";
      Failure(message)
  }

  /** The report mail a run ends with: sent when `MailSubject` gives a
      subject, with the report of the final state as its body. */
  function ReportMail(args: Arguments, changes: seq<string>, errors: seq<string>, aborted: bool, body: string)
    : (mail: Option<Mail>)
    ensures mail.Some? <==> MailSubject(args.domain, args.mailTo, changes, errors, args.forceReport, aborted).Some?
    ensures mail.Some? ==> Truthy(args.mailTo) && mail.value.recipient == args.mailTo.value
    ensures mail.Some? ==> mail.value.body == body && mail.value.sender == args.mailFrom
    ensures mail.Some? ==> mail.value.subject == MailSubject(args.domain, args.mailTo, changes, errors, args.forceReport, aborted).value
  {
    var subject := MailSubject(args.domain, args.mailTo, changes, errors, args.forceReport, aborted);
    if subject.Some? then Some(Mail(args.mailTo.value, subject.value, body, args.mailFrom)) else None
  }

  /** The end of `main`: after the steps went through, or from the handler
      of the exit they ended with, the report of the updater's final state is
      mailed when `MailSubject` gives a subject. */
  method SendReport(args: Arguments, updater: Updater, aborted: bool) returns (mail: Option<Mail>)
    requires updater.dryRun == args.dryRun && updater.domain == args.domain && updater.networkInterface == args.iface
    ensures mail == ReportMail(args, updater.changes, updater.errors, aborted,
                               ReportText(args.dryRun, args.domain, updater.startTime, updater.errors,
                                          updater.ipv4, args.iface, updater.ipv6, updater.changes))
  {
    mail := None;
    var subject := MailSubject(args.domain, args.mailTo, updater.changes, updater.errors, args.forceReport, aborted);
    if subject.Some? {
      var body := updater.GenerateStatusReport();
      mail := Some(Mail(args.mailTo.value, subject.value, body, args.mailFrom));
    }
  }

  /** `main`: read the config, resolve the credentials, then verify the
      token, look up the addresses and the zone, update the records, and mail
      the report as `MailSubject` decides. `envKey` is `CF_API_KEY`,
      `startTime` the formatted start of the run, and `api` what the outside
      world answers. */
  method RunScript(args: Arguments, envKey: Option<string>, configFile: ConfigFile, startTime: string, api: Service)
    returns (outcome: Outcome, updater: Updater?)
    ensures LoadConfig(args.config, configFile).Failure? ==>
              outcome == Outcome([LoadConfig(args.config, configFile).error], Exit, None) && updater == null
    ensures LoadConfig(args.config, configFile).Success?
            && ResolveCredentials(args.email, envKey, LoadConfig(args.config, configFile).value).None? ==>
              outcome == Outcome([CredentialsMissing], Exit, None) && updater == null
    ensures updater != null ==>
              && LoadConfig(args.config, configFile).Success?
              && var credentials := ResolveCredentials(args.email, envKey, LoadConfig(args.config, configFile).value);
              && credentials.Some?
              && fresh(updater)
              && updater.email == credentials.value.email && updater.apiKey == credentials.value.apiKey
              && updater.domain == args.domain && updater.networkInterface == args.iface
              && updater.dryRun == args.dryRun && updater.addAaaa == args.addAaaa
              && updater.forceReport == args.forceReport && updater.startTime == startTime && updater.api == api
              && outcome.printed == []
    ensures updater != null && outcome.ending.Raise? ==>
              outcome.ending == Raise(IndexErrorText) && outcome.mail == None && updater.errors == []
    ensures updater != null && !outcome.ending.Raise? ==>
              outcome.mail == ReportMail(args, updater.changes, updater.errors, outcome.ending == Exit,
                                         ReportText(args.dryRun, args.domain, startTime, updater.errors,
                                                    updater.ipv4, args.iface, updater.ipv6, updater.changes))
    ensures updater != null && outcome.ending == Exit ==> updater.errors != []
    ensures updater != null && outcome.ending == Exit && Truthy(args.mailTo) ==> outcome.mail.Some?
    ensures updater != null && outcome.ending == Proceed ==>
              && api.verify.Delivered? && TokenAccepted(api.verify.reply)
              && api.publicIp.Delivered? && updater.ipv4 == Some(api.publicIp.reply)
              && api.zone.Delivered? && updater.zoneId == ZoneIdOf(api.zone.reply) && updater.zoneId.Some?
    ensures updater != null && args.dryRun ==> updater.sent == []
    ensures updater != null ==>
              var l := LookUp(args.domain, args.iface, api, None, None, None);
              && updater.ipv4 == l.ipv4 && updater.ipv6 == l.ipv6 && updater.zoneId == l.zoneId
              && Step(updater.CurrentLog(), outcome.ending) == AttemptedFresh(args.domain, args.iface, args.dryRun, args.addAaaa, api)
  {
    updater := null;
    var config := LoadConfig(args.config, configFile);
    if config.Failure? {
      return Outcome([config.error], Exit, None), null;
    }
    var credentials := ResolveCredentials(args.email, envKey, config.value);
    if credentials.None? {
      return Outcome([CredentialsMissing], Exit, None), null;
    }
    updater := new Updater(args.domain, credentials.value.email, credentials.value.apiKey, args.iface,
                           args.addAaaa, args.dryRun, args.forceReport, startTime, api);
    var status := updater.Attempt();
    if status.Raise? {
      return Outcome([], status, None), updater;
    }
    var mail := SendReport(args, updater, status == Exit);
    return Outcome([], status, mail), updater;
  }
}
