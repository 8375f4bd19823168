/** updatecloudflaredns.py: the log-only script. It decides the same
    mutations as cloudflareupdatedns/dnsupdate.py but keeps no lists of
    changes or errors: what it reports goes to the log, an unsuccessful reply
    is only logged, and `update_dns` and `main` catch nothing. The
    model keeps the warnings and errors it logs as events, and the actions
    it handles, dry-run or not, as a ghost trace. */
module Classic {
  import opened Common
  import opened Dns
  import opened Reconcile
  import opened AddressSelection
  import opened Settings

  datatype Level = Warning | Error

  /** The warnings and errors the script logs (the exact wording of each
      message is not modelled, only what it reports and at which level). */
  datatype Event =
    | TokenRejected                                 // "API token verification failed. Response: ..."
    | CallFailed(detail: string)                    // "API call failed: ..."
    | Ipv4Unavailable                               // "Failed to retrieve public IPv4 address"
    | NoIpv6Found(iface: string)                    // "No permanent global IPv6 address found on interface ..."
    | Ipv6CommandFailed(iface: string)              // "Failed to retrieve IPv6 address for interface ..."
    | Ipv6LookupError(detail: string)               // "Error while getting IPv6 address: ..."
    | NoInterface                                   // "No interface specified for IPv6 lookup"
    | ZoneNotFound(domain: string)                  // "Unable to fetch Zone ID for ..."
    | Rejected(act: Action)                         // "Failed to update ..." / "Failed to add AAAA record ..."
    | ConfigNotJson(path: string)                   // "Config file ... is not valid JSON. Ignoring it."
    | ConfigUnreadable(path: string, detail: string) // "Error reading config file ...: ..."
    | CredentialsMissing                            // "Cloudflare email and API key are required. ..."

  function LevelOf(e: Event): Level {
    match e
    case NoIpv6Found(_) => Warning
    case Ipv6CommandFailed(_) => Warning
    case Ipv6LookupError(_) => Warning
    case NoInterface => Warning
    case ConfigNotJson(_) => Warning
    case ConfigUnreadable(_, _) => Warning
    case _ => Error
  }

  /** What the record loops leave behind: the actions handed to
      `update_dns_record` / `add_aaaa_record`, the requests actually sent,
      and the events logged. */
  datatype Trace = Trace(handled: seq<Action>, requests: seq<Action>, events: seq<Event>)

  /** A trace, and how the step that produced it ended. */
  datatype Stage = Stage(trace: Trace, status: Status)

  /** `update_dns_record` / `add_aaaa_record` for one action: a dry run
      returns before any request; live, the request is sent, a transport
      failure exits, and an unsuccessful reply is logged and the run goes on. */
  function Issue(dryRun: bool, act: Action, reply: Call<MutationReply>, t: Trace): (s: Stage)
    ensures s.trace.handled == t.handled + [act]
    ensures s.trace.requests == if dryRun then t.requests else t.requests + [act]
    ensures s.status == Exit <==> !dryRun && reply.Failed?
    ensures s.status != Exit ==> s.status == Proceed
    ensures dryRun ==> s.trace.events == t.events
    ensures !dryRun && reply.Failed? ==> s.trace.events == t.events + [CallFailed(reply.detail)]
    ensures !dryRun && reply.Delivered? ==>
              s.trace.events == t.events + if reply.reply.success then [] else [Rejected(act)]
  {
    var handled := t.handled + [act];
    if dryRun then Stage(t.(handled := handled), Proceed)
    else
      var requests := t.requests + [act];
      match reply
      case Failed(detail) => Stage(Trace(handled, requests, t.events + [CallFailed(detail)]), Exit)
      case Delivered(response) =>
        var events := if response.success then t.events else t.events + [Rejected(act)];
        assert events == t.events + if response.success then [] else [Rejected(act)];
        Stage(Trace(handled, requests, events), Proceed)
  }

  /** Issuing the actions of a plan in order until one stops the run; the
      reply to a request is the oracle's answer for its position in the run. */
  function Replay(dryRun: bool, plan: seq<Action>, replies: nat -> Call<MutationReply>, t: Trace): (s: Stage)
    ensures t.handled <= s.trace.handled && t.requests <= s.trace.requests && t.events <= s.trace.events
  {
    if plan == [] then Stage(t, Proceed)
    else
      var s := Replay(dryRun, plan[..|plan| - 1], replies, t);
      if s.status != Proceed then s
      else Issue(dryRun, plan[|plan| - 1], replies(|s.trace.requests|), s.trace)
  }

  /** Replaying the rest of a plan after a stage. */
  function Continue(dryRun: bool, s: Stage, rest: seq<Action>, replies: nat -> Call<MutationReply>): Stage {
    if s.status != Proceed then s else Replay(dryRun, rest, replies, s.trace)
  }

  /** The events of the unsuccessful replies to the requests of a plan sent
      from position `base` of the run on, in order. */
  function Rejections(plan: seq<Action>, replies: nat -> Call<MutationReply>, base: nat): seq<Event> {
    if plan == [] then []
    else
      var init := plan[..|plan| - 1];
      var reply := replies(base + |init|);
      Rejections(init, replies, base)
      + if reply.Delivered? && !reply.reply.success then [Rejected(plan[|plan| - 1])] else []
  }

  /** `update_dns`: fetch both listings (a transport failure exits), read
      their `result` lists (a missing one raises KeyError, which nothing
      catches), then issue the plan. */
  function UpdateDnsStage(dryRun: bool, addAaaa: bool, ipv4: string, ipv6: Option<string>,
                          aListing: Call<ListReply>, aaaaListing: Call<ListReply>,
                          replies: nat -> Call<MutationReply>, t: Trace): (s: Stage)
    ensures t.handled <= s.trace.handled && t.requests <= s.trace.requests && t.events <= s.trace.events
  {
    match (aListing, aaaaListing)
    case (Failed(d), _) => Stage(t.(events := t.events + [CallFailed(d)]), Exit)
    case (Delivered(_), Failed(d)) => Stage(t.(events := t.events + [CallFailed(d)]), Exit)
    case (Delivered(ar), Delivered(qr)) =>
      if ar.result.None? || qr.result.None? then Stage(t, Raise(MissingResultText))
      else Replay(dryRun, Plan(ar.result.value, qr.result.value, ipv4, ipv6, addAaaa), replies, t)
  }

  // ------------------------------------------------------------ replay

  /** Replaying `p + q` is replaying `p`, then `q` if `p` let the run go on. */
  lemma {:induction false} ReplayAppend(dryRun: bool, p: seq<Action>, q: seq<Action>,
                                        replies: nat -> Call<MutationReply>, t: Trace)
    ensures Replay(dryRun, p + q, replies, t) == Continue(dryRun, Replay(dryRun, p, replies, t), q, replies)
    decreases |q|
  {
    if q == [] {
      assert p + q == p;
    } else {
      var init := q[..|q| - 1];
      ReplayAppend(dryRun, p, init, replies, t);
      assert (p + q)[..|p + q| - 1] == p + init;
      assert (p + q)[|p + q| - 1] == q[|q| - 1];
    }
  }

  /** Once a prefix of a plan stops the run, the rest is never issued. */
  lemma ReplaySettled(dryRun: bool, p: seq<Action>, plan: seq<Action>, replies: nat -> Call<MutationReply>, t: Trace)
    requires p <= plan
    requires Replay(dryRun, p, replies, t).status != Proceed
    ensures Replay(dryRun, plan, replies, t) == Replay(dryRun, p, replies, t)
  {
    assert plan == p + plan[|p|..];
    ReplayAppend(dryRun, p, plan[|p|..], replies, t);
  }

  /** Issuing one more action after a prefix. */
  lemma ReplaySnoc(dryRun: bool, p: seq<Action>, act: Action, replies: nat -> Call<MutationReply>, t: Trace)
    requires Replay(dryRun, p, replies, t).status == Proceed
    ensures var s := Replay(dryRun, p, replies, t);
            Replay(dryRun, p + [act], replies, t) == Issue(dryRun, act, replies(|s.trace.requests|), s.trace)
  {
    assert (p + [act])[..|p|] == p;
  }

  /** A dry run handles every action of the plan, in order, sends no request,
      logs nothing and goes on. */
  lemma {:induction false} ReplayDryRun(plan: seq<Action>, replies: nat -> Call<MutationReply>, t: Trace)
    ensures Replay(true, plan, replies, t) == Stage(t.(handled := t.handled + plan), Proceed)
  {
    if plan != [] {
      var init := plan[..|plan| - 1];
      ReplayDryRun(init, replies, t);
      assert plan == init + [plan[|plan| - 1]];
    }
  }

  /** Live, the run sends a prefix of the plan, in plan order, each action
      handled as it is sent; the whole plan is sent when the run goes on, it
      never raises, and it exits only right after a request that failed in
      transport, whose failure is the last event logged. */
  lemma {:induction false} ReplayLive(plan: seq<Action>, replies: nat -> Call<MutationReply>, t: Trace)
    ensures var s := Replay(false, plan, replies, t);
            var k := |s.trace.requests| - |t.requests|;
            && 0 <= k <= |plan|
            && s.trace.requests == t.requests + plan[..k]
            && s.trace.handled == t.handled + plan[..k]
            && !s.status.Raise?
            && (s.status == Proceed ==> k == |plan|)
            && (s.status == Exit ==>
                  && 0 < k && replies(|t.requests| + k - 1).Failed?
                  && |s.trace.events| > 0
                  && s.trace.events[|s.trace.events| - 1] == CallFailed(replies(|t.requests| + k - 1).detail))
  {
    if plan != [] {
      var init, last := plan[..|plan| - 1], plan[|plan| - 1];
      ReplayLive(init, replies, t);
      var s0 := Replay(false, init, replies, t);
      var k0 := |s0.trace.requests| - |t.requests|;
      if s0.status == Proceed {
        assert init[..k0] == init;
        assert plan == init + [last];
        assert plan[..|plan|] == plan;
      } else {
        assert plan[..k0] == init[..k0];
      }
    }
  }

  /** Live, when every request gets a reply, an unsuccessful one included,
      the whole plan is sent in order and the run goes on; the events logged
      are exactly the rejections. */
  lemma {:induction false} ReplayDelivered(plan: seq<Action>, replies: nat -> Call<MutationReply>, t: Trace)
    requires forall j :: |t.requests| <= j < |t.requests| + |plan| ==> replies(j).Delivered?
    ensures Replay(false, plan, replies, t)
            == Stage(Trace(t.handled + plan, t.requests + plan, t.events + Rejections(plan, replies, |t.requests|)), Proceed)
  {
    if plan != [] {
      var init := plan[..|plan| - 1];
      ReplayDelivered(init, replies, t);
      assert init + [plan[|plan| - 1]] == plan;
    }
  }

  /** There is one rejection per unsuccessful reply and no other: none at
      all when the provider accepts every request. */
  lemma {:induction false} RejectionsOfAccepted(plan: seq<Action>, replies: nat -> Call<MutationReply>, base: nat)
    requires forall j :: base <= j < base + |plan| ==> replies(j).Delivered? && replies(j).reply.success
    ensures Rejections(plan, replies, base) == []
  {
    if plan != [] {
      RejectionsOfAccepted(plan[..|plan| - 1], replies, base);
    }
  }

  /** Each rejection names an action of the plan. */
  lemma {:induction false} RejectionsFromPlan(plan: seq<Action>, replies: nat -> Call<MutationReply>, base: nat)
    ensures |Rejections(plan, replies, base)| <= |plan|
    ensures forall e :: e in Rejections(plan, replies, base) ==> e.Rejected? && e.act in plan
  {
    if plan != [] {
      var init := plan[..|plan| - 1];
      RejectionsFromPlan(init, replies, base);
      assert forall a :: a in init ==> a in plan;
    }
  }

  // ------------------------------------------------------------ update_dns

  /** `update_dns` in a dry run sends no request; given both listings it
      handles the whole plan and logs nothing. */
  lemma UpdateDnsDryRun(addAaaa: bool, ipv4: string, ipv6: Option<string>,
                        aListing: Call<ListReply>, aaaaListing: Call<ListReply>,
                        replies: nat -> Call<MutationReply>, t: Trace)
    ensures var s := UpdateDnsStage(true, addAaaa, ipv4, ipv6, aListing, aaaaListing, replies, t);
            && s.trace.requests == t.requests
            && (aListing.Delivered? && aaaaListing.Delivered?
                && aListing.reply.result.Some? && aaaaListing.reply.result.Some? ==>
                  s == Stage(t.(handled := t.handled + Plan(aListing.reply.result.value, aaaaListing.reply.result.value,
                                                            ipv4, ipv6, addAaaa)), Proceed))
  {
    if aListing.Delivered? && aaaaListing.Delivered? && aListing.reply.result.Some? && aaaaListing.reply.result.Some? {
      ReplayDryRun(Plan(aListing.reply.result.value, aaaaListing.reply.result.value, ipv4, ipv6, addAaaa), replies, t);
    }
  }

  /** `update_dns` raises only on a listing without `result`; it exits only
      after logging a failed call, and it keeps what was logged before. */
  lemma UpdateDnsEndings(dryRun: bool, addAaaa: bool, ipv4: string, ipv6: Option<string>,
                         aListing: Call<ListReply>, aaaaListing: Call<ListReply>,
                         replies: nat -> Call<MutationReply>, t: Trace)
    ensures var s := UpdateDnsStage(dryRun, addAaaa, ipv4, ipv6, aListing, aaaaListing, replies, t);
            && t.events <= s.trace.events
            && (s.status.Raise? <==>
                  aListing.Delivered? && aaaaListing.Delivered?
                  && (aListing.reply.result.None? || aaaaListing.reply.result.None?))
            && (s.status.Raise? ==> s.status == Raise(MissingResultText))
            && (s.status == Exit ==> |s.trace.events| > |t.events| && s.trace.events[|s.trace.events| - 1].CallFailed?)
  {
    if aListing.Delivered? && aaaaListing.Delivered? && aListing.reply.result.Some? && aaaaListing.reply.result.Some? {
      var plan := Plan(aListing.reply.result.value, aaaaListing.reply.result.value, ipv4, ipv6, addAaaa);
      if dryRun {
        ReplayDryRun(plan, replies, t);
      } else {
        ReplayLive(plan, replies, t);
        ReplayEventsGrow(plan, replies, t);
      }
    }
  }

  /** Events are only ever appended, and an exit appends one. */
  lemma {:induction false} ReplayEventsGrow(plan: seq<Action>, replies: nat -> Call<MutationReply>, t: Trace)
    ensures var s := Replay(false, plan, replies, t);
            t.events <= s.trace.events && (s.status == Exit ==> |s.trace.events| > |t.events|)
  {
    if plan != [] {
      ReplayEventsGrow(plan[..|plan| - 1], replies, t);
    }
  }

  /** Once a pass stops at a record, the records after it change nothing. */
  lemma PassSettled(dryRun: bool, pass: Pass, records: seq<DnsRecord>, i: nat, before: seq<Action>,
                    replies: nat -> Call<MutationReply>, t: Trace)
    requires i < |records|
    requires Replay(dryRun, before + Scan(pass, records[..i + 1]), replies, t).status != Proceed
    ensures Replay(dryRun, before + Scan(pass, records), replies, t)
            == Replay(dryRun, before + Scan(pass, records[..i + 1]), replies, t)
  {
    ScanPrefix(pass, records, i + 1);
    ReplaySettled(dryRun, before + Scan(pass, records[..i + 1]), before + Scan(pass, records), replies, t);
  }

  // ------------------------------------------------------------ lookups

  /** The IPv6 half of `get_public_ip`: with a truthy interface, the address
      chosen from the `ip` command's output lines; finding none, or the
      command failing, logs one warning and leaves the IPv6 as it was.
      Without an interface a warning says so. */
  function LookUpIpv6(iface: Option<string>, command: IpCommand, prior: Option<string>)
    : (r: (Option<string>, seq<Event>))
    ensures |r.1| <= 1 && forall e :: e in r.1 ==> LevelOf(e) == Warning
    ensures r.1 == [] <==> Truthy(iface) && command.Output? && Chosen(SplitOn(command.text, '\n')).Some?
    ensures r.1 == [] ==> r.0 == Chosen(SplitOn(command.text, '\n'))
    ensures r.1 != [] ==> r.0 == prior
  {
    if !Truthy(iface) then (prior, [NoInterface])
    else match command
      case Output(text) =>
        var found := Chosen(SplitOn(text, '\n'));
        if found.Some? then (found, []) else (prior, [NoIpv6Found(iface.value)])
      case CommandFailed(_) => (prior, [Ipv6CommandFailed(iface.value)])
      case LaunchFailed(detail) => (prior, [Ipv6LookupError(detail)])
  }

  /** What the token check and the two lookups at the start of the run
      leave: how they ended, the events they logged, the two addresses and
      the zone id. */
  datatype Lookups = Lookups(status: Status, events: seq<Event>,
                             ipv4: Option<string>, ipv6: Option<string>, zoneId: Option<string>)

  /** `verify_api_key`, `get_public_ip` and `get_zone_id`, each run only when
      the ones before it let the run go on, from the given addresses and zone. */
  function LookUp(domain: string, iface: Option<string>, api: Service,
                  ipv4: Option<string>, ipv6: Option<string>, zoneId: Option<string>): (l: Lookups)
    ensures l.status == Proceed || l.status == Exit
    ensures l.status == Proceed <==>
              && api.verify.Delivered? && TokenAccepted(api.verify.reply)
              && api.publicIp.Delivered? && api.zone.Delivered? && ZoneIdOf(api.zone.reply).Some?
    ensures l.status == Proceed ==>
              && l.ipv4 == Some(api.publicIp.reply) && l.zoneId == ZoneIdOf(api.zone.reply)
              && (l.ipv6, l.events) == LookUpIpv6(iface, api.ipCommand, ipv6)
    ensures l.status == Exit ==> l.events != [] && LevelOf(l.events[|l.events| - 1]) == Error
    ensures !(api.verify.Delivered? && TokenAccepted(api.verify.reply)) ==>
              l.ipv4 == ipv4 && l.ipv6 == ipv6 && l.zoneId == zoneId
  {
    match api.verify
    case Failed(detail) => Lookups(Exit, [CallFailed(detail)], ipv4, ipv6, zoneId)
    case Delivered(response) =>
      if !TokenAccepted(response) then Lookups(Exit, [TokenRejected], ipv4, ipv6, zoneId)
      else match api.publicIp
        case Failed(_) => Lookups(Exit, [Ipv4Unavailable], ipv4, ipv6, zoneId)
        case Delivered(address) =>
          var (found, warnings) := LookUpIpv6(iface, api.ipCommand, ipv6);
          match api.zone
          case Failed(detail) => Lookups(Exit, warnings + [CallFailed(detail)], Some(address), found, zoneId)
          case Delivered(zone) =>
            if ZoneIdOf(zone).None? then Lookups(Exit, warnings + [ZoneNotFound(domain)], Some(address), found, zoneId)
            else Lookups(Proceed, warnings, Some(address), found, ZoneIdOf(zone))
  }

  /** The trace the run leaves after the updater is made, and how it ends:
      the lookups from the given addresses and zone, then, when they let the
      run go on, `update_dns` from the trace they leave. */
  function Attempted(domain: string, iface: Option<string>, dryRun: bool, addAaaa: bool, api: Service,
                     ipv4: Option<string>, ipv6: Option<string>, zoneId: Option<string>, t: Trace): Stage {
    var l := LookUp(domain, iface, api, ipv4, ipv6, zoneId);
    var looked := t.(events := t.events + l.events);
    if l.status != Proceed then Stage(looked, l.status)
    else UpdateDnsStage(dryRun, addAaaa, l.ipv4.value, l.ipv6, api.aListing, api.aaaaListing, api.mutations, looked)
  }

  /** `Attempted` on a fresh updater whose log already holds `events`. */
  function AttemptedFresh(domain: string, iface: Option<string>, dryRun: bool, addAaaa: bool, api: Service,
                          events: seq<Event>): Stage {
    Attempted(domain, iface, dryRun, addAaaa, api, None, None, None, Trace([], [], events))
  }

  /** A live run that gets past the lookups, reads both listings and gets a
      reply to every request sends exactly the plan for those listings, the
      echoed IPv4 and the IPv6 chosen on the interface; after the lookups'
      warnings it logs only the unsuccessful replies, and it goes on. */
  lemma AttemptedDelivered(domain: string, iface: Option<string>, addAaaa: bool, api: Service, events: seq<Event>)
    requires LookUp(domain, iface, api, None, None, None).status == Proceed
    requires ListingsRead(api) && AnswersEveryMutation(api)
    ensures var l := LookUp(domain, iface, api, None, None, None);
            var plan := Plan(api.aListing.reply.result.value, api.aaaaListing.reply.result.value,
                             api.publicIp.reply, l.ipv6, addAaaa);
            && l.ipv6 == LookUpIpv6(iface, api.ipCommand, None).0
            && AttemptedFresh(domain, iface, false, addAaaa, api, events)
               == Stage(Trace(plan, plan, events + l.events + Rejections(plan, api.mutations, 0)), Proceed)
  {
    var l := LookUp(domain, iface, api, None, None, None);
    var plan := Plan(api.aListing.reply.result.value, api.aaaaListing.reply.result.value,
                     api.publicIp.reply, l.ipv6, addAaaa);
    var t := Trace([], [], events).(events := events + l.events);
    ReplayDelivered(plan, api.mutations, t);
    assert t.handled + plan == plan && t.requests + plan == plan;
  }

  /** With every request accepted as well, nothing is logged after the lookups. */
  lemma AttemptedAccepted(domain: string, iface: Option<string>, addAaaa: bool, api: Service, events: seq<Event>)
    requires LookUp(domain, iface, api, None, None, None).status == Proceed
    requires ListingsRead(api) && AcceptsEveryMutation(api)
    ensures var l := LookUp(domain, iface, api, None, None, None);
            var plan := Plan(api.aListing.reply.result.value, api.aaaaListing.reply.result.value,
                             api.publicIp.reply, l.ipv6, addAaaa);
            AttemptedFresh(domain, iface, false, addAaaa, api, events)
            == Stage(Trace(plan, plan, events + l.events), Proceed)
  {
    var l := LookUp(domain, iface, api, None, None, None);
    var plan := Plan(api.aListing.reply.result.value, api.aaaaListing.reply.result.value,
                     api.publicIp.reply, l.ipv6, addAaaa);
    AttemptedDelivered(domain, iface, addAaaa, api, events);
    RejectionsOfAccepted(plan, api.mutations, 0);
    assert events + l.events + [] == events + l.events;
  }

  /** A dry run sends nothing; past the lookups and with both listings read
      it hands the whole plan over and logs nothing after the lookups. */
  lemma AttemptedDryRun(domain: string, iface: Option<string>, addAaaa: bool, api: Service, events: seq<Event>)
    ensures var l := LookUp(domain, iface, api, None, None, None);
            var s := AttemptedFresh(domain, iface, true, addAaaa, api, events);
            && s.trace.requests == []
            && (l.status == Proceed && ListingsRead(api) ==>
                  var plan := Plan(api.aListing.reply.result.value, api.aaaaListing.reply.result.value,
                                   api.publicIp.reply, l.ipv6, addAaaa);
                  s == Stage(Trace(plan, [], events + l.events), Proceed))
  {
    var l := LookUp(domain, iface, api, None, None, None);
    var t := Trace([], [], events).(events := events + l.events);
    if l.status == Proceed {
      UpdateDnsDryRun(addAaaa, l.ipv4.value, l.ipv6, api.aListing, api.aaaaListing, api.mutations, t);
      if ListingsRead(api) {
        var plan := Plan(api.aListing.reply.result.value, api.aaaaListing.reply.result.value,
                         api.publicIp.reply, l.ipv6, addAaaa);
        assert t.handled + plan == plan;
      }
    }
  }

  class Updater {
    const domain: string
    const email: string
    const apiKey: string
    const networkInterface: Option<string>
    const addAaaa: bool
    const dryRun: bool
    const api: Service

    var zoneId: Option<string>
    var ipv4: Option<string>
    var ipv6: Option<string>
    /** The warnings and errors logged so far. */
    var events: seq<Event>
    /** The PUT and POST requests sent to the provider so far, in order. */
    var requests: seq<Action>
    /** The actions handed to `update_dns_record` / `add_aaaa_record` so far. */
    ghost var handled: seq<Action>

    constructor (domain: string, email: string, apiKey: string, networkInterface: Option<string>,
                 addAaaa: bool, dryRun: bool, api: Service, events: seq<Event>)
      ensures this.domain == domain && this.email == email && this.apiKey == apiKey
      ensures this.networkInterface == networkInterface && this.addAaaa == addAaaa
      ensures this.dryRun == dryRun && this.api == api
      ensures zoneId == None && ipv4 == None && ipv6 == None
      ensures this.events == events && requests == [] && handled == []
    {
      this.domain := domain;
      this.email := email;
      this.apiKey := apiKey;
      this.networkInterface := networkInterface;
      this.addAaaa := addAaaa;
      this.dryRun := dryRun;
      this.api := api;
      zoneId := None;
      ipv4 := None;
      ipv6 := None;
      this.events := events;
      requests := [];
      handled := [];
    }

    /** The part of the state the record loops work on. */
    ghost function CurrentTrace(): Trace
      reads this
    {
      Trace(handled, requests, events)
    }

    method Log(e: Event)
      modifies this
      ensures events == old(events) + [e]
      ensures requests == old(requests) && handled == old(handled)
      ensures zoneId == old(zoneId) && ipv4 == old(ipv4) && ipv6 == old(ipv6)
    {
      events := events + [e];
    }

    /** The token is accepted only with `success` and status `active`; any
        other reply is logged as an error and exits. */
    method VerifyApiKey() returns (status: Status)
      modifies this
      ensures status == Proceed <==> api.verify.Delivered? && TokenAccepted(api.verify.reply)
      ensures status != Proceed ==> status == Exit
      ensures status == Proceed ==> events == old(events)
      ensures api.verify.Failed? ==> events == old(events) + [CallFailed(api.verify.detail)]
      ensures api.verify.Delivered? && !TokenAccepted(api.verify.reply) ==> events == old(events) + [TokenRejected]
      ensures requests == old(requests) && handled == old(handled)
      ensures zoneId == old(zoneId) && ipv4 == old(ipv4) && ipv6 == old(ipv6)
    {
      match api.verify
      case Failed(detail) =>
        Log(CallFailed(detail));
        return Exit;
      case Delivered(response) =>
        if TokenAccepted(response) {
          return Proceed;
        }
        Log(TokenRejected);
        return Exit;
    }

    /** The IPv4 is whatever the echo service answers; failing to reach it is
        fatal. With a truthy interface the IPv6 is the address chosen from the
        `ip` command's output lines; finding none, or the command failing,
        only logs a warning. Without an interface a warning says so. */
    method GetPublicIp() returns (status: Status)
      modifies this
      ensures api.publicIp.Failed? ==>
                status == Exit && events == old(events) + [Ipv4Unavailable] && ipv4 == old(ipv4) && ipv6 == old(ipv6)
      ensures api.publicIp.Delivered? ==> status == Proceed && ipv4 == Some(api.publicIp.reply)
      ensures api.publicIp.Delivered? && !Truthy(networkInterface) ==>
                ipv6 == old(ipv6) && events == old(events) + [NoInterface]
      ensures api.publicIp.Delivered? && Truthy(networkInterface) && api.ipCommand.Output? ==>
                var found := Chosen(SplitOn(api.ipCommand.text, '\n'));
                && (found.Some? ==> ipv6 == found && events == old(events))
                && (found.None? ==> ipv6 == old(ipv6) && events == old(events) + [NoIpv6Found(networkInterface.value)])
      ensures api.publicIp.Delivered? && Truthy(networkInterface) && api.ipCommand.CommandFailed? ==>
                ipv6 == old(ipv6) && events == old(events) + [Ipv6CommandFailed(networkInterface.value)]
      ensures api.publicIp.Delivered? && Truthy(networkInterface) && api.ipCommand.LaunchFailed? ==>
                ipv6 == old(ipv6) && events == old(events) + [Ipv6LookupError(api.ipCommand.detail)]
      ensures status == Proceed ==> forall i :: |old(events)| <= i < |events| ==> LevelOf(events[i]) == Warning
      ensures api.publicIp.Delivered? ==>
                var (found, warnings) := LookUpIpv6(networkInterface, api.ipCommand, old(ipv6));
                ipv6 == found && events == old(events) + warnings
      ensures requests == old(requests) && handled == old(handled) && zoneId == old(zoneId)
    {
      match api.publicIp
      case Failed(_) =>
        Log(Ipv4Unavailable);
        return Exit;
      case Delivered(text) =>
        ipv4 := Some(text);
      if Truthy(networkInterface) {
        match api.ipCommand
        case Output(output) =>
          var found := SelectIpv6(SplitOn(output, '\n'));
          if found.Some? {
            ipv6 := found;
          } else {
            Log(NoIpv6Found(networkInterface.value));
          }
        case CommandFailed(_) =>
          Log(Ipv6CommandFailed(networkInterface.value));
        case LaunchFailed(detail) =>
          Log(Ipv6LookupError(detail));
      } else {
        Log(NoInterface);
      }
      return Proceed;
    }

    /** The zone id is the `id` of the first zone listed; no such id is fatal. */
    method GetZoneId() returns (status: Status)
      modifies this
      ensures status == Proceed <==> api.zone.Delivered? && ZoneIdOf(api.zone.reply).Some?
      ensures status != Proceed ==> status == Exit && zoneId == old(zoneId)
      ensures status == Proceed ==> zoneId == ZoneIdOf(api.zone.reply) && events == old(events)
      ensures api.zone.Failed? ==> events == old(events) + [CallFailed(api.zone.detail)]
      ensures api.zone.Delivered? && ZoneIdOf(api.zone.reply).None? ==> events == old(events) + [ZoneNotFound(domain)]
      ensures requests == old(requests) && handled == old(handled) && ipv4 == old(ipv4) && ipv6 == old(ipv6)
    {
      match api.zone
      case Failed(detail) =>
        Log(CallFailed(detail));
        return Exit;
      case Delivered(response) =>
        var id := ZoneIdOf(response);
        if id.None? {
          Log(ZoneNotFound(domain));
          return Exit;
        }
        zoneId := id;
        return Proceed;
    }

    /** One mutation: nothing is sent in a dry run; live, the request is sent
        and its reply handled. */
    method Send(act: Action) returns (status: Status)
      modifies this
      ensures Stage(CurrentTrace(), status) == Issue(dryRun, act, api.mutations(|old(requests)|), old(CurrentTrace()))
      ensures zoneId == old(zoneId) && ipv4 == old(ipv4) && ipv6 == old(ipv6)
    {
      handled := handled + [act];
      if dryRun {
        return Proceed;
      }
      var reply := api.mutations(|requests|);
      requests := requests + [act];
      match reply
      case Failed(detail) =>
        Log(CallFailed(detail));
        return Exit;
      case Delivered(response) =>
        if !response.success {
          Log(Rejected(act));
        }
        return Proceed;
    }

    /** `update_dns_record`: a PUT of the new content to the record's id,
        keeping its type, name, ttl and proxied flag. */
    method UpdateDnsRecord(recordType: RecordType, recordName: string, oldIp: string, newIp: string,
                           recordId: string, ttl: int, proxied: bool) returns (status: Status)
      modifies this
      ensures var act := Update(recordType, recordId, recordName, oldIp, newIp, ttl, proxied);
              Stage(CurrentTrace(), status) == Issue(dryRun, act, api.mutations(|old(requests)|), old(CurrentTrace()))
      ensures zoneId == old(zoneId) && ipv4 == old(ipv4) && ipv6 == old(ipv6)
    {
      status := Send(Update(recordType, recordId, recordName, oldIp, newIp, ttl, proxied));
    }

    /** `add_aaaa_record`: a POST of a new AAAA record. */
    method AddAaaaRecord(recordName: string, address: string, ttl: int, proxied: bool) returns (status: Status)
      modifies this
      ensures var act := Create(recordName, address, ttl, proxied);
              Stage(CurrentTrace(), status) == Issue(dryRun, act, api.mutations(|old(requests)|), old(CurrentTrace()))
      ensures zoneId == old(zoneId) && ipv4 == old(ipv4) && ipv6 == old(ipv6)
    {
      status := Send(Create(recordName, address, ttl, proxied));
    }

    /** The body of a pass's loop for the i-th record of the listing: when the
        pass selects the record, its mutation is issued at once. */
    method Visit(pass: Pass, records: seq<DnsRecord>, i: nat, ghost before: seq<Action>, ghost t0: Trace)
      returns (status: Status)
      requires i < |records|
      requires Replay(dryRun, before + Scan(pass, records[..i]), api.mutations, t0) == Stage(CurrentTrace(), Proceed)
      modifies this
      ensures Stage(CurrentTrace(), status) == Replay(dryRun, before + Scan(pass, records[..i + 1]), api.mutations, t0)
      ensures zoneId == old(zoneId) && ipv4 == old(ipv4) && ipv6 == old(ipv6)
    {
      var record := records[i];
      ghost var done := before + Scan(pass, records[..i]);
      PassStep(pass, records, i, before);
      if !Selects(pass, record) {
        assert done + [] == done;
        return Proceed;
      }
      ReplaySnoc(dryRun, done, ActionFor(pass, record), api.mutations, t0);
      match pass {
        case RefreshA(address) =>
          status := UpdateDnsRecord(A, record.name, record.content, address, record.id, record.ttl, record.proxied);
        case RefreshAaaa(address) =>
          status := UpdateDnsRecord(AAAA, record.name, record.content, address, record.id, record.ttl, record.proxied);
        case AddMissingAaaa(_, address) =>
          status := AddAaaaRecord(record.name, address, record.ttl, record.proxied);
      }
    }

    /** One of the three loops of `update_dns`; an exit ends the loop. */
    method RunPass(pass: Pass, records: seq<DnsRecord>, ghost before: seq<Action>, ghost t0: Trace)
      returns (status: Status)
      requires Replay(dryRun, before, api.mutations, t0) == Stage(CurrentTrace(), Proceed)
      modifies this
      ensures Stage(CurrentTrace(), status) == Replay(dryRun, before + Scan(pass, records), api.mutations, t0)
      ensures zoneId == old(zoneId) && ipv4 == old(ipv4) && ipv6 == old(ipv6)
    {
      assert before + Scan(pass, records[..0]) == before;
      var i := 0;
      while i < |records|
        invariant i <= |records|
        invariant Replay(dryRun, before + Scan(pass, records[..i]), api.mutations, t0) == Stage(CurrentTrace(), Proceed)
        invariant zoneId == old(zoneId) && ipv4 == old(ipv4) && ipv6 == old(ipv6)
      {
        status := Visit(pass, records, i, before, t0);
        if status != Proceed {
          PassSettled(dryRun, pass, records, i, before, api.mutations, t0);
          return;
        }
        i := i + 1;
      }
      assert records[..i] == records;
      return Proceed;
    }

    /** `update_dns`: fetch both listings, then run the three passes, each
        mutation issued as soon as it is decided. */
    method UpdateDns() returns (status: Status)
      requires ipv4.Some?
      modifies this
      ensures Stage(CurrentTrace(), status)
              == UpdateDnsStage(dryRun, addAaaa, old(ipv4).value, ipv6, api.aListing, api.aaaaListing,
                                api.mutations, old(CurrentTrace()))
      ensures zoneId == old(zoneId) && ipv4 == old(ipv4) && ipv6 == old(ipv6)
    {
      if api.aListing.Failed? {
        Log(CallFailed(api.aListing.detail));
        return Exit;
      }
      if api.aaaaListing.Failed? {
        Log(CallFailed(api.aaaaListing.detail));
        return Exit;
      }
      var aResult, aaaaResult := api.aListing.reply.result, api.aaaaListing.reply.result;
      if aResult.None? || aaaaResult.None? {
        return Raise(MissingResultText);
      }
      var aRecords, aaaaRecords := aResult.value, aaaaResult.value;
      ghost var t0 := CurrentTrace();
      ghost var plan := Plan(aRecords, aaaaRecords, ipv4.value, ipv6, addAaaa);
      ghost var p1 := Scan(RefreshA(ipv4.value), aRecords);
      ghost var p2 := if Truthy(ipv6) then Scan(RefreshAaaa(ipv6.value), aaaaRecords) else [];

      // Update A records
      status := RunPass(RefreshA(ipv4.value), aRecords, [], t0);
      assert [] + p1 == p1;
      if status != Proceed {
        ReplaySettled(dryRun, p1, plan, api.mutations, t0);
        return;
      }

      // Update AAAA records
      if Truthy(ipv6) {
        status := RunPass(RefreshAaaa(ipv6.value), aaaaRecords, p1, t0);
        if status != Proceed {
          ReplaySettled(dryRun, p1 + p2, plan, api.mutations, t0);
          return;
        }
      } else {
        assert p1 + p2 == p1;
      }

      // Add missing AAAA records if the option is enabled
      if addAaaa && Truthy(ipv6) {
        var existing := set record | record in aaaaRecords :: record.name;
        status := RunPass(AddMissingAaaa(existing, ipv6.value), aRecords, p1 + p2, t0);
      } else {
        assert p1 + p2 == plan;
      }
    }

    /** The token check and the two lookups, each run only when the ones
        before it let the run go on. */
    method Prepare() returns (status: Status)
      modifies this
      ensures status != Proceed ==> status == Exit
      ensures old(events) <= events
      ensures status == Exit ==> |events| > |old(events)| && LevelOf(events[|events| - 1]) == Error
      ensures status == Proceed ==>
                && api.verify.Delivered? && TokenAccepted(api.verify.reply)
                && api.publicIp.Delivered? && ipv4 == Some(api.publicIp.reply)
                && api.zone.Delivered? && zoneId == ZoneIdOf(api.zone.reply) && zoneId.Some?
      ensures var l := LookUp(domain, networkInterface, api, old(ipv4), old(ipv6), old(zoneId));
              && status == l.status && events == old(events) + l.events
              && ipv4 == l.ipv4 && ipv6 == l.ipv6 && zoneId == l.zoneId
      ensures requests == old(requests) && handled == old(handled)
    {
      status := VerifyApiKey();
      if status != Proceed {
        return;
      }
      status := GetPublicIp();
      if status != Proceed {
        return;
      }
      status := GetZoneId();
    }

    /** The steps of `main` after the updater is made: the token check and
        the lookups, then the records. */
    method Run() returns (status: Status)
      modifies this
      ensures old(events) <= events
      ensures status == Exit ==> |events| > |old(events)| && LevelOf(events[|events| - 1]) == Error
      ensures status.Raise? ==> status == Raise(MissingResultText)
      ensures status == Proceed ==>
                && api.verify.Delivered? && TokenAccepted(api.verify.reply)
                && api.publicIp.Delivered? && ipv4 == Some(api.publicIp.reply)
                && api.zone.Delivered? && zoneId == ZoneIdOf(api.zone.reply) && zoneId.Some?
      ensures dryRun ==> requests == old(requests)
      ensures var l := LookUp(domain, networkInterface, api, old(ipv4), old(ipv6), old(zoneId));
              ipv4 == l.ipv4 && ipv6 == l.ipv6 && zoneId == l.zoneId
      ensures Stage(CurrentTrace(), status)
              == Attempted(domain, networkInterface, dryRun, addAaaa, api, old(ipv4), old(ipv6), old(zoneId),
                           old(CurrentTrace()))
    {
      status := Prepare();
      if status == Proceed {
        ghost var before := CurrentTrace();
        UpdateDnsEndings(dryRun, addAaaa, ipv4.value, ipv6, api.aListing, api.aaaaListing, api.mutations, before);
        if dryRun {
          UpdateDnsDryRun(addAaaa, ipv4.value, ipv6, api.aListing, api.aaaaListing, api.mutations, before);
        }
        status := UpdateDns();
      }
    }
  }

  // ------------------------------------------------------------ main

  /** The command-line arguments `main` uses (logging verbosity left out). */
  datatype Arguments = Arguments(
    domain: string,
    email: Option<string>,
    config: string,
    iface: Option<string>,
    dryRun: bool,
    addAaaa: bool)

  /** The config read by `main`: a file that is missing, not JSON or
      unreadable counts as an empty config, the last two with a warning. */
  function LenientConfig(path: string, file: ConfigFile): (r: (map<string, string>, seq<Event>))
    ensures file.Parsed? ==> r == (file.entries, [])
    ensures !file.Parsed? ==> r.0 == map[]
    ensures |r.1| <= 1 && forall e :: e in r.1 ==> LevelOf(e) == Warning
    ensures r.1 == [] <==> file.Missing? || file.Parsed?
  {
    match file
    case Missing => (map[], [])
    case Parsed(entries) => (entries, [])
    case NotJson => (map[], [ConfigNotJson(path)])
    case Unreadable(detail) => (map[], [ConfigUnreadable(path, detail)])
  }

  /** `main`: read the config, resolve the credentials, then verify the
      token, look up the addresses and the zone and update the records,
      each step run only when the ones before let the run go on. `envKey` is
      `CF_API_KEY` and `api` what the outside world answers. The run returns
      the events it logged and how the process ends. */
  method RunScript(args: Arguments, envKey: Option<string>, configFile: ConfigFile, api: Service)
    returns (events: seq<Event>, ending: Status, updater: Updater?)
    ensures var (config, warnings) := LenientConfig(args.config, configFile);
            && warnings <= events
            && (ResolveCredentials(args.email, envKey, config).None? ==>
                  events == warnings + [CredentialsMissing] && ending == Exit && updater == null)
            && (updater != null ==>
                  && var credentials := ResolveCredentials(args.email, envKey, config);
                  && credentials.Some?
                  && updater.email == credentials.value.email && updater.apiKey == credentials.value.apiKey
                  && updater.domain == args.domain && updater.networkInterface == args.iface
                  && updater.dryRun == args.dryRun && updater.addAaaa == args.addAaaa && updater.api == api
                  && events == updater.events)
    ensures updater != null ==> fresh(updater)
    ensures ending == Exit ==> events != [] && LevelOf(events[|events| - 1]) == Error
    ensures ending.Raise? ==> ending == Raise(MissingResultText) && updater != null
    ensures ending == Proceed ==>
              && updater != null
              && api.verify.Delivered? && TokenAccepted(api.verify.reply)
              && api.publicIp.Delivered? && updater.ipv4 == Some(api.publicIp.reply)
              && api.zone.Delivered? && updater.zoneId == ZoneIdOf(api.zone.reply) && updater.zoneId.Some?
    ensures updater != null && args.dryRun ==> updater.requests == []
    ensures updater != null ==>
              var l := LookUp(args.domain, args.iface, api, None, None, None);
              && updater.ipv4 == l.ipv4 && updater.ipv6 == l.ipv6 && updater.zoneId == l.zoneId
              && Stage(updater.CurrentTrace(), ending)
                 == AttemptedFresh(args.domain, args.iface, args.dryRun, args.addAaaa, api,
                                   LenientConfig(args.config, configFile).1)
  {
    var (config, warnings) := LenientConfig(args.config, configFile);
    var credentials := ResolveCredentials(args.email, envKey, config);
    if credentials.None? {
      return warnings + [CredentialsMissing], Exit, null;
    }
    updater := new Updater(args.domain, credentials.value.email, credentials.value.apiKey, args.iface,
                           args.addAaaa, args.dryRun, api, warnings);
    ending := updater.Run();
    events := updater.events;
  }

}
