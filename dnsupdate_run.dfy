/** What one run of `update_dns` in cloudflareupdatedns/dnsupdate.py does to
    the updater's `changes` and `errors` lists and which mutating requests it
    sends, as functions of the listings, the flags and the provider's replies.
    The `Updater` class is proved to follow these functions step by step. */
module UpdateRun {
  import opened Common
  import opened Dns
  import opened Reconcile

  /** The parts of the updater a run of `update_dns` changes: the messages
      `log_change` and `add_error` appended, and the PUT/POST requests sent. */
  datatype Log = Log(changes: seq<string>, errors: seq<string>, sent: seq<Action>)

  /** The log after a step, and how the step ended. */
  datatype Step = Step(log: Log, status: Status)

  /** The change message `update_dns_record` / `add_aaaa_record` logs for an
      action, before any request: "Would ..." in dry-run mode. */
  function Announcement(dryRun: bool, act: Action): (m: string)
    ensures StartsWith(m, "Would ") <==> dryRun
  {
    match act
    case Update(t, _, name, previous, content, _, _) =>
      var head := if dryRun then "Would update " else "Updating ";
      var m := head + TypeName(t) + " record for " + name + " from " + previous + " to " + content;
      assert m[..6] == head[..6] == if dryRun then "Would " else "Updati";
      m
    case Create(name, content, _, _) =>
      var head := if dryRun then "Would add AAAA record for " else "Adding AAAA record for ";
      var m := head + name + " with IP " + content;
      assert m[..6] == head[..6] == if dryRun then "Would " else "Adding";
      m
  }

  /** The announcements of a sequence of actions, in order. */
  function Announcements(dryRun: bool, plan: seq<Action>): (ms: seq<string>)
    ensures |ms| == |plan|
  {
    if plan == [] then []
    else Announcements(dryRun, plan[..|plan| - 1]) + [Announcement(dryRun, plan[|plan| - 1])]
  }

  /** The i-th announcement is that of the i-th action. */
  lemma {:induction false} AnnouncementsAt(dryRun: bool, plan: seq<Action>, i: nat)
    requires i < |plan|
    ensures Announcements(dryRun, plan)[i] == Announcement(dryRun, plan[i])
  {
    if i < |plan| - 1 {
      AnnouncementsAt(dryRun, plan[..|plan| - 1], i);
    }
  }

  /** The error `update_dns_record` / `add_aaaa_record` records when the
      provider answers a mutation without `success`. */
  function Complaint(act: Action, message: string): string {
    match act
    case Update(t, _, name, _, _, _, _) => "Failed to update " + TypeName(t) + " record for " + name + ": " + message
    case Create(name, _, _, _) => "Failed to add AAAA record for " + name + ": " + message
  }

  /** The error `cf_api_call` records before it exits on a transport failure. */
  function ApiCallFailed(detail: string): string {
    "API call failed: " + detail
  }

  /** The error the handler of `update_dns` records for an exception. */
  function UpdateFailed(message: string): string {
    "Failed to update DNS records: " + message
  }

  /** One call of `update_dns_record` or `add_aaaa_record` for an action.
      In dry-run mode it only logs the "Would ..." change. Live, it logs the
      change, sends the request, and then: on a transport failure records
      "API call failed" and exits; on an unsuccessful reply records one
      complaint with the first error's message and lets the run go on; on an
      unsuccessful reply with an empty `errors` list raises IndexError. */
  function Perform(dryRun: bool, act: Action, reply: Call<MutationReply>, log: Log): (s: Step)
    ensures s.log.changes == log.changes + [Announcement(dryRun, act)]
    ensures s.log.sent == if dryRun then log.sent else log.sent + [act]
    ensures dryRun ==> s.status == Proceed && s.log.errors == log.errors
    ensures !dryRun && reply.Failed? ==> s.status == Exit && s.log.errors == log.errors + [ApiCallFailed(reply.detail)]
    ensures !dryRun && reply.Delivered? && reply.reply.success ==> s.status == Proceed && s.log.errors == log.errors
    ensures !dryRun && reply.Delivered? && !reply.reply.success && reply.reply.errors != Some([]) ==>
              s.status == Proceed && s.log.errors == log.errors + [Complaint(act, FirstErrorMessage(reply.reply.errors).value)]
    ensures !dryRun && reply.Delivered? && !reply.reply.success && reply.reply.errors == Some([]) ==>
              s.status == Raise(IndexErrorText) && s.log.errors == log.errors
  {
    var announced := log.(changes := log.changes + [Announcement(dryRun, act)]);
    if dryRun then Step(announced, Proceed)
    else
      var posted := announced.(sent := log.sent + [act]);
      match reply
      case Failed(detail) => Step(posted.(errors := log.errors + [ApiCallFailed(detail)]), Exit)
      case Delivered(r) =>
        if r.success then Step(posted, Proceed)
        else match FirstErrorMessage(r.errors)
          case None => Step(posted, Raise(IndexErrorText))
          case Some(m) => Step(posted.(errors := log.errors + [Complaint(act, m)]), Proceed)
  }

  /** The actions of a plan performed one after the other, as long as each
      lets the run go on; the reply to a request is the one the provider gives
      to the `|sent|`-th mutation of the run. */
  function Execute(dryRun: bool, plan: seq<Action>, replies: nat -> Call<MutationReply>, log: Log): (s: Step)
    ensures log.changes <= s.log.changes && log.errors <= s.log.errors && log.sent <= s.log.sent
  {
    if plan == [] then Step(log, Proceed)
    else
      var s := Execute(dryRun, plan[..|plan| - 1], replies, log);
      if s.status != Proceed then s
      else Perform(dryRun, plan[|plan| - 1], replies(|s.log.sent|), s.log)
  }

  /** Executing a plan in two parts. */
  function Resume(dryRun: bool, s: Step, rest: seq<Action>, replies: nat -> Call<MutationReply>): Step {
    if s.status != Proceed then s else Execute(dryRun, rest, replies, s.log)
  }

  /** `update_dns`: fetch both listings (a transport failure records "API call
      failed" and exits), read their `result` lists (a missing one raises
      KeyError), then perform the plan; an exception raised on the way is
      caught, recorded as "Failed to update DNS records: ..." and turned into
      an exit. */
  function UpdateDnsStep(dryRun: bool, addAaaa: bool, ipv4: string, ipv6: Option<string>,
                         aListing: Call<ListReply>, aaaaListing: Call<ListReply>,
                         replies: nat -> Call<MutationReply>, log: Log): (s: Step)
    ensures log.changes <= s.log.changes && log.errors <= s.log.errors && log.sent <= s.log.sent
  {
    match (aListing, aaaaListing)
    case (Failed(d), _) => Step(log.(errors := log.errors + [ApiCallFailed(d)]), Exit)
    case (Delivered(_), Failed(d)) => Step(log.(errors := log.errors + [ApiCallFailed(d)]), Exit)
    case (Delivered(ar), Delivered(qr)) =>
      if ar.result.None? || qr.result.None? then
        Step(log.(errors := log.errors + [UpdateFailed(MissingResultText)]), Exit)
      else
        var s := Execute(dryRun, Plan(ar.result.value, qr.result.value, ipv4, ipv6, addAaaa), replies, log);
        if s.status.Raise? then Step(s.log.(errors := s.log.errors + [UpdateFailed(s.status.message)]), Exit)
        else s
  }

  // ------------------------------------------------------------ execution

  /** Executing `p + q` is executing `p`, then `q` if `p` let the run go on. */
  lemma {:induction false} ExecuteAppend(dryRun: bool, p: seq<Action>, q: seq<Action>,
                                         replies: nat -> Call<MutationReply>, log: Log)
    ensures Execute(dryRun, p + q, replies, log) == Resume(dryRun, Execute(dryRun, p, replies, log), q, replies)
    decreases |q|
  {
    if q == [] {
      assert p + q == p;
    } else {
      var init := q[..|q| - 1];
      ExecuteAppend(dryRun, p, init, replies, log);
      assert (p + q)[..|p + q| - 1] == p + init;
      assert (p + q)[|p + q| - 1] == q[|q| - 1];
    }
  }

  /** Once a prefix of a plan stops the run, the rest of the plan is never performed. */
  lemma ExecuteSettled(dryRun: bool, p: seq<Action>, plan: seq<Action>, replies: nat -> Call<MutationReply>, log: Log)
    requires p <= plan
    requires Execute(dryRun, p, replies, log).status != Proceed
    ensures Execute(dryRun, plan, replies, log) == Execute(dryRun, p, replies, log)
  {
    assert plan == p + plan[|p|..];
    ExecuteAppend(dryRun, p, plan[|p|..], replies, log);
  }

  /** Performing one more action after a prefix. */
  lemma ExecuteSnoc(dryRun: bool, p: seq<Action>, act: Action, replies: nat -> Call<MutationReply>, log: Log)
    requires Execute(dryRun, p, replies, log).status == Proceed
    ensures var s := Execute(dryRun, p, replies, log);
            Execute(dryRun, p + [act], replies, log) == Perform(dryRun, act, replies(|s.log.sent|), s.log)
  {
    assert (p + [act])[..|p|] == p;
  }

  /** In dry-run mode every action of the plan is announced as "Would ...",
      in order, no request is sent, no error is recorded and the run goes on. */
  lemma {:induction false} ExecuteDryRun(plan: seq<Action>, replies: nat -> Call<MutationReply>, log: Log)
    ensures Execute(true, plan, replies, log)
            == Step(log.(changes := log.changes + Announcements(true, plan)), Proceed)
  {
    if plan != [] {
      var init := plan[..|plan| - 1];
      ExecuteDryRun(init, replies, log);
      assert plan == init + [plan[|plan| - 1]];
      AnnouncementsSnoc(true, init, plan[|plan| - 1]);
    }
  }

  /** Live, the run performs a prefix of the plan: each performed action was
      announced and then sent, in plan order, and the whole plan is performed
      when the run goes on. */
  lemma {:induction false} ExecuteLive(plan: seq<Action>, replies: nat -> Call<MutationReply>, log: Log)
    ensures var s := Execute(false, plan, replies, log);
            var k := |s.log.sent| - |log.sent|;
            && 0 <= k <= |plan|
            && s.log.sent == log.sent + plan[..k]
            && s.log.changes == log.changes + Announcements(false, plan[..k])
            && (s.status == Proceed ==> k == |plan|)
  {
    if plan != [] {
      var init, last := plan[..|plan| - 1], plan[|plan| - 1];
      assert plan == init + [last];
      ExecuteLive(init, replies, log);
      var s0 := Execute(false, init, replies, log);
      var k0 := |s0.log.sent| - |log.sent|;
      var s := Execute(false, plan, replies, log);
      if s0.status == Proceed {
        assert init[..k0] == init;
        LiveStep(init, last, replies, log);
        AnnouncementsSnoc(false, init, last);
        assert s.log.sent == log.sent + plan;
        assert s.log.changes == log.changes + Announcements(false, plan);
        assert plan[..|plan|] == plan;
      } else {
        Stopped(false, init, last, replies, log);
        assert s == s0;
        assert plan[..k0] == init[..k0];
      }
    }
  }

  /** Once the run has stopped, one more action changes nothing. */
  lemma Stopped(dryRun: bool, init: seq<Action>, act: Action, replies: nat -> Call<MutationReply>, log: Log)
    requires Execute(dryRun, init, replies, log).status != Proceed
    ensures Execute(dryRun, init + [act], replies, log) == Execute(dryRun, init, replies, log)
  {
    assert (init + [act])[..|init|] == init;
  }

  /** One more action performed live: it is announced, then sent. */
  lemma LiveStep(init: seq<Action>, act: Action, replies: nat -> Call<MutationReply>, log: Log)
    requires Execute(false, init, replies, log).status == Proceed
    ensures var s0, s := Execute(false, init, replies, log), Execute(false, init + [act], replies, log);
            s.log.sent == s0.log.sent + [act] && s.log.changes == s0.log.changes + [Announcement(false, act)]
  {
    ExecuteSnoc(false, init, act, replies, log);
  }

  lemma AnnouncementsSnoc(dryRun: bool, init: seq<Action>, act: Action)
    ensures Announcements(dryRun, init + [act]) == Announcements(dryRun, init) + [Announcement(dryRun, act)]
  {
    assert (init + [act])[..|init|] == init;
  }

  /** Live, errors are only appended, at most one per request sent; the run
      stops early only at a request that failed in transport (with an error
      recorded) or whose reply raised IndexError. */
  lemma {:induction false} ExecuteLiveStops(plan: seq<Action>, replies: nat -> Call<MutationReply>, log: Log)
    ensures var s := Execute(false, plan, replies, log);
            var n := |s.log.sent|;
            && |log.sent| <= n
            && log.errors <= s.log.errors && |s.log.errors| <= |log.errors| + (n - |log.sent|)
            && (s.status == Exit ==> |log.sent| < n && replies(n - 1).Failed? && |s.log.errors| > |log.errors|)
            && (s.status.Raise? ==>
                  && |log.sent| < n && s.status == Raise(IndexErrorText)
                  && replies(n - 1).Delivered? && replies(n - 1).reply.errors == Some([]))
  {
    if plan != [] {
      var init, last := plan[..|plan| - 1], plan[|plan| - 1];
      assert plan == init + [last];
      ExecuteLiveStops(init, replies, log);
      if Execute(false, init, replies, log).status == Proceed {
        ExecuteSnoc(false, init, last, replies, log);
      } else {
        Stopped(false, init, last, replies, log);
      }
    }
  }

  /** Live, when the provider accepts every request, the whole plan is
      announced and sent in order and no error is recorded. */
  lemma {:induction false} ExecuteAccepted(plan: seq<Action>, replies: nat -> Call<MutationReply>, log: Log)
    requires forall j :: |log.sent| <= j < |log.sent| + |plan| ==> replies(j).Delivered? && replies(j).reply.success
    ensures Execute(false, plan, replies, log)
            == Step(Log(log.changes + Announcements(false, plan), log.errors, log.sent + plan), Proceed)
  {
    if plan != [] {
      var init := plan[..|plan| - 1];
      ExecuteAccepted(init, replies, log);
      assert init + [plan[|plan| - 1]] == plan;
      AnnouncementsSnoc(false, init, plan[|plan| - 1]);
    }
  }

  // ------------------------------------------------------------ update_dns

  /** `update_dns` never lets an exception other than the exit escape, and it
      exits only after recording an error, so a failure report always has
      something to say. Errors recorded before are kept. */
  lemma UpdateDnsExitsWithError(dryRun: bool, addAaaa: bool, ipv4: string, ipv6: Option<string>,
                                aListing: Call<ListReply>, aaaaListing: Call<ListReply>,
                                replies: nat -> Call<MutationReply>, log: Log)
    ensures var s := UpdateDnsStep(dryRun, addAaaa, ipv4, ipv6, aListing, aaaaListing, replies, log);
            && (s.status == Proceed || s.status == Exit)
            && log.errors <= s.log.errors
            && (s.status == Exit ==> |s.log.errors| > |log.errors|)
  {
    if aListing.Delivered? && aaaaListing.Delivered? && aListing.reply.result.Some? && aaaaListing.reply.result.Some? {
      var plan := Plan(aListing.reply.result.value, aaaaListing.reply.result.value, ipv4, ipv6, addAaaa);
      if dryRun {
        ExecuteDryRun(plan, replies, log);
      } else {
        ExecuteLiveStops(plan, replies, log);
      }
    }
  }

  /** A dry run of `update_dns` sends no mutating request; once both listings
      are read it announces the whole plan as "Would ..." changes and records
      no error. */
  lemma UpdateDnsDryRun(addAaaa: bool, ipv4: string, ipv6: Option<string>,
                        aListing: Call<ListReply>, aaaaListing: Call<ListReply>,
                        replies: nat -> Call<MutationReply>, log: Log)
    ensures var s := UpdateDnsStep(true, addAaaa, ipv4, ipv6, aListing, aaaaListing, replies, log);
            && s.log.sent == log.sent
            && (aListing.Delivered? && aaaaListing.Delivered?
                && aListing.reply.result.Some? && aaaaListing.reply.result.Some? ==>
                  var plan := Plan(aListing.reply.result.value, aaaaListing.reply.result.value, ipv4, ipv6, addAaaa);
                  s == Step(log.(changes := log.changes + Announcements(true, plan)), Proceed))
  {
    if aListing.Delivered? && aaaaListing.Delivered? && aListing.reply.result.Some? && aaaaListing.reply.result.Some? {
      ExecuteDryRun(Plan(aListing.reply.result.value, aaaaListing.reply.result.value, ipv4, ipv6, addAaaa), replies, log);
    }
  }

  /** A live run of `update_dns` whose requests are all accepted sends exactly
      the plan, announcing each action, and records no error. */
  lemma UpdateDnsAccepted(addAaaa: bool, ipv4: string, ipv6: Option<string>,
                          a: seq<DnsRecord>, aaaa: seq<DnsRecord>,
                          replies: nat -> Call<MutationReply>, log: Log)
    requires forall j :: |log.sent| <= j ==> replies(j).Delivered? && replies(j).reply.success
    ensures var plan := Plan(a, aaaa, ipv4, ipv6, addAaaa);
            UpdateDnsStep(false, addAaaa, ipv4, ipv6, Delivered(ListReply(Some(a))), Delivered(ListReply(Some(aaaa))), replies, log)
            == Step(Log(log.changes + Announcements(false, plan), log.errors, log.sent + plan), Proceed)
  {
    ExecuteAccepted(Plan(a, aaaa, ipv4, ipv6, addAaaa), replies, log);
  }
}
