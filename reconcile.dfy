/** The decision logic of `update_dns`, which both scripts share line for
    line: from the A and AAAA listings, the resolved addresses and the
    `add_aaaa` flag, the mutations to issue and their order.

    `update_dns` runs three passes and issues each mutation as soon as it is
    decided; `Plan` is the sequence those passes decide, and the two updater
    classes are proved to issue exactly its actions, in its order. */
module Reconcile {
  import opened Common
  import opened Dns

  /** One of the three loops of `update_dns`. */
  datatype Pass =
    | RefreshA(ipv4: string)                          // A records whose content is not the IPv4
    | RefreshAaaa(ipv6: string)                       // AAAA records whose content is not the IPv6
    | AddMissingAaaa(existing: set<string>, ipv6: string)  // A records whose name has no AAAA record

  /** Whether the pass acts on a record. */
  predicate Selects(pass: Pass, r: DnsRecord) {
    match pass
    case RefreshA(v) => r.content != v
    case RefreshAaaa(v) => r.content != v
    case AddMissingAaaa(names, _) => r.name !in names
  }

  /** The mutation the pass issues for a record it acts on: an update keeps
      the record's id, name, ttl and proxied flag; a creation copies the A
      record's name, ttl and proxied flag. */
  function ActionFor(pass: Pass, r: DnsRecord): Action {
    match pass
    case RefreshA(v) => Update(A, r.id, r.name, r.content, v, r.ttl, r.proxied)
    case RefreshAaaa(v) => Update(AAAA, r.id, r.name, r.content, v, r.ttl, r.proxied)
    case AddMissingAaaa(_, v) => Create(r.name, v, r.ttl, r.proxied)
  }

  /** The actions a pass issues over a listing, in listing order. */
  function Scan(pass: Pass, records: seq<DnsRecord>): (acts: seq<Action>)
    ensures |acts| <= |records|
  {
    if records == [] then []
    else
      var last := records[|records| - 1];
      Scan(pass, records[..|records| - 1]) + (if Selects(pass, last) then [ActionFor(pass, last)] else [])
  }

  /** `{record['name'] for record in aaaa_records['result']}`, taken once before the creation loop. */
  function NamesOf(records: seq<DnsRecord>): set<string> {
    set r | r in records :: r.name
  }

  /** Every mutation one run of `update_dns` issues, in order: A updates, then
      AAAA updates (only with a truthy IPv6), then AAAA creations (only with
      `add_aaaa` and a truthy IPv6). */
  function Plan(aRecords: seq<DnsRecord>, aaaaRecords: seq<DnsRecord>, ipv4: string,
                ipv6: Option<string>, addAaaa: bool): (p: seq<Action>)
    ensures |p| <= 2 * |aRecords| + |aaaaRecords|
    ensures !Truthy(ipv6) ==> |p| <= |aRecords|
  {
    Scan(RefreshA(ipv4), aRecords)
    + (if Truthy(ipv6) then Scan(RefreshAaaa(ipv6.value), aaaaRecords) else [])
    + (if addAaaa && Truthy(ipv6) then Scan(AddMissingAaaa(NamesOf(aaaaRecords), ipv6.value), aRecords) else [])
  }

  /** The shape every action of a pass has. */
  predicate Fits(pass: Pass, act: Action) {
    match pass
    case RefreshA(v) => act.Update? && act.rtype == A && act.content == v && act.previous != v
    case RefreshAaaa(v) => act.Update? && act.rtype == AAAA && act.content == v && act.previous != v
    case AddMissingAaaa(names, v) => act.Create? && act.content == v && act.name !in names
  }

  /** Position class of an action in a plan: A updates, AAAA updates, creations. */
  function Group(act: Action): nat {
    match act
    case Update(t, _, _, _, _, _, _) => if t == A then 0 else 1
    case Create(_, _, _, _) => 2
  }

  /** The update a pass issues for a record. */
  function UpdateOf(t: RecordType, r: DnsRecord, content: string): Action {
    Update(t, r.id, r.name, r.content, content, r.ttl, r.proxied)
  }

  // ---------------------------------------------------------------- one pass

  /** Every action a pass issues has the pass's shape. */
  lemma {:induction false} ScanFits(pass: Pass, s: seq<DnsRecord>)
    ensures forall k :: 0 <= k < |Scan(pass, s)| ==> Fits(pass, Scan(pass, s)[k])
  {
    if s != [] {
      ScanFits(pass, s[..|s| - 1]);
    }
  }

  /** The actions issued for a prefix of the listing come first. */
  lemma {:induction false} ScanPrefix(pass: Pass, s: seq<DnsRecord>, i: nat)
    requires i <= |s|
    ensures Scan(pass, s[..i]) <= Scan(pass, s)
    decreases |s|
  {
    if i < |s| {
      var init := s[..|s| - 1];
      assert init[..i] == s[..i];
      ScanPrefix(pass, init, i);
    } else {
      assert s[..i] == s;
    }
  }

  /** The actions a pass issues over one more record of the listing. */
  lemma ScanStep(pass: Pass, s: seq<DnsRecord>, i: nat)
    requires i < |s|
    ensures Scan(pass, s[..i + 1]) == Scan(pass, s[..i]) + if Selects(pass, s[i]) then [ActionFor(pass, s[i])] else []
  {
    assert s[..i + 1][..i] == s[..i];
  }

  /** The same step, after the actions of the earlier passes. */
  lemma PassStep(pass: Pass, records: seq<DnsRecord>, i: nat, before: seq<Action>)
    requires i < |records|
    ensures before + Scan(pass, records[..i + 1])
            == (before + Scan(pass, records[..i])) + if Selects(pass, records[i]) then [ActionFor(pass, records[i])] else []
  {
    ScanStep(pass, records, i);
  }

  /** A record the pass acts on gets its action, at the position given by the
      number of actions issued for the records before it. */
  lemma ScanHit(pass: Pass, s: seq<DnsRecord>, i: nat)
    requires i < |s| && Selects(pass, s[i])
    ensures |Scan(pass, s[..i])| < |Scan(pass, s)|
    ensures Scan(pass, s)[|Scan(pass, s[..i])|] == ActionFor(pass, s[i])
  {
    assert s[..i + 1][..i] == s[..i];
    ScanPrefix(pass, s, i + 1);
  }

  /** Records the pass acts on get their actions in listing order. */
  lemma ScanOrder(pass: Pass, s: seq<DnsRecord>, i: nat, j: nat)
    requires i < j < |s| && Selects(pass, s[i])
    ensures |Scan(pass, s[..i])| < |Scan(pass, s[..j])|
  {
    assert s[..j][..i + 1] == s[..i + 1];
    assert s[..i + 1][..i] == s[..i];
    ScanPrefix(pass, s[..j], i + 1);
  }

  /** The record an action of a pass was issued for: every action comes from
      a record the pass acts on, and the k-th action from the record before
      which exactly k actions were issued. */
  function SourceOf(pass: Pass, s: seq<DnsRecord>, k: nat): (i: nat)
    requires k < |Scan(pass, s)|
    ensures i < |s| && Selects(pass, s[i]) && |Scan(pass, s[..i])| == k
    ensures Scan(pass, s)[k] == ActionFor(pass, s[i])
    decreases |s|
  {
    var init := s[..|s| - 1];
    if k < |Scan(pass, init)| then
      var i := SourceOf(pass, init, k);
      assert init[..i] == s[..i];
      i
    else
      assert s[..|s| - 1] == init;
      |s| - 1
  }

  // ---------------------------------------------------------------- the plan

  /** How a plan splits into its three groups, and the shape of each group's actions. */
  lemma PlanParts(a: seq<DnsRecord>, aaaa: seq<DnsRecord>, ipv4: string, ipv6: Option<string>, addAaaa: bool)
    ensures var p1 := Scan(RefreshA(ipv4), a);
            var p2 := if Truthy(ipv6) then Scan(RefreshAaaa(ipv6.value), aaaa) else [];
            var plan := Plan(a, aaaa, ipv4, ipv6, addAaaa);
            && (forall k :: 0 <= k < |p1| ==> plan[k] == p1[k] && Fits(RefreshA(ipv4), plan[k]))
            && (Truthy(ipv6) ==> forall k :: |p1| <= k < |p1| + |p2| ==>
                  plan[k] == p2[k - |p1|] && Fits(RefreshAaaa(ipv6.value), plan[k]))
            && (!Truthy(ipv6) ==> |plan| == |p1|)
            && (addAaaa && Truthy(ipv6) ==> forall k :: |p1| + |p2| <= k < |plan| ==>
                  plan[k] == Scan(AddMissingAaaa(NamesOf(aaaa), ipv6.value), a)[k - |p1| - |p2|]
                  && Fits(AddMissingAaaa(NamesOf(aaaa), ipv6.value), plan[k]))
            && (!(addAaaa && Truthy(ipv6)) ==> |plan| == |p1| + |p2|)
  {
    ScanFits(RefreshA(ipv4), a);
    if Truthy(ipv6) {
      ScanFits(RefreshAaaa(ipv6.value), aaaa);
      ScanFits(AddMissingAaaa(NamesOf(aaaa), ipv6.value), a);
    }
  }

  /** Actions come out grouped: all A updates, then all AAAA updates, then all creations. */
  lemma PlanGroupsInOrder(a: seq<DnsRecord>, aaaa: seq<DnsRecord>, ipv4: string, ipv6: Option<string>, addAaaa: bool)
    ensures var plan := Plan(a, aaaa, ipv4, ipv6, addAaaa);
            forall p, q :: 0 <= p < q < |plan| ==> Group(plan[p]) <= Group(plan[q])
  {
    var plan := Plan(a, aaaa, ipv4, ipv6, addAaaa);
    var p1 := Scan(RefreshA(ipv4), a);
    var p2 := if Truthy(ipv6) then Scan(RefreshAaaa(ipv6.value), aaaa) else [];
    var p3 := if addAaaa && Truthy(ipv6) then Scan(AddMissingAaaa(NamesOf(aaaa), ipv6.value), a) else [];
    assert plan == p1 + p2 + p3;
    ScanFits(RefreshA(ipv4), a);
    assert forall k :: 0 <= k < |p1| ==> Group(p1[k]) == 0;
    if Truthy(ipv6) {
      ScanFits(RefreshAaaa(ipv6.value), aaaa);
      ScanFits(AddMissingAaaa(NamesOf(aaaa), ipv6.value), a);
    }
    assert forall k :: 0 <= k < |p2| ==> Group(p2[k]) == 1;
    assert forall k :: 0 <= k < |p3| ==> Group(p3[k]) == 2;
    assert forall k :: 0 <= k < |plan| ==>
      Group(plan[k]) == if k < |p1| then 0 else if k < |p1| + |p2| then 1 else 2;
  }

  /** No action of a plan rewrites a record with the content it already has. */
  lemma PlanUpdatesChangeContent(a: seq<DnsRecord>, aaaa: seq<DnsRecord>, ipv4: string, ipv6: Option<string>, addAaaa: bool)
    ensures forall act :: act in Plan(a, aaaa, ipv4, ipv6, addAaaa) && act.Update? ==> act.previous != act.content
  {
    PlanParts(a, aaaa, ipv4, ipv6, addAaaa);
  }

  /** An A record gets an update exactly when its content differs from the
      IPv4; the update keeps its id, name, ttl and proxied flag and writes the IPv4. */
  lemma ARecordUpdatedIffStale(a: seq<DnsRecord>, aaaa: seq<DnsRecord>, ipv4: string, ipv6: Option<string>, addAaaa: bool, i: nat)
    requires i < |a|
    ensures UpdateOf(A, a[i], ipv4) in Plan(a, aaaa, ipv4, ipv6, addAaaa) <==> a[i].content != ipv4
  {
    PlanUpdatesChangeContent(a, aaaa, ipv4, ipv6, addAaaa);
    if a[i].content != ipv4 {
      ScanHit(RefreshA(ipv4), a, i);
    }
  }

  /** Every A update of a plan is the update of an A record whose content
      differs from the IPv4, and the A updates follow the listing order. */
  lemma AUpdatesFromStaleRecords(a: seq<DnsRecord>, aaaa: seq<DnsRecord>, ipv4: string, ipv6: Option<string>, addAaaa: bool, k: nat)
    requires k < |Plan(a, aaaa, ipv4, ipv6, addAaaa)|
    requires Group(Plan(a, aaaa, ipv4, ipv6, addAaaa)[k]) == 0
    ensures k < |Scan(RefreshA(ipv4), a)|
    ensures var i := SourceOf(RefreshA(ipv4), a, k);
            a[i].content != ipv4 && Plan(a, aaaa, ipv4, ipv6, addAaaa)[k] == UpdateOf(A, a[i], ipv4)
  {
    PlanParts(a, aaaa, ipv4, ipv6, addAaaa);
  }

  /** Two A records that both need an update get their updates in listing order. */
  lemma AUpdatesInListingOrder(a: seq<DnsRecord>, aaaa: seq<DnsRecord>, ipv4: string, ipv6: Option<string>, addAaaa: bool, i: nat, j: nat)
    requires i < j < |a| && a[i].content != ipv4 && a[j].content != ipv4
    ensures var plan := Plan(a, aaaa, ipv4, ipv6, addAaaa);
            var p := |Scan(RefreshA(ipv4), a[..i])|;
            var q := |Scan(RefreshA(ipv4), a[..j])|;
            p < q < |plan| && plan[p] == UpdateOf(A, a[i], ipv4) && plan[q] == UpdateOf(A, a[j], ipv4)
  {
    ScanOrder(RefreshA(ipv4), a, i, j);
    ScanHit(RefreshA(ipv4), a, i);
    ScanHit(RefreshA(ipv4), a, j);
  }

  /** Without a truthy IPv6 no AAAA record is updated or created, whatever `add_aaaa` is. */
  lemma NoIpv6NoAaaaActions(a: seq<DnsRecord>, aaaa: seq<DnsRecord>, ipv4: string, ipv6: Option<string>, addAaaa: bool)
    requires !Truthy(ipv6)
    ensures forall act :: act in Plan(a, aaaa, ipv4, ipv6, addAaaa) ==> act.Update? && act.rtype == A
  {
    PlanParts(a, aaaa, ipv4, ipv6, addAaaa);
  }

  /** With a truthy IPv6, an AAAA record gets an update exactly when its content
      differs from it, keeping its id, name, ttl and proxied flag. */
  lemma AaaaRecordUpdatedIffStale(a: seq<DnsRecord>, aaaa: seq<DnsRecord>, ipv4: string, ipv6: Option<string>, addAaaa: bool, i: nat)
    requires Truthy(ipv6) && i < |aaaa|
    ensures UpdateOf(AAAA, aaaa[i], ipv6.value) in Plan(a, aaaa, ipv4, ipv6, addAaaa) <==> aaaa[i].content != ipv6.value
  {
    PlanUpdatesChangeContent(a, aaaa, ipv4, ipv6, addAaaa);
    if aaaa[i].content != ipv6.value {
      var p1 := Scan(RefreshA(ipv4), a);
      var p2 := Scan(RefreshAaaa(ipv6.value), aaaa);
      ScanHit(RefreshAaaa(ipv6.value), aaaa, i);
      assert Plan(a, aaaa, ipv4, ipv6, addAaaa)[|p1| + |Scan(RefreshAaaa(ipv6.value), aaaa[..i])|]
          == UpdateOf(AAAA, aaaa[i], ipv6.value);
    }
  }

  /** An A record's name gets a creation, with the IPv6 as content and that A
      record's ttl and proxied flag, exactly when `add_aaaa` is set, the IPv6 is
      truthy and no AAAA record of the listing carries that name. */
  lemma CreationIffNameMissing(a: seq<DnsRecord>, aaaa: seq<DnsRecord>, ipv4: string, ipv6: Option<string>, addAaaa: bool,
                               i: nat, content: string)
    requires i < |a|
    ensures Create(a[i].name, content, a[i].ttl, a[i].proxied) in Plan(a, aaaa, ipv4, ipv6, addAaaa)
            <==> addAaaa && Truthy(ipv6) && content == ipv6.value && a[i].name !in NamesOf(aaaa)
  {
    var plan := Plan(a, aaaa, ipv4, ipv6, addAaaa);
    PlanParts(a, aaaa, ipv4, ipv6, addAaaa);
    if addAaaa && Truthy(ipv6) && content == ipv6.value && a[i].name !in NamesOf(aaaa) {
      var pass := AddMissingAaaa(NamesOf(aaaa), ipv6.value);
      var n := |Scan(RefreshA(ipv4), a)| + |Scan(RefreshAaaa(ipv6.value), aaaa)|;
      ScanHit(pass, a, i);
      assert plan[n + |Scan(pass, a[..i])|] == Create(a[i].name, content, a[i].ttl, a[i].proxied);
    }
  }

  /** Where the creation for an A record with a missing name sits in the plan:
      after the updates, and after the creations of the records before it. */
  lemma CreationAt(a: seq<DnsRecord>, aaaa: seq<DnsRecord>, ipv4: string, ipv6: Option<string>, addAaaa: bool, i: nat)
    requires addAaaa && Truthy(ipv6)
    requires i < |a| && a[i].name !in NamesOf(aaaa)
    ensures var plan := Plan(a, aaaa, ipv4, ipv6, addAaaa);
            var p := |Scan(RefreshA(ipv4), a)| + |Scan(RefreshAaaa(ipv6.value), aaaa)|
                     + |Scan(AddMissingAaaa(NamesOf(aaaa), ipv6.value), a[..i])|;
            p < |plan| && plan[p] == Create(a[i].name, ipv6.value, a[i].ttl, a[i].proxied)
  {
    var pass := AddMissingAaaa(NamesOf(aaaa), ipv6.value);
    var p12 := Scan(RefreshA(ipv4), a) + Scan(RefreshAaaa(ipv6.value), aaaa);
    var p3 := Scan(pass, a);
    assert Plan(a, aaaa, ipv4, ipv6, addAaaa) == p12 + p3;
    ScanHit(pass, a, i);
    After(p12, p3, |Scan(pass, a[..i])|);
  }

  /** The name set is taken once: two A records with the same missing name
      each get their own creation, in listing order. */
  lemma DuplicateNamesEachCreated(a: seq<DnsRecord>, aaaa: seq<DnsRecord>, ipv4: string, ipv6: Option<string>, addAaaa: bool,
                                  i: nat, j: nat)
    requires addAaaa && Truthy(ipv6)
    requires i < j < |a| && a[i].name == a[j].name && a[i].name !in NamesOf(aaaa)
    ensures var plan := Plan(a, aaaa, ipv4, ipv6, addAaaa);
            var pass := AddMissingAaaa(NamesOf(aaaa), ipv6.value);
            var n := |Scan(RefreshA(ipv4), a)| + |Scan(RefreshAaaa(ipv6.value), aaaa)|;
            var p := n + |Scan(pass, a[..i])|;
            var q := n + |Scan(pass, a[..j])|;
            p < q < |plan|
            && plan[p] == Create(a[i].name, ipv6.value, a[i].ttl, a[i].proxied)
            && plan[q] == Create(a[j].name, ipv6.value, a[j].ttl, a[j].proxied)
  {
    var pass := AddMissingAaaa(NamesOf(aaaa), ipv6.value);
    assert Selects(pass, a[i]);
    ScanOrder(pass, a, i, j);
    CreationAt(a, aaaa, ipv4, ipv6, addAaaa, i);
    CreationAt(a, aaaa, ipv4, ipv6, addAaaa, j);
  }

  /** The elements of the second part of a concatenation. */
  lemma After<X>(p: seq<X>, q: seq<X>, k: nat)
    requires k < |q|
    ensures (p + q)[|p| + k] == q[k]
  {
  }
}
