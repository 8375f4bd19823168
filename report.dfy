/** The status report `generate_status_report` renders at the end of a run,
    and the rule `main` uses to decide whether to mail it and with which
    subject (cloudflareupdatedns/dnsupdate.py only). The report is built as a
    list of lines, each rendered to text, then joined with newlines. */
module Report {
  import opened Common

  /** The kinds of line the report is made of. */
  datatype Line =
    | DryRunNotice
    | Title(domain: string)
    | Timestamp(time: string)
    | Blank
    | ErrorsTitle
    | AddressesTitle
    | ChangesTitle
    | NoChanges
    | Item(text: string)

  /** The text of a line. */
  function Render(line: Line): string {
    match line
    case DryRunNotice => "*** DRY RUN MODE - NO CHANGES WERE MADE ***"
    case Title(domain) => "DNS Update for " + domain
    case Timestamp(time) => "Time: " + time
    case Blank => ""
    case ErrorsTitle => "Errors:"
    case AddressesTitle => "IP Addresses:"
    case ChangesTitle => "Changes Made:"
    case NoChanges => "No changes were necessary."
    case Item(text) => "• " + text
  }

  /** The first character of a rendered line, which tells the kinds apart. */
  function Lead(line: Line): char {
    match line
    case DryRunNotice => '*'
    case Title(_) => 'D'
    case Timestamp(_) => 'T'
    case Blank => ' '
    case ErrorsTitle => 'E'
    case AddressesTitle => 'I'
    case ChangesTitle => 'C'
    case NoChanges => 'N'
    case Item(_) => '•'
  }

  lemma RenderLead(line: Line)
    ensures line == Blank <==> Render(line) == ""
    ensures line != Blank ==> Render(line)[0] == Lead(line)
  {
    match line
    case Title(d) => assert Render(line)[0] == ("DNS Update for " + d)[0];
    case Timestamp(t) => assert Render(line)[0] == ("Time: " + t)[0];
    case Item(t) => assert Render(line)[0] == ("• " + t)[0];
    case _ =>
  }

  /** Different lines render to different text, so what is shown below about
      the lines of a report holds of its text lines as well. */
  lemma RenderInjective(a: Line, b: Line)
    requires Render(a) == Render(b)
    ensures a == b
  {
    RenderLead(a);
    RenderLead(b);
    if a != Blank {
      assert Lead(a) == Lead(b);
      match a
      case Title(d) => assert d == Render(a)[15..] == Render(b)[15..] == b.domain;
      case Timestamp(t) => assert t == Render(a)[6..] == Render(b)[6..] == b.time;
      case Item(t) => assert t == Render(a)[2..] == Render(b)[2..] == b.text;
      case _ =>
    }
  }

  /** The text of each line, in order. */
  function Rendered(lines: seq<Line>): (texts: seq<string>)
    ensures |texts| == |lines|
    ensures forall i :: 0 <= i < |lines| ==> texts[i] == Render(lines[i])
  {
    seq(|lines|, i requires 0 <= i < |lines| => Render(lines[i]))
  }

  /** Rendering a report piece by piece. */
  lemma RenderedAppend(a: seq<Line>, b: seq<Line>)
    ensures Rendered(a + b) == Rendered(a) + Rendered(b)
  {
  }

  /** One bullet line per item, in order. */
  function Bullets(items: seq<string>): (lines: seq<Line>)
    ensures |lines| == |items|
    ensures forall i :: 0 <= i < |items| ==> lines[i] == Item(items[i])
  {
    seq(|items|, i requires 0 <= i < |items| => Item(items[i]))
  }

  function Banner(dryRun: bool): seq<Line> {
    if dryRun then [DryRunNotice, Blank] else []
  }

  function Header(domain: string, time: string): seq<Line> {
    [Title(domain), Timestamp(time), Blank]
  }

  function ErrorsBlock(errors: seq<string>): seq<Line> {
    if errors != [] then [ErrorsTitle] + Bullets(errors) + [Blank] else []
  }

  function Ipv4Line(ipv4: Option<string>): Line {
    Item("IPv4: " + OrElse(ipv4, "Not available"))
  }

  function Ipv6Line(ipv6: Option<string>, iface: string): Line {
    Item("IPv6: " + OrElse(ipv6, "Not found") + " (Interface: " + iface + ")")
  }

  function AddressesBlock(ipv4: Option<string>, iface: Option<string>, ipv6: Option<string>): seq<Line> {
    [AddressesTitle, Ipv4Line(ipv4)]
    + (if Truthy(iface) then [Ipv6Line(ipv6, iface.value)] else [])
    + [Blank]
  }

  function ChangesBlock(changes: seq<string>, errors: seq<string>): seq<Line> {
    if changes != [] then [ChangesTitle] + Bullets(changes)
    else if errors == [] then [NoChanges]
    else []
  }

  /** The lines of the report, before they are rendered and joined. */
  function ReportLines(dryRun: bool, domain: string, time: string, errors: seq<string>,
                       ipv4: Option<string>, iface: Option<string>, ipv6: Option<string>,
                       changes: seq<string>): seq<Line>
  {
    Banner(dryRun) + Header(domain, time) + ErrorsBlock(errors)
    + AddressesBlock(ipv4, iface, ipv6) + ChangesBlock(changes, errors)
  }

  /** The report text: its rendered lines joined with newlines. */
  function ReportText(dryRun: bool, domain: string, time: string, errors: seq<string>,
                      ipv4: Option<string>, iface: Option<string>, ipv6: Option<string>,
                      changes: seq<string>): string
  {
    JoinOn(Rendered(ReportLines(dryRun, domain, time, errors, ipv4, iface, ipv6, changes)), '\n')
  }

  /** The texts of the opening blocks, as `generate_status_report` appends them. */
  lemma RenderedOpening(dryRun: bool, domain: string, time: string)
    ensures Rendered(Banner(dryRun)) == if dryRun then ["*** DRY RUN MODE - NO CHANGES WERE MADE ***", ""] else []
    ensures Rendered(Header(domain, time)) == ["DNS Update for " + domain, "Time: " + time, ""]
  {
  }

  /** The texts of the IP block, as `generate_status_report` appends them. */
  lemma RenderedAddresses(ipv4: Option<string>, iface: Option<string>, ipv6: Option<string>)
    ensures Rendered(AddressesBlock(ipv4, iface, ipv6))
            == ["IP Addresses:", "• " + ("IPv4: " + OrElse(ipv4, "Not available"))]
               + (if Truthy(iface) then ["• " + ("IPv6: " + OrElse(ipv6, "Not found") + " (Interface: " + iface.value + ")")] else [])
               + [""]
  {
    if Truthy(iface) {
      var lines := [AddressesTitle, Ipv4Line(ipv4), Ipv6Line(ipv6, iface.value), Blank];
      assert AddressesBlock(ipv4, iface, ipv6) == lines;
    } else {
      var lines := [AddressesTitle, Ipv4Line(ipv4), Blank];
      assert AddressesBlock(ipv4, iface, ipv6) == lines;
    }
  }

  /** The texts of the blocks with bullets. */
  lemma RenderedBulletBlocks(errors: seq<string>, changes: seq<string>)
    ensures errors != [] ==> Rendered(ErrorsBlock(errors)) == ["Errors:"] + Rendered(Bullets(errors)) + [""]
    ensures changes != [] ==> Rendered(ChangesBlock(changes, errors)) == ["Changes Made:"] + Rendered(Bullets(changes))
    ensures changes == [] && errors == [] ==> Rendered(ChangesBlock(changes, errors)) == ["No changes were necessary."]
    ensures changes == [] && errors != [] ==> Rendered(ChangesBlock(changes, errors)) == []
  {
    RenderedAppend([ErrorsTitle] + Bullets(errors), [Blank]);
    RenderedAppend([ErrorsTitle], Bullets(errors));
    RenderedAppend([ChangesTitle], Bullets(changes));
  }

  /** The rendered report is the concatenation of its rendered blocks. */
  lemma RenderedReport(dryRun: bool, domain: string, time: string, errors: seq<string>,
                       ipv4: Option<string>, iface: Option<string>, ipv6: Option<string>,
                       changes: seq<string>)
    ensures Rendered(ReportLines(dryRun, domain, time, errors, ipv4, iface, ipv6, changes))
            == Rendered(Banner(dryRun)) + Rendered(Header(domain, time)) + Rendered(ErrorsBlock(errors))
               + Rendered(AddressesBlock(ipv4, iface, ipv6)) + Rendered(ChangesBlock(changes, errors))
  {
    var a, b, c, d, e := Banner(dryRun), Header(domain, time), ErrorsBlock(errors),
                         AddressesBlock(ipv4, iface, ipv6), ChangesBlock(changes, errors);
    RenderedAppend(a + b + c + d, e);
    RenderedAppend(a + b + c, d);
    RenderedAppend(a + b, c);
    RenderedAppend(a, b);
  }

  /** Splitting the report text at newlines gives back its rendered lines,
      provided no rendered line holds a newline itself (a domain, address,
      interface, change or error with a newline would break this). */
  lemma ReportTextLines(dryRun: bool, domain: string, time: string, errors: seq<string>,
                        ipv4: Option<string>, iface: Option<string>, ipv6: Option<string>,
                        changes: seq<string>)
    requires var texts := Rendered(ReportLines(dryRun, domain, time, errors, ipv4, iface, ipv6, changes));
             forall i :: 0 <= i < |texts| ==> '\n' !in texts[i]
    ensures SplitOn(ReportText(dryRun, domain, time, errors, ipv4, iface, ipv6, changes), '\n')
            == Rendered(ReportLines(dryRun, domain, time, errors, ipv4, iface, ipv6, changes))
  {
    SplitJoin(Rendered(ReportLines(dryRun, domain, time, errors, ipv4, iface, ipv6, changes)), '\n');
  }

  /** Where the errors block starts. */
  function ErrorsStart(dryRun: bool): nat {
    if dryRun then 5 else 3
  }

  /** Where the IP block starts. */
  function AddressesStart(dryRun: bool, errors: seq<string>): nat {
    ErrorsStart(dryRun) + if errors != [] then |errors| + 2 else 0
  }

  /** A line is in the report when it is in one of its blocks. */
  lemma InBlocks<X>(x: X, a: seq<X>, b: seq<X>, c: seq<X>, d: seq<X>, e: seq<X>)
    ensures x in a + b + c + d + e <==> x in a || x in b || x in c || x in d || x in e
  {
  }

  lemma NotAnItem(line: Line, items: seq<string>)
    requires !line.Item?
    ensures line !in Bullets(items)
  {
  }

  /** Which blocks a line other than a bullet can be in. */
  lemma Placement(dryRun: bool, domain: string, time: string, errors: seq<string>,
                  ipv4: Option<string>, iface: Option<string>, ipv6: Option<string>, changes: seq<string>,
                  line: Line)
    requires !line.Item?
    ensures line in ReportLines(dryRun, domain, time, errors, ipv4, iface, ipv6, changes)
            <==> line in Banner(dryRun) || line in Header(domain, time)
                 || (errors != [] && line in [ErrorsTitle, Blank])
                 || line in [AddressesTitle, Blank]
                 || line in ChangesBlock(changes, errors)
  {
    InBlocks(line, Banner(dryRun), Header(domain, time), ErrorsBlock(errors),
             AddressesBlock(ipv4, iface, ipv6), ChangesBlock(changes, errors));
    NotAnItem(line, errors);
  }

  /** The report opens with the dry-run notice exactly in dry-run mode, and
      the domain/time header follows it. */
  lemma ReportBanner(dryRun: bool, domain: string, time: string, errors: seq<string>,
                     ipv4: Option<string>, iface: Option<string>, ipv6: Option<string>, changes: seq<string>)
    ensures var lines := ReportLines(dryRun, domain, time, errors, ipv4, iface, ipv6, changes);
            && (DryRunNotice in lines <==> dryRun)
            && (dryRun ==> lines[0] == DryRunNotice)
            && lines[ErrorsStart(dryRun) - 3] == Title(domain)
            && lines[ErrorsStart(dryRun) - 2] == Timestamp(time)
  {
    BannerPresence(dryRun, domain, time, errors, ipv4, iface, ipv6, changes);
    var header := Header(domain, time);
    assert |Banner(dryRun)| == ErrorsStart(dryRun) - 3;
    Second(Banner(dryRun), header, ErrorsBlock(errors), AddressesBlock(ipv4, iface, ipv6), ChangesBlock(changes, errors), 0);
    Second(Banner(dryRun), header, ErrorsBlock(errors), AddressesBlock(ipv4, iface, ipv6), ChangesBlock(changes, errors), 1);
  }

  lemma BannerPresence(dryRun: bool, domain: string, time: string, errors: seq<string>,
                       ipv4: Option<string>, iface: Option<string>, ipv6: Option<string>, changes: seq<string>)
    ensures DryRunNotice in ReportLines(dryRun, domain, time, errors, ipv4, iface, ipv6, changes) <==> dryRun
  {
    Placement(dryRun, domain, time, errors, ipv4, iface, ipv6, changes, DryRunNotice);
    NotAnItem(DryRunNotice, changes);
  }

  /** The elements of the second of five consecutive blocks. */
  lemma Second<X>(a: seq<X>, b: seq<X>, c: seq<X>, d: seq<X>, e: seq<X>, k: nat)
    requires k < |b|
    ensures (a + b + c + d + e)[|a| + k] == b[k]
  {
    assert a + b + c + d + e == a + b + (c + d + e);
  }

  /** A block inside a sequence: its slices and elements sit |pre| further on. */
  lemma Within<X>(s: seq<X>, pre: seq<X>, c: seq<X>, post: seq<X>, i: nat, j: nat)
    requires s == pre + c + post && i <= j <= |c|
    ensures |pre| + j <= |s| && s[|pre| + i..|pre| + j] == c[i..j]
    ensures i < j ==> s[|pre| + i] == c[i]
  {
  }

  /** A block made of a heading, a body and a trailer, followed by two more
      blocks, starts right after what precedes it. */
  lemma Opening<X>(pre: seq<X>, heading: X, body: seq<X>, trailer: seq<X>, d: seq<X>, e: seq<X>)
    ensures var s := pre + ([heading] + body + trailer) + d + e;
            |pre| + 1 + |body| <= |s| && s[|pre|] == heading && s[|pre| + 1..|pre| + 1 + |body|] == body
  {
    var s := pre + ([heading] + body + trailer) + d + e;
    assert s == (pre + [heading]) + body + (trailer + d + e);
  }

  /** The last block of a sequence, a heading and its body, sits at its end. */
  lemma Closing<X>(pre: seq<X>, heading: X, body: seq<X>)
    ensures var s := pre + ([heading] + body);
            s[|s| - |body| - 1] == heading && s[|s| - |body|..] == body
  {
    var s := pre + ([heading] + body);
    assert s == (pre + [heading]) + body;
  }

  /** The errors block appears exactly when there are errors: a heading
      followed by one bullet per error, in order, right after the header. */
  lemma ReportErrorsBlock(dryRun: bool, domain: string, time: string, errors: seq<string>,
                          ipv4: Option<string>, iface: Option<string>, ipv6: Option<string>, changes: seq<string>)
    ensures var lines := ReportLines(dryRun, domain, time, errors, ipv4, iface, ipv6, changes);
            && (ErrorsTitle in lines <==> errors != [])
            && (errors != [] ==>
                  var h := ErrorsStart(dryRun);
                  lines[h] == ErrorsTitle && lines[h + 1..h + 1 + |errors|] == Bullets(errors))
  {
    ErrorsPresence(dryRun, domain, time, errors, ipv4, iface, ipv6, changes);
    if errors != [] {
      ErrorsPosition(dryRun, domain, time, errors, ipv4, iface, ipv6, changes);
    }
  }

  lemma ErrorsPresence(dryRun: bool, domain: string, time: string, errors: seq<string>,
                       ipv4: Option<string>, iface: Option<string>, ipv6: Option<string>, changes: seq<string>)
    ensures ErrorsTitle in ReportLines(dryRun, domain, time, errors, ipv4, iface, ipv6, changes) <==> errors != []
  {
    Placement(dryRun, domain, time, errors, ipv4, iface, ipv6, changes, ErrorsTitle);
    NotAnItem(ErrorsTitle, changes);
  }

  lemma ErrorsPosition(dryRun: bool, domain: string, time: string, errors: seq<string>,
                       ipv4: Option<string>, iface: Option<string>, ipv6: Option<string>, changes: seq<string>)
    requires errors != []
    ensures var lines := ReportLines(dryRun, domain, time, errors, ipv4, iface, ipv6, changes);
            var h := ErrorsStart(dryRun);
            lines[h] == ErrorsTitle && lines[h + 1..h + 1 + |errors|] == Bullets(errors)
  {
    var pre := Banner(dryRun) + Header(domain, time);
    assert |pre| == ErrorsStart(dryRun);
    assert ErrorsBlock(errors) == [ErrorsTitle] + Bullets(errors) + [Blank];
    Opening(pre, ErrorsTitle, Bullets(errors), [Blank], AddressesBlock(ipv4, iface, ipv6), ChangesBlock(changes, errors));
  }

  /** The IP block comes after the errors block: the IPv4 (or "Not available"),
      then an IPv6 line only when an interface was given. */
  lemma ReportAddressesBlock(dryRun: bool, domain: string, time: string, errors: seq<string>,
                             ipv4: Option<string>, iface: Option<string>, ipv6: Option<string>, changes: seq<string>)
    ensures var lines := ReportLines(dryRun, domain, time, errors, ipv4, iface, ipv6, changes);
            var p := AddressesStart(dryRun, errors);
            && p + 2 < |lines|
            && lines[p] == AddressesTitle
            && lines[p + 1] == Ipv4Line(ipv4)
            && (Truthy(iface) ==> lines[p + 2] == Ipv6Line(ipv6, iface.value))
            && (!Truthy(iface) ==> lines[p + 2] == Blank)
  {
    var a, b, c, d, e := Banner(dryRun), Header(domain, time), ErrorsBlock(errors),
                         AddressesBlock(ipv4, iface, ipv6), ChangesBlock(changes, errors);
    var lines := a + b + c + d + e;
    assert |a + b + c| == AddressesStart(dryRun, errors);
    Within(lines, a + b + c, d, e, 0, 1);
    Within(lines, a + b + c, d, e, 1, 2);
    Within(lines, a + b + c, d, e, 2, 3);
  }

  /** The report ends with the changes, in order, under their heading when
      there are any; otherwise with "No changes were necessary." only when
      there were no errors either. */
  lemma ReportChangesBlock(dryRun: bool, domain: string, time: string, errors: seq<string>,
                           ipv4: Option<string>, iface: Option<string>, ipv6: Option<string>, changes: seq<string>)
    ensures var lines := ReportLines(dryRun, domain, time, errors, ipv4, iface, ipv6, changes);
            && (ChangesTitle in lines <==> changes != [])
            && (NoChanges in lines <==> changes == [] && errors == [])
            && (changes != [] ==>
                  lines[|lines| - |changes| - 1] == ChangesTitle
                  && lines[|lines| - |changes|..] == Bullets(changes))
            && (changes == [] && errors == [] ==> lines[|lines| - 1] == NoChanges)
  {
    ChangesPresence(dryRun, domain, time, errors, ipv4, iface, ipv6, changes);
    if changes != [] {
      ChangesPosition(dryRun, domain, time, errors, ipv4, iface, ipv6, changes);
    } else if errors == [] {
      NoChangesPosition(dryRun, domain, time, errors, ipv4, iface, ipv6, changes);
    }
  }

  lemma ChangesPresence(dryRun: bool, domain: string, time: string, errors: seq<string>,
                        ipv4: Option<string>, iface: Option<string>, ipv6: Option<string>, changes: seq<string>)
    ensures var lines := ReportLines(dryRun, domain, time, errors, ipv4, iface, ipv6, changes);
            && (ChangesTitle in lines <==> changes != [])
            && (NoChanges in lines <==> changes == [] && errors == [])
  {
    Placement(dryRun, domain, time, errors, ipv4, iface, ipv6, changes, ChangesTitle);
    Placement(dryRun, domain, time, errors, ipv4, iface, ipv6, changes, NoChanges);
    NotAnItem(ChangesTitle, changes);
    NotAnItem(NoChanges, changes);
  }

  lemma ChangesPosition(dryRun: bool, domain: string, time: string, errors: seq<string>,
                        ipv4: Option<string>, iface: Option<string>, ipv6: Option<string>, changes: seq<string>)
    requires changes != []
    ensures var lines := ReportLines(dryRun, domain, time, errors, ipv4, iface, ipv6, changes);
            lines[|lines| - |changes| - 1] == ChangesTitle && lines[|lines| - |changes|..] == Bullets(changes)
  {
    var pre := Banner(dryRun) + Header(domain, time) + ErrorsBlock(errors) + AddressesBlock(ipv4, iface, ipv6);
    assert ChangesBlock(changes, errors) == [ChangesTitle] + Bullets(changes);
    Closing(pre, ChangesTitle, Bullets(changes));
  }

  lemma NoChangesPosition(dryRun: bool, domain: string, time: string, errors: seq<string>,
                          ipv4: Option<string>, iface: Option<string>, ipv6: Option<string>, changes: seq<string>)
    requires changes == [] && errors == []
    ensures var lines := ReportLines(dryRun, domain, time, errors, ipv4, iface, ipv6, changes);
            lines[|lines| - 1] == NoChanges
  {
    var pre := Banner(dryRun) + Header(domain, time) + ErrorsBlock(errors) + AddressesBlock(ipv4, iface, ipv6);
    assert ReportLines(dryRun, domain, time, errors, ipv4, iface, ipv6, changes) == pre + [NoChanges];
  }

  /** The subject of the report mail, or None when `main` sends no mail.
      After a normal run the mail goes out when a recipient is set and there
      were changes or errors or the report was forced; after a fatal error
      (`aborted`) only when a recipient is set and there were errors. The
      subject is "DNS Update for <domain>" with " [ERROR]" when there were
      errors, else " [UPDATED]" when there were changes, else nothing. */
  function MailSubject(domain: string, mailTo: Option<string>, changes: seq<string>, errors: seq<string>,
                       forceReport: bool, aborted: bool): (subject: Option<string>)
    ensures subject.Some? <==> Truthy(mailTo) && if aborted then errors != [] else changes != [] || errors != [] || forceReport
    ensures subject.Some? ==>
              var prefix := "DNS Update for " + domain;
              && StartsWith(subject.value, prefix)
              && (subject.value[|prefix|..] == " [ERROR]" <==> errors != [])
              && (subject.value[|prefix|..] == " [UPDATED]" <==> errors == [] && changes != [])
              && (subject.value[|prefix|..] == "" <==> errors == [] && changes == [])
  {
    var prefix := "DNS Update for " + domain;
    if aborted then
      if errors != [] && Truthy(mailTo) then
        assert (prefix + " [ERROR]")[|prefix|..] == " [ERROR]";
        Some(prefix + " [ERROR]")
      else None
    else if (changes != [] || errors != [] || forceReport) && Truthy(mailTo) then
      var tag := if errors != [] then " [ERROR]" else if changes != [] then " [UPDATED]" else "";
      assert (prefix + tag)[|prefix|..] == tag;
      Some(prefix + tag)
    else None
  }
}
