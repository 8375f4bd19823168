/** Choice of the IPv6 address to publish, from the lines `ip -6 addr show
    <interface>` prints. Both scripts use the same filter: keep lines that
    contain `inet6` and `scope global` but not `temporary`, take the second
    whitespace-separated token up to its first `/`, drop it when it starts with
    `fe80`, and choose the first address left. The `fe80` test is a textual
    prefix test, kept as the scripts write it. */
module AddressSelection {
  import opened Common

  /** The characters Python's `str.split()` treats as whitespace. */
  predicate IsSpace(c: char) {
    var n := c as int;
    (9 <= n <= 13) || (28 <= n <= 32) || n == 0x85 || n == 0xA0 || n == 0x1680
    || (0x2000 <= n <= 0x200A) || n == 0x2028 || n == 0x2029 || n == 0x202F
    || n == 0x205F || n == 0x3000
  }

  /** The first index from `i` on that holds no whitespace, or the end. */
  function SpaceEnd(s: string, i: nat): (m: nat)
    requires i <= |s|
    ensures i <= m <= |s|
    ensures forall j :: i <= j < m ==> IsSpace(s[j])
    ensures m < |s| ==> !IsSpace(s[m])
    decreases |s| - i
  {
    if i < |s| && IsSpace(s[i]) then SpaceEnd(s, i + 1) else i
  }

  /** The first index from `i` on that holds whitespace, or the end. */
  function WordEnd(s: string, i: nat): (e: nat)
    requires i <= |s|
    ensures i <= e <= |s|
    ensures forall j :: i <= j < e ==> !IsSpace(s[j])
    ensures e < |s| ==> IsSpace(s[e])
    ensures i < |s| && !IsSpace(s[i]) ==> i < e
    decreases |s| - i
  {
    if i < |s| && !IsSpace(s[i]) then WordEnd(s, i + 1) else i
  }

  /** A token of `str.split()`: not empty, and no whitespace character in it. */
  predicate IsWord(w: string) {
    w != [] && forall i :: 0 <= i < |w| ==> !IsSpace(w[i])
  }

  /** `s[m..e]` is a maximal run of non-whitespace characters: whitespace or
      an end of the text lies on each side of it. */
  predicate IsRun(s: string, m: nat, e: nat) {
    m < e <= |s| && (m == 0 || IsSpace(s[m - 1])) && (e == |s| || IsSpace(s[e]))
    && forall j :: m <= j < e ==> !IsSpace(s[j])
  }

  /** The text of a run is a word. */
  lemma RunIsWord(s: string, m: nat, e: nat)
    requires IsRun(s, m, e)
    ensures IsWord(s[m..e])
  {
    assert forall j :: 0 <= j < e - m ==> s[m..e][j] == s[m + j];
  }

  /** The maximal runs of non-whitespace characters from index `i` on, as
      (start, end) pairs in order. `i` is the start of the text, its end, or
      a whitespace character. */
  function Runs(s: string, i: nat): (runs: seq<(nat, nat)>)
    requires i <= |s| && (i == 0 || i == |s| || IsSpace(s[i]))
    ensures forall k :: 0 <= k < |runs| ==> i <= runs[k].0 < runs[k].1 <= |s|
    decreases |s| - i
  {
    var m := SpaceEnd(s, i);
    if m == |s| then []
    else
      var e := WordEnd(s, m);
      [(m, e)] + Runs(s, e)
  }

  /** Each run is maximal, and each starts after the previous one ends. */
  lemma {:induction false} RunsAreMaximal(s: string, i: nat)
    requires i <= |s| && (i == 0 || i == |s| || IsSpace(s[i]))
    ensures var runs := Runs(s, i);
            && (forall k :: 0 <= k < |runs| ==> IsRun(s, runs[k].0, runs[k].1))
            && (forall k :: 0 < k < |runs| ==> runs[k - 1].1 < runs[k].0)
    decreases |s| - i
  {
    var m := SpaceEnd(s, i);
    if m < |s| {
      var e := WordEnd(s, m);
      RunsAreMaximal(s, e);
      var runs := Runs(s, i);
      assert runs == [(m, e)] + Runs(s, e);
      assert IsRun(s, m, e);
    }
  }

  /** Every non-whitespace character from `i` on lies in one of the runs. */
  lemma {:induction false} RunsCover(s: string, i: nat, j: nat)
    requires i <= |s| && (i == 0 || i == |s| || IsSpace(s[i]))
    requires i <= j < |s| && !IsSpace(s[j])
    ensures exists k :: 0 <= k < |Runs(s, i)| && Runs(s, i)[k].0 <= j < Runs(s, i)[k].1
    decreases |s| - i
  {
    var m := SpaceEnd(s, i);
    assert m <= j;
    var e := WordEnd(s, m);
    var runs := Runs(s, i);
    assert runs == [(m, e)] + Runs(s, e);
    if j < e {
      assert runs[0].0 <= j < runs[0].1;
    } else {
      RunsCover(s, e, j);
      var k :| 0 <= k < |Runs(s, e)| && Runs(s, e)[k].0 <= j < Runs(s, e)[k].1;
      assert runs[k + 1] == Runs(s, e)[k];
    }
  }

  /** Text has no run exactly when it is all whitespace. */
  lemma NoRunsIffBlank(s: string)
    ensures Runs(s, 0) == [] <==> forall j :: 0 <= j < |s| ==> IsSpace(s[j])
  {
    if exists j :: 0 <= j < |s| && !IsSpace(s[j]) {
      var j :| 0 <= j < |s| && !IsSpace(s[j]);
      RunsCover(s, 0, j);
    }
  }

  /** The tokens of `s` from index `i` on. */
  function TokensFrom(s: string, i: nat): seq<string>
    requires i <= |s|
    decreases |s| - i
  {
    var m := SpaceEnd(s, i);
    if m == |s| then []
    else
      var e := WordEnd(s, m);
      [s[m..e]] + TokensFrom(s, e)
  }

  /** Python's `s.split()`. */
  function Tokens(s: string): seq<string> {
    TokensFrom(s, 0)
  }

  /** The tokens from `i` on are the texts of the runs from `i` on. */
  lemma {:induction false} TokensFromRuns(s: string, i: nat)
    requires i <= |s| && (i == 0 || i == |s| || IsSpace(s[i]))
    ensures var tokens, runs := TokensFrom(s, i), Runs(s, i);
            |tokens| == |runs| && forall k :: 0 <= k < |runs| ==> tokens[k] == s[runs[k].0..runs[k].1]
    decreases |s| - i
  {
    var m := SpaceEnd(s, i);
    if m < |s| {
      var e := WordEnd(s, m);
      TokensFromRuns(s, e);
      assert Runs(s, i) == [(m, e)] + Runs(s, e);
      assert TokensFrom(s, i) == [s[m..e]] + TokensFrom(s, e);
    }
  }

  /** The tokens are the maximal non-whitespace runs of the text: each one is
      the text of a run, the runs come in increasing order, and every
      non-whitespace character lies in one of them. There are none exactly
      when the text is all whitespace. */
  lemma TokensAreMaximalRuns(s: string)
    ensures Tokens(s) == [] <==> forall j :: 0 <= j < |s| ==> IsSpace(s[j])
    ensures forall k :: 0 <= k < |Tokens(s)| ==> IsWord(Tokens(s)[k])
    ensures var runs := Runs(s, 0);
            && |Tokens(s)| == |runs|
            && (forall k :: 0 <= k < |runs| ==>
                  IsRun(s, runs[k].0, runs[k].1) && Tokens(s)[k] == s[runs[k].0..runs[k].1])
            && (forall k :: 0 < k < |runs| ==> runs[k - 1].1 < runs[k].0)
            && (forall j :: 0 <= j < |s| && !IsSpace(s[j]) ==>
                  exists k :: 0 <= k < |runs| && runs[k].0 <= j < runs[k].1)
  {
    TokensFromRuns(s, 0);
    NoRunsIffBlank(s);
    RunsAreMaximal(s, 0);
    forall k | 0 <= k < |Tokens(s)|
      ensures IsWord(Tokens(s)[k])
    {
      RunIsWord(s, Runs(s, 0)[k].0, Runs(s, 0)[k].1);
    }
    forall j | 0 <= j < |s| && !IsSpace(s[j])
      ensures exists k :: 0 <= k < |Runs(s, 0)| && Runs(s, 0)[k].0 <= j < Runs(s, 0)[k].1
    {
      RunsCover(s, 0, j);
    }
  }

  /** Text with a non-whitespace character from `i` on has a token there. */
  lemma TokensFromNonBlank(s: string, i: nat, k: nat)
    requires i <= k < |s| && !IsSpace(s[k])
    ensures TokensFrom(s, i) != []
  {
    assert SpaceEnd(s, i) <= k;
  }

  /** Text with a whitespace character between two non-whitespace ones has at
      least two tokens. */
  lemma TwoTokens(s: string, i: nat, j: nat, k: nat)
    requires i < j < k < |s|
    requires !IsSpace(s[i]) && IsSpace(s[j]) && !IsSpace(s[k])
    ensures |Tokens(s)| >= 2
  {
    var m := SpaceEnd(s, 0);
    assert m <= i;
    var e := WordEnd(s, m);
    assert e <= j;
    TokensFromNonBlank(s, e, k);
  }

  /** A line containing `scope global` always has a second token, so
      `line.split()[1]` never raises on a line the filter keeps. */
  lemma QualifyingLineHasTwoTokens(line: string)
    requires Contains(line, "scope global")
    ensures |Tokens(line)| >= 2
  {
    var i := IndexOf(line, "scope global");
    assert line[i..i + 12][0] == line[i] == 's';
    assert line[i..i + 12][5] == line[i + 5] == ' ';
    assert line[i..i + 12][6] == line[i + 6] == 'g';
    TwoTokens(line, i, i + 5, i + 6);
  }

  /** `'inet6' in line and 'scope global' in line and 'temporary' not in line` */
  predicate Qualifies(line: string) {
    Contains(line, "inet6") && Contains(line, "scope global") && !Contains(line, "temporary")
  }

  /** `line.split()[1].split('/')[0]` */
  function AddressOf(line: string): string
    requires Contains(line, "scope global")
  {
    QualifyingLineHasTwoTokens(line);
    SplitOn(Tokens(line)[1], '/')[0]
  }

  /** A line that contributes an address to `ipv6_addresses`. */
  predicate Eligible(line: string) {
    Qualifies(line) && !StartsWith(AddressOf(line), "fe80")
  }

  /** The list `ipv6_addresses` the loop builds over the lines. */
  function Candidates(lines: seq<string>): seq<string> {
    if lines == [] then []
    else
      var last := lines[|lines| - 1];
      Candidates(lines[..|lines| - 1]) + (if Eligible(last) then [AddressOf(last)] else [])
  }

  /** The last line contributes its address, if eligible, after the others. */
  lemma CandidatesLast(lines: seq<string>)
    requires lines != []
    ensures var last := lines[|lines| - 1];
            Candidates(lines) == Candidates(lines[..|lines| - 1]) + (if Eligible(last) then [AddressOf(last)] else [])
  {
  }

  lemma {:induction false} CandidatesPrefix(lines: seq<string>, i: nat)
    requires i <= |lines|
    ensures Candidates(lines[..i]) <= Candidates(lines)
    decreases |lines|
  {
    if i < |lines| {
      var init := lines[..|lines| - 1];
      assert init[..i] == lines[..i];
      CandidatesPrefix(init, i);
    } else {
      assert lines[..i] == lines;
    }
  }

  /** No line is eligible exactly when the loop collects no address. */
  lemma {:induction false} NoCandidatesIffNoneEligible(lines: seq<string>)
    ensures Candidates(lines) == [] <==> forall i :: 0 <= i < |lines| ==> !Eligible(lines[i])
  {
    if lines != [] {
      var init := lines[..|lines| - 1];
      NoCandidatesIffNoneEligible(init);
      assert forall i :: 0 <= i < |init| ==> init[i] == lines[i];
    }
  }

  /** The first collected address is that of the first eligible line. */
  lemma FirstCandidateIsFirstEligible(lines: seq<string>, i: nat)
    requires i < |lines| && Eligible(lines[i])
    requires forall j :: 0 <= j < i ==> !Eligible(lines[j])
    ensures Candidates(lines) != [] && Candidates(lines)[0] == AddressOf(lines[i])
  {
    var before := lines[..i];
    assert forall j :: 0 <= j < i ==> before[j] == lines[j];
    NoCandidatesIffNoneEligible(before);
    assert Candidates(before) == [];
    var upto := lines[..i + 1];
    assert upto[..i] == before && upto[i] == lines[i];
    CandidatesLast(upto);
    assert Candidates(upto) == [] + [AddressOf(lines[i])];
    CandidatesPrefix(lines, i + 1);
  }

  /** The index of the first eligible line from `from` on. */
  ghost function FirstEligible(lines: seq<string>, from: nat): (i: nat)
    requires exists k :: from <= k < |lines| && Eligible(lines[k])
    ensures from <= i < |lines| && Eligible(lines[i])
    ensures forall j :: from <= j < i ==> !Eligible(lines[j])
    decreases |lines| - from
  {
    if Eligible(lines[from]) then from else FirstEligible(lines, from + 1)
  }

  /** The address chosen from the lines: the first one collected, if any. */
  function Chosen(lines: seq<string>): Option<string> {
    var addresses := Candidates(lines);
    if addresses == [] then None else Some(addresses[0])
  }

  /** `ipv6_addresses[0]` when the loop over the lines collected an address:
      the address of the first eligible line, and None when no line is eligible. */
  method SelectIpv6(lines: seq<string>) returns (found: Option<string>)
    ensures found == Chosen(lines)
    ensures found.None? <==> forall i :: 0 <= i < |lines| ==> !Eligible(lines[i])
    ensures found.Some? ==> exists i :: 0 <= i < |lines| && Eligible(lines[i]) && found.value == AddressOf(lines[i])
                                      && forall j :: 0 <= j < i ==> !Eligible(lines[j])
  {
    var addresses: seq<string> := [];
    var n := 0;
    while n < |lines|
      invariant 0 <= n <= |lines|
      invariant addresses == Candidates(lines[..n])
    {
      var line := lines[n];
      assert lines[..n + 1][..n] == lines[..n];
      if Contains(line, "inet6") && Contains(line, "scope global") && !Contains(line, "temporary") {
        var addr := AddressOf(line);
        if !StartsWith(addr, "fe80") {
          addresses := addresses + [addr];
        }
      }
      n := n + 1;
    }
    assert lines[..n] == lines;
    NoCandidatesIffNoneEligible(lines);
    if addresses != [] {
      found := Some(addresses[0]);
      ghost var i := FirstEligible(lines, 0);
      FirstCandidateIsFirstEligible(lines, i);
    } else {
      found := None;
    }
  }
}
