/** The ranking parser shared by every strategy (`_parse_ranking_from_text`).
    It finds the `FINAL RANKING:` marker, scans the text between its first
    and second occurrence for numbered entries `\d+\.\s*Response [A-Z]`,
    falls back to bare `Response [A-Z]` labels in that segment, and scans
    the whole text for bare labels only when the marker is absent.

    `re.findall` scans left to right and resumes after each match, so
    matches never overlap. Both patterns are deterministic: a digit run
    must be followed by `.`, which is not a digit, and a whitespace run
    must be followed by `R`, which is not whitespace, so backtracking can
    never produce a different match. A match attempt at one position is
    therefore a single greedy pass. */
module RankingParser {
  import opened Common

  const Marker: string := "FINAL RANKING:"
  const LabelPrefix: string := "Response "

  predicate IsUpper(c: char)
  {
    'A' <= c <= 'Z'
  }

  /** `s` is exactly one `Response [A-Z]` label. */
  predicate IsLabel(s: string)
  {
    |s| == 10 && s[..9] == LabelPrefix && IsUpper(s[9])
  }

  /** A label starts at index `i` of `s`. */
  predicate LabelAt(s: string, i: int)
  {
    0 <= i && i + 10 <= |s| && IsLabel(s[i..i + 10])
  }

  /** `p` occurs in `s` starting at index `i`. */
  predicate OccursAt(s: string, p: string, i: int)
  {
    0 <= i && i + |p| <= |s| && s[i..i + |p|] == p
  }

  /** Python `p in s`. */
  ghost predicate Contains(s: string, p: string)
  {
    exists i :: OccursAt(s, p, i)
  }

  /** Index of the first occurrence of `p` in `s` (Python `s.find(p)`). */
  function IndexOf(s: string, p: string): (r: Option<nat>)
    ensures r.Some? ==> OccursAt(s, p, r.value)
    ensures r.Some? ==> forall j :: 0 <= j < r.value ==> !OccursAt(s, p, j)
    ensures r.None? ==> forall j :: !OccursAt(s, p, j)
    decreases |s|
  {
    if |s| < |p| then None
    else if s[..|p|] == p then Some(0)
    else
      var r := IndexOf(s[1..], p);
      ShiftOccurrences(s, p);
      assert !OccursAt(s, p, 0) by {
        assert s[0..|p|] == s[..|p|];
      }
      match r
      case Some(j) => Some(j + 1)
      case None => None
  }

  lemma ShiftOccurrences(s: string, p: string)
    requires |s| > 0
    ensures forall j :: 1 <= j ==> (OccursAt(s, p, j) <==> OccursAt(s[1..], p, j - 1))
  {
    forall j | 1 <= j
      ensures OccursAt(s, p, j) <==> OccursAt(s[1..], p, j - 1)
    {
      if j + |p| <= |s| {
        assert s[1..][j - 1..j - 1 + |p|] == s[j..j + |p|];
      }
    }
  }

  /** The first occurrence is the one `IndexOf` reports. */
  lemma IndexOfFirst(s: string, p: string, i: nat)
    requires OccursAt(s, p, i)
    requires forall j :: 0 <= j < i ==> !OccursAt(s, p, j)
    ensures IndexOf(s, p) == Some(i)
  {
  }

  /** Python `re.findall(r'Response [A-Z]', s)`. */
  function FindLabels(s: string): (r: seq<string>)
    ensures forall k :: 0 <= k < |r| ==> IsLabel(r[k])
    ensures |r| * 10 <= |s|
    decreases |s|
  {
    if |s| < 10 then []
    else if IsLabel(s[..10]) then [s[..10]] + FindLabels(s[10..])
    else FindLabels(s[1..])
  }

  /** `findall` finds nothing exactly when no label occurs anywhere. */
  lemma {:induction false} FindLabelsEmpty(s: string)
    ensures FindLabels(s) == [] <==> forall i :: !LabelAt(s, i)
    decreases |s|
  {
    if |s| >= 10 && !IsLabel(s[..10]) {
      FindLabelsEmpty(s[1..]);
      forall i | LabelAt(s, i)
        ensures LabelAt(s[1..], i - 1)
      {
        assert i != 0;
        assert s[1..][i - 1..i + 9] == s[i..i + 10];
      }
      forall i | LabelAt(s[1..], i)
        ensures LabelAt(s, i + 1)
      {
        assert s[1..][i..i + 10] == s[i + 1..i + 11];
      }
    } else if |s| >= 10 {
      assert LabelAt(s, 0);
    }
  }

  /** `findall` returns the leftmost label and then resumes right after it,
      so matches never overlap. */
  lemma {:induction false} FindLabelsLeftmost(s: string, i: nat)
    requires LabelAt(s, i)
    requires forall j :: 0 <= j < i ==> !LabelAt(s, j)
    ensures FindLabels(s) == [s[i..i + 10]] + FindLabels(s[i + 10..])
  {
    if i == 0 {
      assert s[..10] == s[0..10];
    } else {
      assert !LabelAt(s, 0);
      var t := s[1..];
      assert t[i - 1..i + 9] == s[i..i + 10];
      assert t[i + 9..] == s[i + 10..];
      forall j | 0 <= j < i - 1
        ensures !LabelAt(t, j)
      {
        assert t[j..j + 10] == s[j + 1..j + 11];
        assert !LabelAt(s, j + 1);
      }
      FindLabelsLeftmost(t, i - 1);
    }
  }

  /** An overlapping pair of labels yields only the first one: in
      `"Response Response A"` the scan stops at `"Response R"` and the
      remaining `"esponse A"` holds no label. */
  lemma FindLabelsNoOverlap()
    ensures FindLabels("Response Response A") == ["Response R"]
  {
    var s := "Response Response A";
    assert s[..10] == "Response R";
    assert IsLabel(s[..10]);
    assert |s[10..]| < 10;
  }

  /** Length of the run of ASCII digits at the start of `s`. */
  function DigitRun(s: string): (n: nat)
    ensures n <= |s|
    ensures forall k :: 0 <= k < n ==> IsDigit(s[k])
    ensures n < |s| ==> !IsDigit(s[n])
  {
    if |s| == 0 || !IsDigit(s[0]) then 0 else 1 + DigitRun(s[1..])
  }

  /** Length of the run of whitespace at the start of `s`. */
  function SpaceRun(s: string): (n: nat)
    ensures n <= |s|
    ensures forall k :: 0 <= k < n ==> IsSpace(s[k])
    ensures n < |s| ==> !IsSpace(s[n])
  {
    if |s| == 0 || !IsSpace(s[0]) then 0 else 1 + SpaceRun(s[1..])
  }

  /** Length of the match of `\d+\.\s*Response [A-Z]` anchored at the start of `s`, if any. */
  function EntryAt0(s: string): (r: Option<nat>)
    ensures r.Some? ==> 12 <= r.value <= |s| && LabelAt(s, r.value - 10)
  {
    var d := DigitRun(s);
    if d == 0 || d >= |s| || s[d] != '.' then None
    else
      var w := SpaceRun(s[d + 1..]);
      var p := d + 1 + w;
      if p + 10 <= |s| && IsLabel(s[p..p + 10]) then Some(p + 10) else None
  }

  /** A numbered entry: digits, a period, whitespace, then a label. */
  ghost predicate IsEntry(m: string)
  {
    exists d: nat, w: nat :: EntryShape(m, d, w)
  }

  /** `m` is `d` digits, a period, `w` whitespace characters and a label. */
  predicate EntryShape(m: string, d: nat, w: nat)
  {
    && 1 <= d && d + 1 + w + 10 == |m|
    && (forall k :: 0 <= k < d ==> IsDigit(m[k]))
    && m[d] == '.'
    && (forall k :: d + 1 <= k < d + 1 + w ==> IsSpace(m[k]))
    && IsLabel(m[d + 1 + w..])
  }

  /** Soundness of the anchored match: what it accepts is an entry. */
  lemma EntryAt0Sound(s: string)
    requires EntryAt0(s).Some?
    ensures IsEntry(s[..EntryAt0(s).value])
  {
    var n := EntryAt0(s).value;
    var d := DigitRun(s);
    var w := SpaceRun(s[d + 1..]);
    var m := s[..n];
    assert m[d + 1 + w..] == s[d + 1 + w..n];
    forall k | d + 1 <= k < d + 1 + w
      ensures IsSpace(m[k])
    {
      assert m[k] == s[d + 1..][k - (d + 1)];
    }
    assert EntryShape(m, d, w);
  }

  /** Completeness of the anchored match: an entry at the start of `s` is
      matched, and the match ends exactly at the end of the entry. */
  lemma EntryAt0Complete(dg: string, sp: string, l: string, rest: string)
    requires |dg| > 0 && forall k :: 0 <= k < |dg| ==> IsDigit(dg[k])
    requires forall k :: 0 <= k < |sp| ==> IsSpace(sp[k])
    requires IsLabel(l)
    ensures EntryAt0(dg + "." + sp + l + rest) == Some(|dg| + 1 + |sp| + 10)
  {
    var s := dg + "." + sp + l + rest;
    var d, w := |dg|, |sp|;
    var p := d + 1 + w;
    assert forall k :: 0 <= k < d ==> IsDigit(s[k]) by {
      assert forall k :: 0 <= k < d ==> s[k] == dg[k];
    }
    assert s[d] == '.';
    assert forall k :: d + 1 <= k < p ==> IsSpace(s[k]) by {
      assert forall k :: d + 1 <= k < p ==> s[k] == sp[k - d - 1];
    }
    assert IsLabel(s[p..p + 10]) by {
      assert s[p..p + 10] == l;
    }
    EntryAt0Of(s, d, w);
  }

  /** The anchored match read off the positions of `s`: `d` digits, a
      period, `w` spaces, then a label. */
  lemma EntryAt0Of(s: string, d: nat, w: nat)
    requires 0 < d && d + 1 + w + 10 <= |s|
    requires forall k :: 0 <= k < d ==> IsDigit(s[k])
    requires s[d] == '.'
    requires forall k :: d + 1 <= k < d + 1 + w ==> IsSpace(s[k])
    requires IsLabel(s[d + 1 + w..d + 1 + w + 10])
    ensures EntryAt0(s) == Some(d + 1 + w + 10)
  {
    var p := d + 1 + w;
    DigitRunIs(s, d);
    var t := s[d + 1..];
    assert forall k :: 0 <= k < w ==> IsSpace(t[k]) by {
      forall k | 0 <= k < w ensures IsSpace(t[k]) { assert t[k] == s[d + 1 + k]; }
    }
    assert s[p..p + 10][0] == 'R' == t[w];
    SpaceRunIs(t, w);
  }

  /** The digit run of `s` is `d` long when `d` digits are followed by a non-digit. */
  lemma DigitRunIs(s: string, d: nat)
    requires d < |s| && !IsDigit(s[d])
    requires forall k :: 0 <= k < d ==> IsDigit(s[k])
    ensures DigitRun(s) == d
  {
  }

  /** The space run of `s` is `w` long when `w` spaces are followed by a non-space. */
  lemma SpaceRunIs(s: string, w: nat)
    requires w < |s| && !IsSpace(s[w])
    requires forall k :: 0 <= k < w ==> IsSpace(s[k])
    ensures SpaceRun(s) == w
  {
  }

  /** Text without the letter `R` holds no label. */
  predicate NoR(s: string)
  {
    forall k :: 0 <= k < |s| ==> s[k] != 'R'
  }

  /** A numbered entry as matched text: a label at the end, nothing before it that could start one. */
  predicate IsEntryText(m: string)
  {
    |m| >= 12 && IsLabel(m[|m| - 10..]) && NoR(m[..|m| - 10])
  }

  /** Python `re.findall(r'\d+\.\s*Response [A-Z]', s)`: the matched entry texts. */
  function FindNumbered(s: string): (r: seq<string>)
    ensures forall k :: 0 <= k < |r| ==> IsEntryText(r[k])
    decreases |s|
  {
    if |s| == 0 then []
    else
      match EntryAt0(s)
      case Some(n) =>
        EntryPrefixNoR(s);
        assert s[..n][n - 10..] == s[n - 10..n];
        [s[..n]] + FindNumbered(s[n..])
      case None => FindNumbered(s[1..])
  }

  lemma EntryPrefixNoR(s: string)
    requires EntryAt0(s).Some?
    ensures NoR(s[..EntryAt0(s).value][..EntryAt0(s).value - 10])
  {
    var d := DigitRun(s);
    var w := SpaceRun(s[d + 1..]);
    forall k | d + 1 <= k < d + 1 + w
      ensures IsSpace(s[k])
    {
      assert s[k] == s[d + 1..][k - (d + 1)];
    }
  }

  /** Every label starts with `R`. */
  lemma LabelHeadR()
    ensures forall x :: IsLabel(x) ==> x[0] == 'R'
  {
    forall x | IsLabel(x)
      ensures x[0] == 'R'
    {
      assert x[..9][0] == x[0];
    }
  }

  lemma {:induction false} SkipNoR(p: string, rest: string)
    requires NoR(p)
    ensures FindLabels(p + rest) == FindLabels(rest)
    decreases |p|
  {
    if |p| == 0 {
      assert p + rest == rest;
    } else {
      var s := p + rest;
      if |s| >= 10 {
        LabelHeadR();
        assert s[..10][0] == p[0];
        assert !IsLabel(s[..10]);
        assert s[1..] == p[1..] + rest;
        SkipNoR(p[1..], rest);
      } else {
        assert |rest| < 10;
      }
    }
  }

  /** `re.search(r'Response [A-Z]', m).group()` on a numbered entry: its label. */
  function EntryLabel(m: string): (l: string)
    requires IsEntryText(m)
    ensures IsLabel(l)
  {
    EntryLabelIsSearch(m);
    FindLabels(m)[0]
  }

  /** Searching an entry text finds the label at its end. */
  lemma EntryLabelIsSearch(m: string)
    requires IsEntryText(m)
    ensures FindLabels(m) == [m[|m| - 10..]]
  {
    var pre := m[..|m| - 10];
    var l := m[|m| - 10..];
    SkipNoR(pre, l);
    assert pre + l == m;
    assert l[..10] == l;
    assert l[10..] == [];
  }

  function EntryLabels(ms: seq<string>): (r: seq<string>)
    requires forall k :: 0 <= k < |ms| ==> IsEntryText(ms[k])
    ensures |r| == |ms|
    ensures forall k :: 0 <= k < |ms| ==> r[k] == EntryLabel(ms[k])
  {
    if |ms| == 0 then [] else [EntryLabel(ms[0])] + EntryLabels(ms[1..])
  }

  /** The part of `text` after its first marker, up to the second marker
      (Python `text.split("FINAL RANKING:")[1]`). */
  function Section(text: string): (r: string)
    requires Contains(text, Marker)
  {
    var i := IndexOf(text, Marker).value;
    var rest := text[i + |Marker|..];
    match IndexOf(rest, Marker)
    case Some(j) => rest[..j]
    case None => rest
  }

  /** The scan of a ranking section: numbered entries if there are any, bare labels otherwise. */
  function ParseSection(sec: string): (r: seq<string>)
    ensures forall k :: 0 <= k < |r| ==> IsLabel(r[k])
  {
    var numbered := FindNumbered(sec);
    if |numbered| > 0 then EntryLabels(numbered) else FindLabels(sec)
  }

  /** `_parse_ranking_from_text`: total, and every element is one label. */
  function Parse(text: string): (r: seq<string>)
    ensures forall k :: 0 <= k < |r| ==> IsLabel(r[k])
  {
    if IndexOf(text, Marker).Some? then ParseSection(Section(text))
    else FindLabels(text)
  }

  /** Without a marker the whole text is scanned for bare labels; the empty text gives nothing. */
  lemma ParseWithoutMarker(text: string)
    requires !Contains(text, Marker)
    ensures Parse(text) == FindLabels(text)
    ensures text == "" ==> Parse(text) == []
  {
  }

  /** `F` occurs in the marker only at its start, so the marker cannot overlap itself. */
  lemma MarkerHeadUnique()
    ensures |Marker| == 14
    ensures forall k :: 0 < k < |Marker| ==> Marker[k] != 'F'
  {
  }

  /** In `a + Marker + rest` with no marker inside `a`, the first marker is the one after `a`. */
  lemma FirstMarker(a: string, rest: string)
    requires !Contains(a, Marker)
    ensures IndexOf(a + Marker + rest, Marker) == Some(|a|)
  {
    var s := a + Marker + rest;
    MarkerHeadUnique();
    assert s[|a|..|a| + 14] == Marker;
    forall j | 0 <= j < |a|
      ensures !OccursAt(s, Marker, j)
    {
      if j + 14 <= |a| {
        assert s[j..j + 14] == a[j..j + 14];
        assert !OccursAt(a, Marker, j);
      } else {
        assert s[j..j + 14][|a| - j] == s[|a|] == 'F';
        assert Marker[|a| - j] != 'F';
      }
    }
    IndexOfFirst(s, Marker, |a|);
  }

  /** Only the text between the first and the second marker is scanned:
      what precedes the first marker and what follows the second never counts. */
  lemma ParseBetweenMarkers(a: string, b: string, c: string)
    requires !Contains(a, Marker) && !Contains(b, Marker)
    ensures Parse(a + Marker + b + Marker + c) == ParseSection(b)
  {
    var s := a + Marker + b + Marker + c;
    assert s == a + Marker + (b + Marker + c);
    FirstMarker(a, b + Marker + c);
    var rest := s[|a| + |Marker|..];
    assert rest == b + Marker + c;
    FirstMarker(b, c);
    assert rest[..|b|] == b;
  }

  /** With a single marker, everything after it is the section. */
  lemma ParseAfterMarker(a: string, b: string)
    requires !Contains(a, Marker) && !Contains(b, Marker)
    ensures Parse(a + Marker + b) == ParseSection(b)
  {
    FirstMarker(a, b);
    assert (a + Marker + b)[|a| + |Marker|..] == b;
  }

  /** Every numbered match contains a label, so a section without labels has no numbered entries either. */
  lemma {:induction false} NumberedHasLabel(s: string)
    requires FindNumbered(s) != []
    ensures exists i :: LabelAt(s, i)
    decreases |s|
  {
    match EntryAt0(s)
    case Some(n) =>
      assert LabelAt(s, n - 10);
    case None =>
      NumberedHasLabel(s[1..]);
      var i :| LabelAt(s[1..], i);
      assert s[1..][i..i + 10] == s[i + 1..i + 11];
      assert LabelAt(s, i + 1);
  }

  /** No whole-text fallback: when the marker is present but its section holds
      no label, the result is empty even if labels occur elsewhere in the text. */
  lemma NoFallbackWithMarker(a: string, b: string)
    requires !Contains(a, Marker) && !Contains(b, Marker)
    requires forall i :: !LabelAt(b, i)
    ensures Parse(a + Marker + b) == []
  {
    ParseAfterMarker(a, b);
    if FindNumbered(b) != [] {
      NumberedHasLabel(b);
    }
    FindLabelsEmpty(b);
  }

  /** Numbered entries take precedence: if the section has any, bare labels
      elsewhere in the section are ignored. */
  lemma NumberedPreferred(a: string, b: string)
    requires !Contains(a, Marker) && !Contains(b, Marker)
    requires FindNumbered(b) != []
    ensures Parse(a + Marker + b) == EntryLabels(FindNumbered(b))
  {
    ParseAfterMarker(a, b);
  }

  /** One rendered ranking line, `"\n" + "<rank>. " + label`. */
  function RankLine(rank: nat, l: string): string
  {
    "\n" + NatToString(rank) + ". " + l
  }

  /** A numbered list of labels starting at `rank`. */
  function RankLines(labels: seq<string>, rank: nat): string
  {
    if |labels| == 0 then "" else RankLine(rank, labels[0]) + RankLines(labels[1..], rank + 1)
  }

  /** A well-formed ranking section as the evaluation prompt asks for it. */
  function Render(labels: seq<string>): string
  {
    Marker + RankLines(labels, 1)
  }

  lemma {:induction false} RankLinesNoColon(labels: seq<string>, rank: nat)
    requires forall k :: 0 <= k < |labels| ==> IsLabel(labels[k])
    ensures forall k :: 0 <= k < |RankLines(labels, rank)| ==> RankLines(labels, rank)[k] != ':'
    decreases |labels|
  {
    if |labels| > 0 {
      RankLinesNoColon(labels[1..], rank + 1);
      var l := labels[0];
      assert l == l[..9] + [l[9]];
      var line := RankLine(rank, l);
      assert forall k :: 0 <= k < |line| ==> line[k] != ':';
    }
  }

  lemma NoColonNoMarker(s: string)
    requires forall k :: 0 <= k < |s| ==> s[k] != ':'
    ensures !Contains(s, Marker)
  {
    forall i
      ensures !OccursAt(s, Marker, i)
    {
      if 0 <= i && i + 14 <= |s| {
        assert Marker[13] == ':';
        assert s[i..i + 14][13] == s[i + 13];
      }
    }
  }

  /** Entry texts that the rendered lines produce. */
  function RenderedEntries(labels: seq<string>, rank: nat): seq<string>
  {
    if |labels| == 0 then [] else [NatToString(rank) + ". " + labels[0]] + RenderedEntries(labels[1..], rank + 1)
  }

  lemma {:induction false} FindNumberedRankLines(labels: seq<string>, rank: nat)
    requires forall k :: 0 <= k < |labels| ==> IsLabel(labels[k])
    ensures FindNumbered(RankLines(labels, rank)) == RenderedEntries(labels, rank)
    decreases |labels|
  {
    if |labels| > 0 {
      var dg := NatToString(rank);
      var l := labels[0];
      var rest := RankLines(labels[1..], rank + 1);
      var t := dg + "." + " " + l + rest;
      assert RankLines(labels, rank) == "\n" + t;
      SkipNonDigit('\n', t);
      NumberedStep(dg, l, rest);
      FindNumberedRankLines(labels[1..], rank + 1);
    }
  }

  lemma SkipNonDigit(c: char, t: string)
    requires !IsDigit(c)
    ensures FindNumbered([c] + t) == FindNumbered(t)
  {
    var s := [c] + t;
    assert s[1..] == t;
    assert DigitRun(s) == 0;
  }

  lemma NumberedStep(dg: string, l: string, rest: string)
    requires |dg| > 0 && forall k :: 0 <= k < |dg| ==> IsDigit(dg[k])
    requires IsLabel(l)
    ensures FindNumbered(dg + "." + " " + l + rest) == [dg + ". " + l] + FindNumbered(rest)
  {
    var t := dg + "." + " " + l + rest;
    EntryAt0Complete(dg, " ", l, rest);
    var n := |dg| + 12;
    assert t[..n] == dg + ". " + l;
    assert t[n..] == rest;
  }

  lemma {:induction false} RenderedLabels(labels: seq<string>, rank: nat)
    requires forall k :: 0 <= k < |labels| ==> IsLabel(labels[k])
    ensures forall k :: 0 <= k < |RenderedEntries(labels, rank)| ==> IsEntryText(RenderedEntries(labels, rank)[k])
    ensures |RenderedEntries(labels, rank)| == |labels|
    ensures EntryLabels(RenderedEntries(labels, rank)) == labels
    decreases |labels|
  {
    if |labels| > 0 {
      RenderedLabels(labels[1..], rank + 1);
      var m := NatToString(rank) + ". " + labels[0];
      assert m[|m| - 10..] == labels[0];
      assert forall k :: 0 <= k < |m| - 10 ==> m[k] != 'R' by {
        assert m[..|m| - 10] == NatToString(rank) + ". ";
      }
      assert IsEntryText(m);
      EntryLabelIsSearch(m);
      var es := RenderedEntries(labels, rank);
      assert es[1..] == RenderedEntries(labels[1..], rank + 1);
    }
  }

  /** Round trip: a ranking written in the requested format, after any
      marker-free preamble, parses back to exactly the labels written. */
  lemma ParseRender(preamble: string, labels: seq<string>)
    requires !Contains(preamble, Marker)
    requires forall k :: 0 <= k < |labels| ==> IsLabel(labels[k])
    ensures Parse(preamble + Render(labels)) == labels
  {
    var body := RankLines(labels, 1);
    RankLinesNoColon(labels, 1);
    NoColonNoMarker(body);
    assert preamble + Render(labels) == preamble + Marker + body;
    ParseAfterMarker(preamble, body);
    FindNumberedRankLines(labels, 1);
    RenderedLabels(labels, 1);
    if |labels| == 0 {
      assert body == "";
    }
  }
}
