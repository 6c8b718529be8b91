/** analyze_expanded.py: from the first line holding "{#if isExpanded}", every
  * trimmed line is classified (div open, div close, if open, if close) and
  * pushed onto or popped off one of two stacks of line numbers, until the line
  * that closes the outermost {#if}. */
module ExpandedScan {
  import opened Common
  import opened Text

  const StartMarker := "{#if isExpanded}"

  /** The first index whose line contains the start marker (the loop of lines 15-19). */
  method FindStart(lines: seq<string>) returns (start: Option<nat>)
    ensures start.Some? ==> 1 <= start.value <= |lines| && Contains(lines[start.value - 1], StartMarker)
    ensures start.Some? ==> forall i :: 0 <= i < start.value - 1 ==> !Contains(lines[i], StartMarker)
    ensures start.None? ==> forall i :: 0 <= i < |lines| ==> !Contains(lines[i], StartMarker)
  {
    start := None;
    var i := 0;
    while i < |lines|
      invariant 0 <= i <= |lines|
      invariant forall j :: 0 <= j < i ==> !Contains(lines[j], StartMarker)
    {
      if Contains(lines[i], StartMarker) {
        start := Some(i + 1);
        return;
      }
      i := i + 1;
    }
  }

  datatype LineKind = DivOpen | DivClose | IfOpen | IfClose | Other

  /** The branch a trimmed line takes: the first test that holds wins. */
  function Classify(line: string): (k: LineKind)
    ensures k == DivOpen <==>
      Contains(line, "<div") && !EndsWith(line, "</div>") && !Contains(line, "/>")
    ensures k == DivClose ==> Contains(line, "</div>")
    ensures k == IfOpen ==> Contains(line, "{#if") && !Contains(line, "</div>")
    ensures k == IfClose ==> Contains(line, "{/if}") && !Contains(line, "{#if") && !Contains(line, "</div>")
    ensures k == Other ==> !Contains(line, "</div>") && !Contains(line, "{#if") && !Contains(line, "{/if}")
  {
    if Contains(line, "<div") && !EndsWith(line, "</div>") && !Contains(line, "/>") then DivOpen
    else if Contains(line, "</div>") then DivClose
    else if Contains(line, "{#if") then IfOpen
    else if Contains(line, "{/if}") then IfClose
    else Other
  }

  /** The two stacks of opening line numbers and the lines whose close found
    * its stack empty (the ERROR messages). */
  datatype Stacks = Stacks(divs: seq<nat>, ifs: seq<nat>, divErrors: seq<nat>, ifErrors: seq<nat>)

  function Apply(st: Stacks, k: LineKind, n: nat): Stacks
  {
    match k
    case DivOpen => st.(divs := st.divs + [n])
    case DivClose =>
      if st.divs != [] then st.(divs := st.divs[..|st.divs| - 1]) else st.(divErrors := st.divErrors + [n])
    case IfOpen => st.(ifs := st.ifs + [n])
    case IfClose =>
      if st.ifs != [] then st.(ifs := st.ifs[..|st.ifs| - 1]) else st.(ifErrors := st.ifErrors + [n])
    case Other => st
  }

  /** The stop test of lines 61-64, applied after the line was handled. */
  predicate EndsBlock(line: string, st: Stacks)
  {
    Contains(line, "{/if}") && st.ifs == [] && !Contains(line, "isExpanded")
  }

  /** Every number on a stack is a line already processed, in increasing order. */
  predicate Ordered(s: seq<nat>, lo: nat, hi: nat)
  {
    (forall i :: 0 <= i < |s| ==> lo <= s[i] < hi) && forall i, j :: 0 <= i < j < |s| ==> s[i] < s[j]
  }

  /** The scan from index `i` on: the state it ends in and the end line, if any. */
  function ScanFrom(lines: seq<string>, i: nat, st: Stacks): (r: (Stacks, Option<nat>))
    requires i <= |lines|
    ensures r.1.Some? ==> i < r.1.value <= |lines| && EndsBlock(Strip(lines[r.1.value - 1]), r.0)
    decreases |lines| - i
  {
    if i == |lines| then (st, None)
    else
      var line := Strip(lines[i]);
      var next := Apply(st, Classify(line), i + 1);
      if EndsBlock(line, next) then (next, Some(i + 1)) else ScanFrom(lines, i + 1, next)
  }

  /** No line before the end line stops the scan: for every earlier line
    * number e, the state after line e fails the stop test at line e. */
  lemma {:induction false} EndIsFirst(lines: seq<string>, i: nat, st: Stacks, e: nat)
    requires i < e <= |lines|
    requires var r := ScanFrom(lines, i, st); r.1.None? || e < r.1.value
    ensures !EndsBlock(Strip(lines[e - 1]), Upto(lines, i, e, st))
    decreases e - i
  {
    var next := Apply(st, Classify(Strip(lines[i])), i + 1);
    if e > i + 1 {
      UptoStep(lines, i, e, st);
      EndIsFirst(lines, i + 1, next, e);
    }
  }

  /** The state after handling lines i .. e-1 without stopping. */
  function Upto(lines: seq<string>, i: nat, e: nat, st: Stacks): Stacks
    requires i <= e <= |lines|
    decreases e - i
  {
    if i == e then st else Apply(Upto(lines, i, e - 1, st), Classify(Strip(lines[e - 1])), e)
  }

  lemma {:induction false} UptoStep(lines: seq<string>, i: nat, e: nat, st: Stacks)
    requires i < e <= |lines|
    ensures Upto(lines, i, e, st) == Upto(lines, i + 1, e, Apply(st, Classify(Strip(lines[i])), i + 1))
    decreases e - i
  {
    if e > i + 1 {
      UptoStep(lines, i, e - 1, st);
    }
  }

  /** The stacks only ever hold processed line numbers, oldest first. */
  lemma {:induction false} ScanOrdered(lines: seq<string>, i: nat, st: Stacks, lo: nat)
    requires i <= |lines| && lo <= i + 1 && Ordered(st.divs, lo, i + 1) && Ordered(st.ifs, lo, i + 1)
    ensures Ordered(ScanFrom(lines, i, st).0.divs, lo, |lines| + 1)
    ensures Ordered(ScanFrom(lines, i, st).0.ifs, lo, |lines| + 1)
    decreases |lines| - i
  {
    if i < |lines| {
      var next := Apply(st, Classify(Strip(lines[i])), i + 1);
      ApplyOrdered(st, Classify(Strip(lines[i])), i + 1, lo);
      if !EndsBlock(Strip(lines[i]), next) {
        ScanOrdered(lines, i + 1, next, lo);
      } else {
        OrderedWiden(next.divs, lo, i + 2, |lines| + 1);
        OrderedWiden(next.ifs, lo, i + 2, |lines| + 1);
      }
    } else {
      OrderedWiden(st.divs, lo, i + 1, |lines| + 1);
      OrderedWiden(st.ifs, lo, i + 1, |lines| + 1);
    }
  }

  lemma OrderedWiden(s: seq<nat>, lo: nat, hi: nat, hi2: nat)
    requires Ordered(s, lo, hi) && hi <= hi2
    ensures Ordered(s, lo, hi2)
  {
  }

  lemma ApplyOrdered(st: Stacks, k: LineKind, n: nat, lo: nat)
    requires lo <= n && Ordered(st.divs, lo, n) && Ordered(st.ifs, lo, n)
    ensures Ordered(Apply(st, k, n).divs, lo, n + 1) && Ordered(Apply(st, k, n).ifs, lo, n + 1)
  {
  }

  /** A close with its stack empty is reported, and that stack stays empty. */
  lemma CloseOnEmpty(st: Stacks, n: nat)
    ensures st.divs == [] ==> Apply(st, DivClose, n) == st.(divErrors := st.divErrors + [n])
    ensures st.ifs == [] ==> Apply(st, IfClose, n) == st.(ifErrors := st.ifErrors + [n])
  {
  }

  /** A one-line "<div>...</div>" takes the div-close branch and pops an earlier div. */
  lemma OneLineDivCloses(x: string)
    ensures Classify("<div>" + x + "</div>") == DivClose
  {
    var line := "<div>" + x + "</div>";
    assert line[|line| - 6..] == "</div>";
    assert OccursAt(line, "</div>", |line| - 6);
    ContainsAt(line, "</div>", |line| - 6);
  }

  /** What analyze_expanded_section reports. */
  datatype Report = Report(start: Option<nat>, end: Option<nat>, stacks: Stacks)

  const Empty := Stacks([], [], [], [])

  function Analyze(lines: seq<string>, start: Option<nat>): Report
    requires start.Some? ==> 1 <= start.value <= |lines|
  {
    if start.None? then Report(None, None, Empty)
    else
      var r := ScanFrom(lines, start.value - 1, Empty);
      Report(start, r.1, r.0)
  }

  /** analyze_expanded_section on the file's lines. */
  method AnalyzeExpandedSection(lines: seq<string>) returns (report: Report)
    ensures report.start.Some? ==>
      1 <= report.start.value <= |lines| && Contains(lines[report.start.value - 1], StartMarker)
    ensures report.start.None? ==> report == Report(None, None, Empty)
    ensures report.start.Some? ==> report == Analyze(lines, report.start)
    ensures report.start.Some? && report.end.Some? ==>
      1 <= report.start.value <= report.end.value <= |lines|
      && EndsBlock(Strip(lines[report.end.value - 1]), report.stacks)
  {
    var start := FindStart(lines);
    if start.None? {
      return Report(None, None, Empty);
    }
    var st, end := ScanLines(lines, start.value - 1);
    report := Report(start, end, st);
  }

  /** Lines 36-58: one line's effect on the two stacks and the error lists. */
  method ApplyLine(st: Stacks, kind: LineKind, n: nat) returns (st': Stacks)
    ensures st' == Apply(st, kind, n)
  {
    st' := st;
    if kind == DivOpen {
      st' := st.(divs := st.divs + [n]);
    } else if kind == DivClose {
      if st.divs != [] {
        st' := st.(divs := st.divs[..|st.divs| - 1]);
      } else {
        st' := st.(divErrors := st.divErrors + [n]);
      }
    } else if kind == IfOpen {
      st' := st.(ifs := st.ifs + [n]);
    } else if kind == IfClose {
      if st.ifs != [] {
        st' := st.(ifs := st.ifs[..|st.ifs| - 1]);
      } else {
        st' := st.(ifErrors := st.ifErrors + [n]);
      }
    }
  }

  /** The loop of lines 31-64, from index `from` on. */
  method ScanLines(lines: seq<string>, from: nat) returns (st: Stacks, end: Option<nat>)
    requires from <= |lines|
    ensures (st, end) == ScanFrom(lines, from, Empty)
  {
    st := Empty;
    end := None;
    var i := from;
    while i < |lines|
      invariant from <= i <= |lines| && end.None?
      invariant ScanFrom(lines, i, st) == ScanFrom(lines, from, Empty)
      decreases |lines| - i
    {
      var line := Strip(lines[i]);
      st := ApplyLine(st, Classify(line), i + 1);
      if Contains(line, "{/if}") && st.ifs == [] && !Contains(line, "isExpanded") {
        end := Some(i + 1);
        break;
      }
      i := i + 1;
    }
  }
}
