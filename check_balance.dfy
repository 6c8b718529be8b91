/** check_balance.py: HTML tags and Svelte blocks are read off a file line by
  * line, then matched with a stack; every mismatch is reported as an issue. */
module CheckBalance {
  import opened Common
  import opened Text

  datatype TagKind = Opening | Closing

  /** (tag_type, line_num, tag): `tag` is "<name>" or "{name}". */
  datatype Tag = Tag(kind: TagKind, line: nat, text: string)

  /** The three messages check_balance produces, with the values they print. */
  datatype Issue =
    | Unexpected(line: nat, tag: string)
    | Mismatched(line: nat, expected: string, openedOn: nat, found: string)
    | Unclosed(line: nat, tag: string)

  // ---------------------------------------------------------------- extraction

  /** The end of the \w+ run starting at `j`. */
  function WordEnd(s: string, j: nat): (k: nat)
    requires j <= |s|
    ensures j <= k <= |s|
    ensures forall i :: j <= i < k ==> IsWord(s[i])
    ensures k < |s| ==> !IsWord(s[k])
    decreases |s| - j
  {
    if j == |s| || !IsWord(s[j]) then j else WordEnd(s, j + 1)
  }

  /** A match of one of the two patterns at position `i`: whether it closes,
    * the \w+ name, and where the match ends. */
  datatype Hit = Hit(closing: bool, name: string, end: nat)

  predicate WordName(w: string)
  {
    w != [] && forall i :: 0 <= i < |w| ==> IsWord(w[i])
  }

  /** After a name ending at `k`: the `close` character at once, or whitespace
    * and then the first `close` character further on. */
  function CloseAfter(line: string, k: nat, close: char): (e: int)
    requires k <= |line|
    ensures e == -1 || k < e <= |line|
  {
    if k < |line| && line[k] == close then k + 1
    else if k < |line| && IsSpace(line[k]) && FindChar(line, close, k + 1) != -1 then
      FindChar(line, close, k + 1) + 1
    else -1
  }

  /** The HTML tag pattern <(/?)(\w+)(?:\s[^>]*)?> | <(/?)(\w+)(?:\s[^>]*)?/> at `i`.
    * The second alternative only adds the form "<name/>": with whitespace after
    * the name, the first alternative already matches whenever a '>' follows. */
  function HtmlAt(line: string, i: nat): (r: Option<Hit>)
    requires i < |line|
    ensures r.Some? ==> i < r.value.end <= |line| && WordName(r.value.name)
    ensures r.Some? ==> line[i] == '<'
  {
    if line[i] != '<' then None
    else
      var closing := i + 1 < |line| && line[i + 1] == '/';
      var j := if closing then i + 2 else i + 1;
      var k := WordEnd(line, j);
      if k == j then None
      else if CloseAfter(line, k, '>') != -1 then Some(Hit(closing, line[j..k], CloseAfter(line, k, '>')))
      else if k + 1 < |line| && line[k] == '/' && line[k + 1] == '>' then Some(Hit(closing, line[j..k], k + 2))
      else None
  }

  /** The Svelte block pattern \{(#|/)(\w+)(?:\s[^}]*)?\} at `i`. */
  function BlockAt(line: string, i: nat): (r: Option<Hit>)
    requires i < |line|
    ensures r.Some? ==> i < r.value.end <= |line| && WordName(r.value.name)
    ensures r.Some? ==> i + 1 < |line| && line[i] == '{' && (line[i + 1] == '#' || line[i + 1] == '/')
    ensures r.Some? ==> (r.value.closing <==> line[i + 1] == '/')
  {
    if line[i] != '{' || i + 1 == |line| || (line[i + 1] != '#' && line[i + 1] != '/') then None
    else
      var k := WordEnd(line, i + 2);
      if k == i + 2 || CloseAfter(line, k, '}') == -1 then None
      else Some(Hit(line[i + 1] == '/', line[i + 2..k], CloseAfter(line, k, '}')))
  }

  function KindOf(closing: bool): TagKind
  {
    if closing then Closing else Opening
  }

  /** A recorded tag text: `open`, a \w+ name, `close`. */
  predicate Bracketed(text: string, open: char, close: char)
  {
    |text| >= 3 && text[0] == open && text[|text| - 1] == close && WordName(text[1..|text| - 1])
  }

  /** re.finditer over the HTML pattern from position `i`: matches do not overlap. */
  function HtmlTags(line: string, n: nat, i: nat): (r: seq<Tag>)
    requires i <= |line|
    ensures forall k :: 0 <= k < |r| ==> r[k].line == n && Bracketed(r[k].text, '<', '>')
    decreases |line| - i
  {
    if i == |line| then []
    else match HtmlAt(line, i)
      case Some(h) =>
        assert ("<" + h.name + ">")[1..|h.name| + 1] == h.name;
        [Tag(KindOf(h.closing), n, "<" + h.name + ">")] + HtmlTags(line, n, h.end)
      case None => HtmlTags(line, n, i + 1)
  }

  /** re.finditer over the Svelte pattern from position `i`. */
  function Blocks(line: string, n: nat, i: nat): (r: seq<Tag>)
    requires i <= |line|
    ensures forall k :: 0 <= k < |r| ==> r[k].line == n && Bracketed(r[k].text, '{', '}')
    decreases |line| - i
  {
    if i == |line| then []
    else match BlockAt(line, i)
      case Some(h) =>
        assert ("{" + h.name + "}")[1..|h.name| + 1] == h.name;
        [Tag(KindOf(h.closing), n, "{" + h.name + "}")] + Blocks(line, n, h.end)
      case None => Blocks(line, n, i + 1)
  }

  /** The tags of line number `n`: all HTML tags, then all Svelte blocks. */
  function LineTags(line: string, n: nat): seq<Tag>
  {
    HtmlTags(line, n, 0) + Blocks(line, n, 0)
  }

  /** The tags of consecutive lines numbered from `first`. */
  function LinesTags(lines: seq<string>, first: nat): (r: seq<Tag>)
    ensures forall k :: 0 <= k < |r| ==> first <= r[k].line < first + |lines|
    ensures forall j, k :: 0 <= j < k < |r| ==> r[j].line <= r[k].line
  {
    if lines == [] then []
    else
      var head := LineTags(lines[0], first);
      var rest := LinesTags(lines[1..], first + 1);
      assert forall k :: 0 <= k < |head| ==> head[k].line == first;
      head + rest
  }

  /** extract_tags_and_blocks: lines numbered from 1. */
  function Extract(content: string): seq<Tag>
  {
    LinesTags(Split(content, '\n'), 1)
  }

  /** Line numbers are 1-based, within the file, and never go down. */
  lemma ExtractLines(content: string)
    ensures var tags := Extract(content);
      (forall k :: 0 <= k < |tags| ==> 1 <= tags[k].line <= |Split(content, '\n')|)
      && (forall j, k :: 0 <= j < k < |tags| ==> tags[j].line <= tags[k].line)
  {
  }

  /** Only "{#" and "{/" start a block: a line without either records none. */
  lemma {:induction false} NoBlockWithoutMarker(line: string, n: nat, i: nat)
    requires i <= |line|
    requires forall k :: i <= k < |line| - 1 ==> !(line[k] == '{' && (line[k + 1] == '#' || line[k + 1] == '/'))
    ensures Blocks(line, n, i) == []
    decreases |line| - i
  {
    if i < |line| {
      NoBlockWithoutMarker(line, n, i + 1);
    }
  }

  /** "{:else}" is not a block. */
  lemma ElseIsNotABlock(n: nat)
    ensures LineTags("{:else}", n) == []
  {
    NoBlockWithoutMarker("{:else}", n, 0);
    assert HtmlAt("{:else}", 0) == None;
    NoHtmlWithoutBracket("{:else}", n, 0);
  }

  lemma {:induction false} NoHtmlWithoutBracket(line: string, n: nat, i: nat)
    requires i <= |line|
    requires forall k :: i <= k < |line| ==> line[k] != '<'
    ensures HtmlTags(line, n, i) == []
    decreases |line| - i
  {
    if i < |line| {
      NoHtmlWithoutBracket(line, n, i + 1);
    }
  }

  /** The extraction loops: one pass per line, appending the HTML matches and
    * then the Svelte matches. */
  method ExtractTagsAndBlocks(content: string) returns (tags: seq<Tag>)
    ensures tags == Extract(content)
  {
    var lines := Split(content, '\n');
    tags := [];
    var k := 0;
    while k < |lines|
      invariant 0 <= k <= |lines|
      invariant tags + LinesTags(lines[k..], k + 1) == LinesTags(lines, 1)
    {
      var found := ScanLine(lines[k], k + 1);
      LinesTagsStep(lines, k);
      Regroup(tags, found, LinesTags(lines[k + 1..], k + 2));
      tags := tags + found;
      k := k + 1;
    }
    assert lines[k..] == [];
  }

  lemma Regroup(a: seq<Tag>, b: seq<Tag>, c: seq<Tag>)
    ensures a + (b + c) == (a + b) + c
  {
  }

  lemma LinesTagsStep(lines: seq<string>, k: nat)
    requires k < |lines|
    ensures LinesTags(lines[k..], k + 1) == LineTags(lines[k], k + 1) + LinesTags(lines[k + 1..], k + 2)
  {
    assert lines[k..][1..] == lines[k + 1..];
  }

  /** One line: finditer over each pattern in turn. */
  method ScanLine(line: string, n: nat) returns (found: seq<Tag>)
    ensures found == LineTags(line, n)
  {
    var html := ScanHtml(line, n);
    var blocks := ScanBlocks(line, n);
    found := html + blocks;
  }

  method ScanHtml(line: string, n: nat) returns (found: seq<Tag>)
    ensures found == HtmlTags(line, n, 0)
  {
    found := [];
    var i := 0;
    while i < |line|
      invariant 0 <= i <= |line|
      invariant found + HtmlTags(line, n, i) == HtmlTags(line, n, 0)
      decreases |line| - i
    {
      var h := HtmlAt(line, i);
      if h.Some? {
        var t := Tag(KindOf(h.value.closing), n, "<" + h.value.name + ">");
        assert HtmlTags(line, n, i) == [t] + HtmlTags(line, n, h.value.end);
        assert found + ([t] + HtmlTags(line, n, h.value.end)) == (found + [t]) + HtmlTags(line, n, h.value.end);
        found := found + [t];
        i := h.value.end;
      } else {
        i := i + 1;
      }
    }
    assert found + [] == found;
  }

  method ScanBlocks(line: string, n: nat) returns (found: seq<Tag>)
    ensures found == Blocks(line, n, 0)
  {
    found := [];
    var i := 0;
    while i < |line|
      invariant 0 <= i <= |line|
      invariant found + Blocks(line, n, i) == Blocks(line, n, 0)
      decreases |line| - i
    {
      var h := BlockAt(line, i);
      if h.Some? {
        var t := Tag(KindOf(h.value.closing), n, "{" + h.value.name + "}");
        assert Blocks(line, n, i) == [t] + Blocks(line, n, h.value.end);
        assert found + ([t] + Blocks(line, n, h.value.end)) == (found + [t]) + Blocks(line, n, h.value.end);
        found := found + [t];
        i := h.value.end;
      } else {
        i := i + 1;
      }
    }
    assert found + [] == found;
  }

  // ---------------------------------------------------------------- matching

  const Brackets: set<char> := {'<', '>', '{', '}'}

  const SelfClosing: set<string> :=
    {"img", "br", "hr", "input", "meta", "link", "area", "base", "col", "embed", "source", "track", "wbr"}

  /** tag.strip('<>{}').lower(). */
  function Name(text: string): string
  {
    Lower(Trim(text, Brackets))
  }

  /** A recorded tag's name is its \w+ part, lowercased, whichever brackets it has. */
  lemma NameOf(w: string, open: char, close: char)
    requires WordName(w) && open in Brackets && close in Brackets
    ensures Name([open] + w + [close]) == Lower(w)
  {
    assert !IsWord(open) && !IsWord(close);
    assert w[0] !in Brackets && w[|w| - 1] !in Brackets by {
      assert IsWord(w[0]) && IsWord(w[|w| - 1]);
    }
    TrimOf([open], w, [close], Brackets);
  }

  /** The stack (top last) and the issues found so far. */
  datatype Scan = Scan(stack: seq<(string, nat)>, issues: seq<Issue>)

  /** One iteration of the loop over tags. */
  function Step(st: Scan, t: Tag): (r: Scan)
    ensures st.issues <= r.issues && |r.issues| <= |st.issues| + 1
    ensures r.stack == st.stack || r.stack == st.stack + [(t.text, t.line)]
         || (st.stack != [] && r.stack == st.stack[..|st.stack| - 1])
  {
    var name := Name(t.text);
    if name in SelfClosing then st
    else if t.kind == Opening then Scan(st.stack + [(t.text, t.line)], st.issues)
    else if st.stack == [] then Scan(st.stack, st.issues + [Unexpected(t.line, t.text)])
    else
      var top := st.stack[|st.stack| - 1];
      var rest := st.stack[..|st.stack| - 1];
      if Name(top.0) != name then Scan(rest, st.issues + [Mismatched(t.line, top.0, top.1, t.text)])
      else Scan(rest, st.issues)
  }

  /** The loop over `tags` from state `st`. */
  function Run(st: Scan, tags: seq<Tag>): Scan
    decreases |tags|
  {
    if tags == [] then st else Run(Step(st, tags[0]), tags[1..])
  }

  /** The final loop: the tags left open, most recently opened first. */
  function Drain(stack: seq<(string, nat)>): (r: seq<Issue>)
    ensures |r| == |stack|
    ensures forall i :: 0 <= i < |stack| ==>
              r[i] == Unclosed(stack[|stack| - 1 - i].1, stack[|stack| - 1 - i].0)
  {
    if stack == [] then []
    else [Unclosed(stack[|stack| - 1].1, stack[|stack| - 1].0)] + Drain(stack[..|stack| - 1])
  }

  /** check_balance's result. */
  function Balance(tags: seq<Tag>): seq<Issue>
  {
    var st := Run(Scan([], []), tags);
    st.issues + Drain(st.stack)
  }

  lemma {:induction false} RunAppend(st: Scan, tags: seq<Tag>, t: Tag)
    ensures Run(st, tags + [t]) == Step(Run(st, tags), t)
    decreases |tags|
  {
    if tags != [] {
      assert (tags + [t])[1..] == tags[1..] + [t];
      RunAppend(Step(st, tags[0]), tags[1..], t);
    }
  }

  lemma {:induction false} RunConcat(st: Scan, a: seq<Tag>, b: seq<Tag>)
    ensures Run(st, a + b) == Run(Run(st, a), b)
    decreases |a|
  {
    if a == [] {
      assert a + b == b;
    } else {
      assert (a + b)[1..] == a[1..] + b;
      RunConcat(Step(st, a[0]), a[1..], b);
    }
  }

  /** check_balance: the loop over the tags, then the loop emptying the stack. */
  method CheckBalanceOf(tags: seq<Tag>) returns (issues: seq<Issue>)
    ensures issues == Balance(tags)
  {
    var stack: seq<(string, nat)> := [];
    issues := [];
    for k := 0 to |tags|
      invariant Scan(stack, issues) == Run(Scan([], []), tags[..k])
    {
      assert tags[..k + 1] == tags[..k] + [tags[k]];
      RunAppend(Scan([], []), tags[..k], tags[k]);
      stack, issues := VisitTag(stack, issues, tags[k]);
    }
    assert tags[..|tags|] == tags;
    issues := CloseRemaining(stack, issues);
  }

  /** The body of the loop over the tags. */
  method VisitTag(stack: seq<(string, nat)>, issues: seq<Issue>, t: Tag)
    returns (stack': seq<(string, nat)>, issues': seq<Issue>)
    ensures Scan(stack', issues') == Step(Scan(stack, issues), t)
  {
    stack', issues' := stack, issues;
    var name := Name(t.text);
    if name in SelfClosing {
      return;
    }
    if t.kind == Opening {
      stack' := stack + [(t.text, t.line)];
    } else if stack == [] {
      issues' := issues + [Unexpected(t.line, t.text)];
    } else {
      var top := stack[|stack| - 1];
      stack' := stack[..|stack| - 1];
      if Name(top.0) != name {
        issues' := issues + [Mismatched(t.line, top.0, top.1, t.text)];
      }
    }
  }

  /** The loop reporting every tag still open, the most recent first. */
  method CloseRemaining(stack0: seq<(string, nat)>, found: seq<Issue>) returns (issues: seq<Issue>)
    ensures issues == found + Drain(stack0)
  {
    var stack := stack0;
    issues := found;
    while stack != []
      invariant issues + Drain(stack) == found + Drain(stack0)
      decreases |stack|
    {
      var top := stack[|stack| - 1];
      stack := stack[..|stack| - 1];
      issues := issues + [Unclosed(top.1, top.0)];
    }
  }

  /** Self-closing names are skipped whether they open or close. */
  lemma SelfClosingIgnored(st: Scan, t: Tag)
    requires Name(t.text) in SelfClosing
    ensures Step(st, t) == st
  {
  }

  /** A closing tag on an empty stack: exactly one issue, and the stack stays empty. */
  lemma UnexpectedOnEmpty(st: Scan, t: Tag)
    requires Name(t.text) !in SelfClosing && t.kind == Closing && st.stack == []
    ensures Step(st, t) == Scan([], st.issues + [Unexpected(t.line, t.text)])
  {
  }

  /** A closing tag on a non-empty stack always pops it; a different name adds
    * one Mismatched issue and nothing is resynchronised. */
  lemma CloseAlwaysPops(st: Scan, t: Tag)
    requires Name(t.text) !in SelfClosing && t.kind == Closing && st.stack != []
    ensures var top := st.stack[|st.stack| - 1];
      Step(st, t).stack == st.stack[..|st.stack| - 1]
      && (Name(top.0) == Name(t.text) ==> Step(st, t).issues == st.issues)
      && (Name(top.0) != Name(t.text) ==>
            Step(st, t).issues == st.issues + [Mismatched(t.line, top.0, top.1, t.text)])
  {
  }

  /** Properly nested markup: self-closing tags on their own, or an opening tag,
    * nested markup and a closing tag of the same name. */
  datatype Markup = Single(tag: Tag) | Element(open: Tag, body: seq<Markup>, close: Tag)

  predicate WellFormed(m: Markup)
  {
    match m
    case Single(t) => Name(t.text) in SelfClosing
    case Element(o, body, c) =>
      o.kind == Opening && c.kind == Closing && Name(o.text) == Name(c.text)
      && Name(o.text) !in SelfClosing && forall i :: 0 <= i < |body| ==> WellFormed(body[i])
  }

  function Flatten(ms: seq<Markup>): seq<Tag>
    decreases ms
  {
    if ms == [] then [] else FlattenOne(ms[0]) + Flatten(ms[1..])
  }

  function FlattenOne(m: Markup): seq<Tag>
    decreases m
  {
    match m
    case Single(t) => [t]
    case Element(o, body, c) => [o] + Flatten(body) + [c]
  }

  /** Properly nested markup leaves the stack and the issues as they were. */
  lemma {:induction false} ForestNeutral(st: Scan, ms: seq<Markup>)
    requires forall i :: 0 <= i < |ms| ==> WellFormed(ms[i])
    ensures Run(st, Flatten(ms)) == st
    decreases ms
  {
    if ms != [] {
      RunConcat(st, FlattenOne(ms[0]), Flatten(ms[1..]));
      MarkupNeutral(st, ms[0]);
      ForestNeutral(st, ms[1..]);
    }
  }

  lemma {:induction false} MarkupNeutral(st: Scan, m: Markup)
    requires WellFormed(m)
    ensures Run(st, FlattenOne(m)) == st
    decreases m
  {
    match m
    case Single(t) =>
    case Element(o, body, c) =>
      var pushed := Step(st, o);
      assert pushed.stack == st.stack + [(o.text, o.line)] && pushed.issues == st.issues;
      RunConcat(st, [o] + Flatten(body), [c]);
      RunConcat(st, [o], Flatten(body));
      ForestNeutral(pushed, body);
      assert Run(st, [o]) == pushed;
      CloseMatches(st, o, c);
  }

  /** Closing the tag just opened restores the state before it. */
  lemma CloseMatches(st: Scan, o: Tag, c: Tag)
    requires o.kind == Opening && c.kind == Closing && Name(o.text) == Name(c.text) && Name(o.text) !in SelfClosing
    ensures Run(Step(st, o), [c]) == st
  {
    var pushed := Step(st, o);
    assert pushed.stack[..|pushed.stack| - 1] == st.stack;
    assert Run(pushed, [c]) == Step(pushed, c);
  }

  /** A properly nested tag sequence with nothing left open yields no issues. */
  lemma NestedIsBalanced(ms: seq<Markup>)
    requires forall i :: 0 <= i < |ms| ==> WellFormed(ms[i])
    ensures Balance(Flatten(ms)) == []
  {
    ForestNeutral(Scan([], []), ms);
  }

  /** An opening tag followed by a closing tag of the same name balances. */
  lemma PairIsBalanced(o: Tag, c: Tag)
    requires o.kind == Opening && c.kind == Closing
    requires Name(o.text) == Name(c.text) && Name(o.text) !in SelfClosing
    ensures Balance([o, c]) == []
  {
    assert Flatten([Element(o, [], c)]) == [o, c];
    NestedIsBalanced([Element(o, [], c)]);
  }

  /** Names compare case-insensitively: "<DIV>" closes "<div>". */
  lemma CloseIgnoresCase()
    ensures Balance([Tag(Opening, 1, "<div>"), Tag(Closing, 2, "<DIV>")]) == []
  {
    DivNames();
    NotSelfClosing("div");
    PairIsBalanced(Tag(Opening, 1, "<div>"), Tag(Closing, 2, "<DIV>"));
  }

  lemma DivNames()
    ensures Name("<div>") == "div" && Name("<DIV>") == "div"
  {
    NameOf("div", '<', '>');
    NameOf("DIV", '<', '>');
    assert "<div>" == ['<'] + "div" + ['>'] && "<DIV>" == ['<'] + "DIV" + ['>'];
    LowerDiv();
  }

  lemma LowerDiv()
    ensures Lower("DIV") == "div" && Lower("div") == "div"
  {
  }

  lemma NotSelfClosing(name: string)
    requires name == "div" || name == "if"
    ensures name !in SelfClosing
  {
  }

  /** Names compare across bracket kinds: the HTML tag "<if>" closes the block "{#if}". */
  lemma HtmlClosesBlock()
    ensures Balance([Tag(Opening, 1, "{if}"), Tag(Closing, 2, "<if>")]) == []
  {
    IfNames();
    NotSelfClosing("if");
    PairIsBalanced(Tag(Opening, 1, "{if}"), Tag(Closing, 2, "<if>"));
  }

  lemma IfNames()
    ensures Name("{if}") == "if" && Name("<if>") == "if"
  {
    NameOf("if", '{', '}');
    NameOf("if", '<', '>');
    assert "{if}" == ['{'] + "if" + ['}'] && "<if>" == ['<'] + "if" + ['>'];
    assert Lower("if") == "if";
  }
}
