/** Printing a tree as XML text and reading it back. */
module TreeXml {
  import opened AssocTree
  import opened Characters
  import opened NanoXml
  import opened Options

  function Indent(level: nat): string {
    if level == 0 then "" else "  " + Indent(level - 1)
  }

  function Dump(t: Tree, level: nat): string
    decreases t, 0
  {
    match t
    case Null => Indent(level)
    case Text(s) => Indent(level) + s + "\n"
    case List(items) =>
      if |items| <= 1 then Indent(level) + "<" + t.Name() + "/>\n"
      else Indent(level) + ("<" + t.Name() + ">") + "\n" + DumpAll(items[1..], level + 1)
           + Indent(level) + ("</" + t.Name() + ">") + "\n"
  }

  function DumpAll(ts: seq<Tree>, level: nat): string
    decreases ts, 1
  {
    if |ts| == 0 then "" else Dump(ts[0], level) + DumpAll(ts[1..], level)
  }

  method AppendIndent(s: string, level: nat) returns (r: string)
    ensures r == s + Indent(level)
  {
    r := s;
    var i := level;
    while i > 0
      invariant r + Indent(i) == s + Indent(level)
    {
      r := r + "  ";
      i := i - 1;
    }
  }

  /** The loop over the children. */
  method AppendChildren(s: string, children: seq<Tree>, level: nat) returns (r: string)
    ensures r == s + DumpAll(children, level)
    decreases children, 1
  {
    r := s;
    var i := 0;
    assert children[i..] == children;
    while i < |children|
      invariant 0 <= i <= |children|
      invariant r + DumpAll(children[i..], level) == s + DumpAll(children, level)
    {
      var d := DumpXml(children[i], level);
      assert children[i..][1..] == children[i + 1..];
      r := r + d;
      i := i + 1;
    }
    assert children[i..] == [];
  }

  method DumpXml(t: Tree, level: nat) returns (s: string)
    ensures s == Dump(t, level)
    decreases t, 0
  {
    s := AppendIndent("", level);
    assert s == Indent(level);
    if t.Text? {
      s := s + t.s + "\n";
    } else if t.List? {
      var children := t.Nodes();
      if |children| == 0 {
        s := s + "<" + t.Name() + "/>\n";
      } else {
        s := s + ("<" + t.Name() + ">") + "\n";
        s := AppendChildren(s, children, level + 1);
        s := AppendIndent(s, level);
        s := s + ("</" + t.Name() + ">") + "\n";
      }
    }
  }

  lemma PrintedList(name: string, ts: seq<Tree>, level: nat)
    requires ts != []
    ensures Dump(List([Text(name)] + ts), level) ==
      Indent(level) + ("<" + name + ">") + "\n" + DumpAll(ts, level + 1) + Indent(level) + ("</" + name + ">") + "\n"
  {
    assert ([Text(name)] + ts)[1..] == ts;
  }

  lemma PrintedLeaf(name: string, value: string, level: nat)
    ensures Dump(Leaf(name, value), level) ==
      Indent(level) + ("<" + name + ">") + "\n" + (Indent(level + 1) + value + "\n") +
      Indent(level) + ("</" + name + ">") + "\n"
  {
    assert [Text(name)] + [Text(value)] == [Text(name), Text(value)] && [Text(value)][1..] == [];
    assert DumpAll([Text(value)], level + 1) == Dump(Text(value), level + 1) + "";
    PrintedList(name, [Text(value)], level);
    assert Dump(Text(value), level + 1) == Indent(level + 1) + value + "\n";
    hide Dump, DumpAll, Indent;
  }

  /** The text of an empty node, and of a leaf. */
  lemma PrintedOut(name: string, value: string)
    ensures Dump(List([Text(name)]), 0) == "<" + name + "/>\n"
    ensures Dump(Leaf(name, value), 0) ==
      ("<" + name + ">") + "\n" + ("  " + value + "\n") + ("</" + name + ">") + "\n"
    ensures Dump(Leaf(name, value), 1) ==
      "  " + ("<" + name + ">") + "\n" + ("    " + value + "\n") + "  " + ("</" + name + ">") + "\n"
  {
    PrintedEmpty(name);
    assert Indent(0) == "" && Indent(1) == "  " && Indent(2) == "    ";
    hide Dump, Indent;
    PrintedLeaf(name, value, 0);
    PrintedLeaf(name, value, 1);
    Unindented("<" + name + ">", "  " + value + "\n", "</" + name + ">");
  }

  lemma PrintedEmpty(name: string)
    ensures Dump(List([Text(name)]), 0) == "<" + name + "/>\n"
  {
    assert Dump(List([Text(name)]), 0) == "" + "<" + name + "/>\n";
    assert "" + "<" == "<";
  }

  lemma Unindented(start: string, body: string, end: string)
    ensures "" + start + "\n" + body + "" + end + "\n" == start + "\n" + body + end + "\n"
  {
    assert "" + start == start;
    var s := start + "\n" + body;
    assert s + "" == s;
  }

  // ---------------------------------------------------------------- reading the text

  /** The text before the first '>' and the text after it. */
  function Until(s: string): (r: (string, string))
    ensures |r.1| <= |s|
  {
    if |s| == 0 then ("", "")
    else if s[0] == '>' then ("", s[1..])
    else
      var (tag, rest) := Until(s[1..]);
      ([s[0]] + tag, rest)
  }

  /** The events of a tag without attributes. */
  function TagEvents(tag: string): seq<Event> {
    if |tag| > 0 && tag[0] == '/' then [End]
    else if |tag| > 0 && tag[|tag| - 1] == '/' then [Start(tag[..|tag| - 1], []), End]
    else [Start(tag, [])]
  }

  function Pending(text: string): seq<Event> {
    if text == "" then [] else [Characters(text)]
  }

  /** The events of an attribute-free document; `text` is the character data collected so far, and
      all of it between two tags is delivered at once. */
  function Scan(s: string, text: string): seq<Event>
    decreases |s|
  {
    if |s| == 0 then Pending(text)
    else if s[0] != '<' then Scan(s[1..], text + [s[0]])
    else
      var (tag, rest) := Until(s[1..]);
      Pending(text) + (TagEvents(tag) + Scan(rest, ""))
  }

  // ---------------------------------------------------------------- what can be printed

  predicate Without(s: string, cs: set<char>) {
    forall i | 0 <= i < |s| :: s[i] !in cs
  }

  /** ASCII names of XML 1.0, section 2.3. */
  predicate IsNameStart(c: char) {
    'a' <= c <= 'z' || 'A' <= c <= 'Z' || c == '_' || c == ':'
  }

  predicate IsNameChar(c: char) {
    IsNameStart(c) || '0' <= c <= '9' || c == '-' || c == '.'
  }

  predicate ValidName(s: string) {
    s != "" && IsNameStart(s[0]) && forall i | 0 <= i < |s| :: IsNameChar(s[i])
  }

  /** Characters of XML 1.0, section 2.2; a carriage return would be read as a line feed. */
  predicate IsXmlChar(c: char) {
    c == '\t' || c == '\n' || (' ' <= c && c != '\U{FFFE}' && c != '\U{FFFF}')
  }

  predicate ValidText(s: string) {
    && s != "" && Trim(s) == s && Without(s, {'<', '>', '&'})
    && forall i | 0 <= i < |s| :: IsXmlChar(s[i])
  }

  predicate NoAdjacentTexts(ts: seq<Tree>) {
    forall i | 0 <= i < |ts| - 1 :: !(ts[i].Text? && ts[i + 1].Text?)
  }

  predicate Printable(t: Tree) {
    match t
    case Null => false
    case Text(s) => ValidText(s)
    case List(items) =>
      && |items| >= 1 && items[0].Text? && ValidName(items[0].s)
      && NoAdjacentTexts(items[1..])
      && forall i | 1 <= i < |items| :: Printable(items[i])
  }

  // ---------------------------------------------------------------- white space

  lemma {:induction false} TrimBlank(s: string)
    requires Blank(s)
    ensures Trim(s) == ""
  {
    if |s| > 0 {
      TrimBlank(s[1..]);
    }
  }

  lemma {:induction false} TrimAfter(x: string, b: string)
    requires x != "" && !IsSpace(x[0]) && !IsSpace(x[|x| - 1]) && Blank(b)
    ensures Trim(x + b) == x
    decreases |b|
  {
    if |b| > 0 {
      assert (x + b)[..|x + b| - 1] == x + b[..|b| - 1];
      TrimAfter(x, b[..|b| - 1]);
    } else {
      assert x + b == x;
    }
  }

  /** White space around a trimmed text is trimmed away. */
  lemma {:induction false} TrimPadded(a: string, x: string, b: string)
    requires Blank(a) && Blank(b) && x != "" && Trim(x) == x
    ensures Trim(a + x + b) == x
    decreases |a|
  {
    if |a| > 0 {
      assert (a + x + b)[1..] == a[1..] + x + b;
      TrimPadded(a[1..], x, b);
    } else {
      assert a + x + b == x + b;
      TrimAfter(x, b);
    }
  }

  lemma {:induction false} TrimTrailing(x: string, b: string)
    requires Blank(b)
    ensures Trim(x + b) == Trim(x)
    decreases |x|
  {
    if |x| == 0 {
      assert x + b == b;
      TrimBlank(b);
    } else if IsSpace(x[0]) {
      assert (x + b)[1..] == x[1..] + b;
      TrimTrailing(x[1..], b);
    } else {
      TrimRight(x, b);
    }
  }

  lemma {:induction false} TrimRight(x: string, b: string)
    requires x != "" && !IsSpace(x[0]) && Blank(b)
    ensures Trim(x + b) == Trim(x)
    decreases |b|
  {
    if |b| > 0 {
      assert (x + b)[..|x + b| - 1] == x + b[..|b| - 1];
      TrimRight(x, b[..|b| - 1]);
    } else {
      assert x + b == x;
    }
  }

  lemma {:induction false} IndentBlank(level: nat)
    ensures Blank(Indent(level)) && Without(Indent(level), {'<', '>', '&'})
  {
    if level > 0 {
      IndentBlank(level - 1);
    }
  }

  // ---------------------------------------------------------------- scanning what was printed

  lemma {:induction false} ScanText(x: string, s: string, text: string)
    requires Without(x, {'<', '>', '&'})
    ensures Scan(x + s, text) == Scan(s, text + x)
    decreases |x|
  {
    if |x| == 0 {
      assert x + s == s && text + x == text;
    } else {
      assert (x + s)[1..] == x[1..] + s;
      ScanText(x[1..], s, text + [x[0]]);
      assert text + [x[0]] + x[1..] == text + x;
    }
  }

  lemma {:induction false} UntilTag(tag: string, s: string)
    requires Without(tag, {'>'})
    ensures Until(tag + ">" + s) == (tag, s)
    decreases |tag|
  {
    if |tag| == 0 {
      assert tag + ">" + s == ">" + s;
    } else {
      assert (tag + ">" + s)[1..] == tag[1..] + ">" + s;
      UntilTag(tag[1..], s);
      assert [tag[0]] + tag[1..] == tag;
    }
  }

  lemma ScanTag(tag: string, s: string, text: string)
    requires Without(tag, {'>'})
    ensures Scan("<" + tag + ">" + s, text) == Pending(text) + (TagEvents(tag) + Scan(s, ""))
  {
    var d := "<" + tag + ">" + s;
    assert d[1..] == tag + ">" + s;
    UntilTag(tag, s);
  }

  // ---------------------------------------------------------------- running what was scanned

  /** Running es from s amounts to running fs from t. */
  ghost predicate Leads(s: State, es: seq<Event>, t: State, fs: seq<Event>) {
    Parses(t, fs) ==> Parses(s, es) && Run(s, es) == Run(t, fs)
  }

  predicate Open(s: State, text: string) {
    s.current.None? ==> Blank(text)
  }

  /** The state once the pending text has been delivered. */
  function Absorb(s: State, text: string): State
    requires Open(s, text)
  {
    if s.current.None? || Trim(text) == "" then s else AddValue(s, Text(Trim(text)))
  }

  lemma PendingLeads(s: State, text: string, es: seq<Event>)
    requires Open(s, text)
    ensures Leads(s, Pending(text) + es, Absorb(s, text), es)
  {
    if text == "" {
      assert Pending(text) + es == es;
    } else {
      if s.current.None? {
        TrimBlank(text);
      }
      assert ([Characters(text)] + es)[1..] == es;
    }
  }

  lemma EventLeads(s: State, e: Event, es: seq<Event>)
    requires Enabled(s, e)
    ensures Leads(s, [e] + es, Step(s, e), es)
  {
    assert ([e] + es)[1..] == es;
  }

  lemma TagLeads(s: State, text: string, tag: string, e: Event, rest: string)
    requires Open(s, text) && Without(tag, {'>'}) && TagEvents(tag) == [e] && !e.Characters?
    ensures Leads(s, Scan("<" + tag + ">" + rest, text), Step(Absorb(s, text), e), Scan(rest, ""))
  {
    ScanTag(tag, rest, text);
    PendingLeads(s, text, [e] + Scan(rest, ""));
    EventLeads(Absorb(s, text), e, Scan(rest, ""));
  }

  lemma StartWithoutAttrs(s: State, name: string)
    ensures Step(s, Start(name, [])) == PushList(s).(current := Some([Text(name)]))
  {
    assert [] + [Text(name)] == [Text(name)];
  }

  /** The effect of a whole element: open a list, fill it, close it. */
  function Closed(s: State, t: Tree): State
    requires t.List?
  {
    PopList(PushList(s).(current := Some(t.items)))
  }

  lemma TextLeads(s: State, text: string, x: string, level: nat, rest: string)
    requires s.current.Some? && ValidText(x) && Blank(text)
    ensures var pad := text + Indent(level) + x + "\n";
      && Scan(Dump(Text(x), level) + rest, text) == Scan(rest, pad)
      && Absorb(s, pad) == AddValue(Absorb(s, text), Text(x))
  {
    var pad := text + Indent(level) + x + "\n";
    IndentBlank(level);
    var d := Indent(level) + x + "\n";
    ScanText(d, rest, text);
    assert text + d == pad;
    assert pad == (text + Indent(level)) + x + "\n";
    TrimPadded(text + Indent(level), x, "\n");
    TrimBlank(text);
  }

  lemma OneByOne(d: Event, e: Event, es: seq<Event>)
    ensures [d, e] + es == [d] + ([e] + es)
  {
  }

  lemma ScanEmptyTag(n: string, rest: string, text: string)
    requires ValidName(n)
    ensures Scan("<" + (n + "/") + ">" + rest, text) ==
            Pending(text) + ([Start(n, [])] + ([End] + Scan(rest, "")))
  {
    var tag := n + "/";
    assert tag[..|tag| - 1] == n;
    ScanTag(tag, rest, text);
    OneByOne(Start(n, []), End, Scan(rest, ""));
  }

  lemma StartEndLeads(s: State, n: string, es: seq<Event>)
    ensures Leads(s, [Start(n, [])] + ([End] + es), Closed(s, List([Text(n)])), es)
  {
    StartWithoutAttrs(s, n);
    EventLeads(s, Start(n, []), [End] + es);
    EventLeads(Step(s, Start(n, [])), End, es);
  }

  /** Indentation after a text changes nothing once the text is trimmed. */
  lemma IndentedText(s: State, text: string, level: nat)
    requires Open(s, text)
    ensures Open(s, text + Indent(level)) && Absorb(s, text + Indent(level)) == Absorb(s, text)
  {
    IndentBlank(level);
    TrimTrailing(text, Indent(level));
  }

  lemma EmptyElementScan(text: string, t: Tree, level: nat, rest: string)
    requires Printable(t) && t.List? && |t.items| == 1
    ensures Scan(Dump(t, level) + rest, text) ==
      Pending(text + Indent(level)) + ([Start(t.Name(), [])] + ([End] + Scan(rest, "\n")))
  {
    hide IsNameStart, IsXmlChar;
    var n := t.Name();
    IndentBlank(level);
    var d := "<" + (n + "/") + ">" + ("\n" + rest);
    assert Dump(t, level) + rest == Indent(level) + d;
    hide Dump, Scan, Indent, Printable, IsNameChar;
    ScanText(Indent(level), d, text);
    ScanEmptyTag(n, "\n" + rest, text + Indent(level));
    ScanNewline(rest);
  }

  lemma EmptyElementLeads(s: State, text: string, t: Tree, level: nat, rest: string)
    requires Open(s, text) && Printable(t) && t.List? && |t.items| == 1
    ensures Leads(s, Scan(Dump(t, level) + rest, text), Closed(Absorb(s, text), t), Scan(rest, "\n"))
  {
    var n, u, es := t.Name(), text + Indent(level), Scan(rest, "\n");
    var fs := [Start(n, [])] + ([End] + es);
    assert t == List([Text(n)]) by {
      assert t.items == [Text(n)];
    }
    hide Scan, Dump, Indent, Open, Absorb, Closed, Leads, Pending;
    EmptyElementScan(text, t, level, rest);
    IndentedText(s, text, level);
    PendingLeads(s, u, fs);
    StartEndLeads(Absorb(s, text), n, es);
    LeadsOn(s, Pending(u) + fs, Absorb(s, text), fs, Closed(Absorb(s, text), t), es);
  }

  lemma {:induction false} ElementLeads(s: State, text: string, t: Tree, level: nat, rest: string)
    requires Open(s, text) && Printable(t) && t.List?
    ensures Leads(s, Scan(Dump(t, level) + rest, text), Closed(Absorb(s, text), t), Scan(rest, "\n"))
    decreases t, 1
  {
    if |t.items| == 1 {
      EmptyElementLeads(s, text, t, level, rest);
    } else {
      var n, kids := t.Name(), t.items[1..];
      var tail := Tail(n, level, rest);
      ChildrenOf(t);
      OpeningLeads(s, text, t, level, rest);
      hide Scan, Indent, Dump, DumpAll, Leads, Trim, Tail, Printable, ValidName, NoAdjacentTexts, Tree.Name, Open;
      var a := Absorb(s, text);
      var b := PushList(a).(current := Some([Text(n)]));
      NewlineIsBlank(b);
      BlankNewline();
      var c, left := ChildrenLead(b, "\n", kids, level + 1, tail);
      ClosingLeads(c, left, n, level, rest);
      hide Absorb;
      var es, inner := Scan(Dump(t, level) + rest, text), Scan(DumpAll(kids, level + 1) + tail, "\n");
      LeadsOn(s, es, b, inner, c, Scan(tail, left));
      LeadsOn(s, es, c, Scan(tail, left), PopList(Absorb(c, left)), Scan(rest, "\n"));
    }
  }

  lemma ChildrenOf(t: Tree)
    requires Printable(t) && t.List?
    ensures |t.items| > 0 && ValidName(t.Name()) && t.items == [Text(t.Name())] + t.items[1..]
    ensures var kids := t.items[1..];
      NoAdjacentTexts(kids) && forall i | 0 <= i < |kids| :: Printable(kids[i])
  {
    hide NoAdjacentTexts, ValidName;
  }

  lemma BlankNewline()
    ensures Blank("\n")
  {
  }

  lemma NewlineIsBlank(s: State)
    ensures Open(s, "\n") && Absorb(s, "\n") == s
  {
    TrimBlank("\n");
  }

  lemma Regroup(a: string, b: string, c: string, d: string, e: string, f: string, g: string, h: string)
    ensures a + b + c + d + e + f + g + h == a + (b + (c + (d + (e + (f + (g + h))))))
  {
    assert f + g + h == f + (g + h);
    assert a + b + c + d + e + f + g + h == a + b + c + d + e + (f + (g + h));
    assert a + b + c + d + e + (f + (g + h)) == a + b + c + (d + (e + (f + (g + h))));
    assert a + b + c + (d + (e + (f + (g + h)))) == a + (b + (c + (d + (e + (f + (g + h))))));
  }

  /** What follows the children of an element. */
  function Tail(n: string, level: nat, rest: string): string {
    Indent(level) + (("</" + n + ">") + ("\n" + rest))
  }

  /** The opening tag of an element with children. */
  lemma OpeningLeads(s: State, text: string, t: Tree, level: nat, rest: string)
    requires Open(s, text) && Printable(t) && t.List? && |t.items| > 1
    ensures Leads(s, Scan(Dump(t, level) + rest, text),
                  PushList(Absorb(s, text)).(current := Some([Text(t.Name())])),
                  Scan(DumpAll(t.items[1..], level + 1) + Tail(t.Name(), level, rest), "\n"))
  {
    var n, d := t.Name(), DumpAll(t.items[1..], level + 1);
    var inner := d + Tail(n, level, rest);
    Regroup(Indent(level), "<" + n + ">", "\n", d, Indent(level), "</" + n + ">", "\n", rest);
    TagAfterIndentLeads(s, text, n, Start(n, []), level, "\n" + inner);
    StartWithoutAttrs(Absorb(s, text), n);
    ScanNewline(inner);
  }

  lemma ScanNewline(rest: string)
    ensures Scan("\n" + rest, "") == Scan(rest, "\n")
  {
    ScanText("\n", rest, "");
    assert "" + "\n" == "\n";
  }

  lemma TagAfterIndentLeads(s: State, text: string, tag: string, e: Event, level: nat, rest: string)
    requires Open(s, text) && Without(tag, {'>'}) && TagEvents(tag) == [e] && !e.Characters?
    ensures Leads(s, Scan(Indent(level) + (("<" + tag + ">") + rest), text),
                  Step(Absorb(s, text), e), Scan(rest, ""))
  {
    IndentBlank(level);
    ScanText(Indent(level), ("<" + tag + ">") + rest, text);
    TrimTrailing(text, Indent(level));
    TagLeads(s, text + Indent(level), tag, e, rest);
  }

  lemma ClosingLeads(s: State, text: string, n: string, level: nat, rest: string)
    requires s.current.Some? && ValidName(n)
    ensures Leads(s, Scan(Tail(n, level, rest), text), PopList(Absorb(s, text)), Scan(rest, "\n"))
  {
    assert "</" + n + ">" == "<" + ("/" + n) + ">";
    TagAfterIndentLeads(s, text, "/" + n, End, level, "\n" + rest);
    ScanNewline(rest);
  }

  /** One child: its text stays pending, or its element is complete. */
  lemma {:induction false} ChildLeads(s: State, text: string, x: Tree, level: nat, rest: string)
      returns (t: State, left: string)
    requires s.current.Some? && Printable(x)
    requires x.Text? ==> Blank(text)
    ensures t.current.Some? && Absorb(t, left) == AddValue(Absorb(s, text), x)
    ensures Leads(s, Scan(Dump(x, level) + rest, text), t, Scan(rest, left))
    ensures !x.Text? ==> Blank(left)
    decreases x, 2
  {
    if x.Text? {
      TextLeads(s, text, x.s, level, rest);
      t, left := s, text + Indent(level) + x.s + "\n";
    } else {
      ElementLeads(s, text, x, level, rest);
      t, left := Closed(Absorb(s, text), x), "\n";
      assert PushList(Absorb(s, text)).stack[..|s.stack|] == s.stack;
      NewlineIsBlank(t);
    }
  }

  lemma LeadsOn(s: State, es: seq<Event>, t: State, fs: seq<Event>, u: State, gs: seq<Event>)
    requires Leads(s, es, t, fs) && Leads(t, fs, u, gs)
    ensures Leads(s, es, u, gs)
  {
  }

  function AddAll(s: State, ts: seq<Tree>): State
    requires s.current.Some?
  {
    s.(current := Some(s.current.value + ts))
  }

  lemma AddOneAndAll(s: State, ts: seq<Tree>)
    requires s.current.Some? && |ts| > 0
    ensures AddAll(AddValue(s, ts[0]), ts[1..]) == AddAll(s, ts)
  {
    assert s.current.value + [ts[0]] + ts[1..] == s.current.value + ts;
  }

  /** Children one after the other: the result is the state and the text pending after them. */
  lemma {:induction false} ChildrenLead(s: State, text: string, ts: seq<Tree>, level: nat, rest: string)
      returns (t: State, left: string)
    requires s.current.Some? && NoAdjacentTexts(ts) && forall i | 0 <= i < |ts| :: Printable(ts[i])
    requires |ts| > 0 && ts[0].Text? ==> Blank(text)
    ensures t.current.Some?
    ensures Leads(s, Scan(DumpAll(ts, level) + rest, text), t, Scan(rest, left))
    ensures Absorb(t, left) == AddAll(Absorb(s, text), ts)
    decreases ts, 3
  {
    if |ts| == 0 {
      t, left := s, text;
      assert DumpAll(ts, level) + rest == rest;
      assert Absorb(s, text).current.value + ts == Absorb(s, text).current.value;
    } else {
      var more := DumpAll(ts[1..], level) + rest;
      assert DumpAll(ts, level) + rest == Dump(ts[0], level) + more;
      var u, mid := ChildLeads(s, text, ts[0], level, more);
      assert forall i | 0 <= i < |ts[1..]| :: ts[1..][i] == ts[i + 1];
      t, left := ChildrenLead(u, mid, ts[1..], level, rest);
      LeadsOn(s, Scan(DumpAll(ts, level) + rest, text), u, Scan(more, mid), t, Scan(rest, left));
      AddOneAndAll(Absorb(s, text), ts);
    }
  }

  /** Every printable tree, printed at any indentation, is rebuilt by reading the text. */
  lemma RoundTrip(t: Tree, level: nat)
    requires Printable(t) && t.List?
    ensures var es := Scan(Dump(t, level), "");
      Parses(Initial(), es) && Run(Initial(), es) == State(None, [], t)
  {
    ElementLeads(Initial(), "", t, level, "");
    assert Dump(t, level) + "" == Dump(t, level);
    var u := Closed(Initial(), t);
    assert u == State(None, [], t);
    PendingLeads(u, "\n", []);
    NewlineIsBlank(u);
    assert Scan("", "\n") == Pending("\n") + [];
  }
}
