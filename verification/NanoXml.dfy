/** Building a tree from parse events with a stack of unfinished lists. */
module NanoXml {
  import opened AssocTree
  import opened Characters
  import opened Options

  /** An attribute; its prefix, if any, is not part of its local name. */
  datatype Attr = Attr(prefix: string, name: string, value: string)
  {
    function QualifiedName(): string {
      if prefix == "" then name else prefix + ":" + name
    }
  }

  datatype Event = Start(name: string, attrs: seq<Attr>) | End | Characters(text: string)

  /** `current` is the list being filled, if any; `stack` holds the lists around it. */
  datatype State = State(current: Option<seq<Tree>>, stack: seq<seq<Tree>>, root: Tree)

  function Initial(): State {
    State(None, [], Null)
  }

  function PushList(s: State): State {
    s.(stack := if s.current.Some? then s.stack + [s.current.value] else s.stack, current := Some([]))
  }

  function PopList(s: State): State {
    if s.current.None? then s
    else if |s.stack| > 0 then
      var n := |s.stack| - 1;
      s.(current := Some(s.stack[n] + [List(s.current.value)]), stack := s.stack[..n])
    else
      s.(current := None, root := List(s.current.value))
  }

  /** Appending to the current list; the source requires that there is one. */
  function AddValue(s: State, t: Tree): State
    requires s.current.Some?
  {
    s.(current := Some(s.current.value + [t]))
  }

  predicate Blank(s: string) {
    forall i | 0 <= i < |s| :: IsSpace(s[i])
  }

  /** Without leading and trailing white space. */
  function Trim(s: string): (t: string)
    ensures |t| <= |s|
  {
    if |s| > 0 && IsSpace(s[0]) then Trim(s[1..])
    else if |s| > 0 && IsSpace(s[|s| - 1]) then Trim(s[..|s| - 1])
    else s
  }

  function AttrTree(a: Attr): Tree {
    List([Text(a.name), Text(a.value)])
  }

  function AddAttrs(s: State, attrs: seq<Attr>): (t: State)
    requires s.current.Some?
    ensures t.current.Some?
  {
    if |attrs| == 0 then s
    else
      var n := |attrs| - 1;
      var t := AddAttrs(s, attrs[..n]);
      PopList(AddValue(AddValue(PushList(t), Text(attrs[n].name)), Text(attrs[n].value)))
  }

  /** Text outside any element is white space only in well-formed documents. */
  predicate Enabled(s: State, e: Event) {
    e.Characters? && s.current.None? ==> Trim(e.text) == ""
  }

  function Step(s: State, e: Event): State
    requires Enabled(s, e)
  {
    match e
    case Start(name, attrs) => AddAttrs(AddValue(PushList(s), Text(name)), attrs)
    case End => PopList(s)
    case Characters(text) => if Trim(text) != "" then AddValue(s, Text(Trim(text))) else s
  }

  predicate Parses(s: State, es: seq<Event>)
    decreases |es|
  {
    |es| == 0 || (Enabled(s, es[0]) && Parses(Step(s, es[0]), es[1..]))
  }

  function Run(s: State, es: seq<Event>): State
    requires Parses(s, es)
    decreases |es|
  {
    if |es| == 0 then s else Run(Step(s, es[0]), es[1..])
  }

  // ---------------------------------------------------------------- the recursive meaning

  datatype Xml = Element(name: string, attrs: seq<Attr>, content: seq<Xml>) | Chars(text: string)

  function Events(x: Xml): seq<Event>
    decreases x, 0
  {
    match x
    case Element(name, attrs, content) => [Start(name, attrs)] + AllEvents(content) + [End]
    case Chars(text) => [Characters(text)]
  }

  function AllEvents(xs: seq<Xml>): seq<Event>
    decreases xs, 1
  {
    if |xs| == 0 then [] else Events(xs[0]) + AllEvents(xs[1..])
  }

  function AttrTrees(attrs: seq<Attr>): seq<Tree> {
    seq(|attrs|, i requires 0 <= i < |attrs| => AttrTree(attrs[i]))
  }

  /** The trees an item of content contributes: none for white space, else one. */
  function Meaning(x: Xml): seq<Tree>
    decreases x, 0
  {
    match x
    case Element(name, attrs, content) => [List([Text(name)] + AttrTrees(attrs) + Meanings(content))]
    case Chars(text) => if Trim(text) == "" then [] else [Text(Trim(text))]
  }

  function Meanings(xs: seq<Xml>): seq<Tree>
    decreases xs, 1
  {
    if |xs| == 0 then [] else Meaning(xs[0]) + Meanings(xs[1..])
  }

  // ---------------------------------------------------------------- the machine computes it

  lemma {:induction false} RunConcat(s: State, es: seq<Event>, fs: seq<Event>)
    requires Parses(s, es)
    ensures Parses(s, es + fs) <==> Parses(Run(s, es), fs)
    ensures Parses(s, es + fs) ==> Run(s, es + fs) == Run(Run(s, es), fs)
    decreases |es|
  {
    if |es| == 0 {
      assert es + fs == fs;
    } else {
      assert (es + fs)[1..] == es[1..] + fs;
      RunConcat(Step(s, es[0]), es[1..], fs);
    }
  }

  lemma AddAttrEffect(s: State, a: Attr)
    requires s.current.Some?
    ensures PopList(AddValue(AddValue(PushList(s), Text(a.name)), Text(a.value))) ==
            AddValue(s, AttrTree(a))
  {
    var u := AddValue(AddValue(PushList(s), Text(a.name)), Text(a.value));
    assert u.current.value == [Text(a.name), Text(a.value)];
    assert u.stack[..|u.stack| - 1] == s.stack;
  }

  lemma {:induction false} AddAttrsEffect(s: State, attrs: seq<Attr>)
    requires s.current.Some?
    ensures AddAttrs(s, attrs) == s.(current := Some(s.current.value + AttrTrees(attrs)))
  {
    if |attrs| == 0 {
      assert s.current.value + AttrTrees(attrs) == s.current.value;
    } else {
      var n := |attrs| - 1;
      AddAttrsEffect(s, attrs[..n]);
      AddAttrEffect(AddAttrs(s, attrs[..n]), attrs[n]);
      assert AttrTrees(attrs) == AttrTrees(attrs[..n]) + [AttrTree(attrs[n])];
      assert s.current.value + AttrTrees(attrs) == s.current.value + AttrTrees(attrs[..n]) + [AttrTree(attrs[n])];
    }
  }

  /** Entering an element. */
  lemma StartEffect(s: State, name: string, attrs: seq<Attr>)
    ensures Step(s, Start(name, attrs)) ==
      PushList(s).(current := Some([Text(name)] + AttrTrees(attrs)))
  {
    AddAttrsEffect(AddValue(PushList(s), Text(name)), attrs);
    assert [] + [Text(name)] == [Text(name)];
  }

  /** Inside an element, an item of content appends its meaning and leaves the stack alone. */
  lemma {:induction false} ItemEffect(s: State, x: Xml)
    requires s.current.Some?
    ensures Parses(s, Events(x)) && Run(s, Events(x)) == s.(current := Some(s.current.value + Meaning(x)))
    decreases x, 2
  {
    match x
    case Chars(text) =>
      assert Events(x)[1..] == [];
      assert s.current.value + [] == s.current.value;
    case Element(name, attrs, content) =>
      ElementRuns(s, x);
      var u := Run(s, Events(x));
      assert PushList(s).stack[..|s.stack|] == s.stack;
  }

  lemma {:induction false} ContentEffect(s: State, xs: seq<Xml>)
    requires s.current.Some?
    ensures Parses(s, AllEvents(xs))
    ensures Run(s, AllEvents(xs)) == s.(current := Some(s.current.value + Meanings(xs)))
    decreases xs, 3
  {
    if |xs| == 0 {
      assert s.current.value + [] == s.current.value;
    } else {
      var es, fs := Events(xs[0]), AllEvents(xs[1..]);
      assert AllEvents(xs) == es + fs;
      assert Meanings(xs) == Meaning(xs[0]) + Meanings(xs[1..]);
      hide Events, AllEvents, Meaning, Meanings, Run, Parses;
      ItemEffect(s, xs[0]);
      var t := Run(s, es);
      ContentEffect(t, xs[1..]);
      RunConcat(s, es, fs);
      assert s.current.value + Meanings(xs) == (s.current.value + Meaning(xs[0])) + Meanings(xs[1..]);
    }
  }

  /** An element pushes a list, fills it with its meaning, and pops it. */
  lemma {:induction false} ElementRuns(s: State, x: Xml)
    requires x.Element?
    ensures Parses(s, Events(x))
    ensures Run(s, Events(x)) == PopList(PushList(s).(current := Some(Meaning(x)[0].items)))
    decreases x, 1
  {
    var start, body := [Start(x.name, x.attrs)], AllEvents(x.content);
    StartEffect(s, x.name, x.attrs);
    var t := Step(s, start[0]);
    assert start[1..] == [];
    ContentEffect(t, x.content);
    var u := Run(t, body);
    assert [End][1..] == [];
    RunConcat(t, body, [End]);
    RunConcat(s, start, body + [End]);
    assert Events(x) == start + (body + [End]);
    assert u.current.value == [Text(x.name)] + AttrTrees(x.attrs) + Meanings(x.content);
  }

  /** Parsing a whole document ends with an empty stack, no unfinished list, and the tree that the
      document means. */
  lemma DocumentParses(x: Xml)
    requires x.Element?
    ensures Parses(Initial(), Events(x))
    ensures Run(Initial(), Events(x)) == State(None, [], Meaning(x)[0])
  {
    ElementRuns(Initial(), x);
  }

  /** A document event by event: attributes come first, as name and value; text is trimmed, and left out
      if it is blank. */
  lemma WrittenOut(name: string, a: Attr, blank: string, leaf: string, text: string)
    requires Trim(blank) == "" && Trim(text) != ""
    ensures var es := [Start(name, [a]), Characters(blank), Start(leaf, []), Characters(text), End, End];
      && Parses(Initial(), es)
      && Run(Initial(), es) ==
           State(None, [], List([Text(name), List([Text(a.name), Text(a.value)]),
                                 List([Text(leaf), Text(Trim(text))])]))
  {
    hide Trim;
    var inner := Element(leaf, [], [Chars(text)]);
    var content := [Chars(blank), inner];
    var x := Element(name, [a], content);
    LeafMeaning(Attr("", leaf, text));
    EventsOfOne(Chars(text));
    EventsOfOne(inner);
    assert content[1..] == [inner];
    assert Events(inner) == [Start(leaf, []), Characters(text), End];
    assert AllEvents(content) == Events(Chars(blank)) + AllEvents([inner]);
    assert Events(x) == [Start(name, [a])] + AllEvents(content) + [End];
    assert Meanings(content) == [] + (Meaning(inner) + []);
    assert AttrTrees([a]) == [AttrTree(a)];
    DocumentParses(x);
    assert [Text(leaf)] + Meaning(Chars(text)) == [Text(leaf), Text(Trim(text))];
    assert Meaning(x)[0].items == [Text(name), AttrTree(a), List([Text(leaf), Text(Trim(text))])];
    assert Events(x) == [Start(name, [a]), Characters(blank), Start(leaf, []), Characters(text), End, End];
  }

  lemma EventsOfOne(x: Xml)
    ensures AllEvents([x]) == Events(x) && Meanings([x]) == Meaning(x)
  {
    assert [x][1..] == [];
  }

  lemma LeafMeaning(a: Attr)
    ensures Meaning(Element(a.QualifiedName(), [], [Chars(a.value)])) ==
            [List([Text(a.QualifiedName())] + Meaning(Chars(a.value)))]
  {
    var content := [Chars(a.value)];
    assert Meanings(content[1..]) == [];
    assert Meanings(content) == Meaning(Chars(a.value)) + [];
    var n := a.QualifiedName();
    assert [Text(n)] + AttrTrees([]) + Meanings(content) == [Text(n)] + Meaning(Chars(a.value));
  }

  /** A leaf may be written as the last attribute or as an element before all other content: the
      trees agree if and only if the value is not changed by trimming and not empty, and the name has
      no prefix, which only elements keep. */
  lemma AttributeOrElement(name: string, attrs: seq<Attr>, a: Attr, content: seq<Xml>)
    ensures Meaning(Element(name, attrs + [a], content)) ==
            Meaning(Element(name, attrs, [Element(a.QualifiedName(), [], [Chars(a.value)])] + content))
      <==> Trim(a.value) == a.value && a.value != "" && a.prefix == ""
  {
    var leaf := Element(a.QualifiedName(), [], [Chars(a.value)]);
    assert a.QualifiedName() == a.name <==> a.prefix == "";
    LeafMeaning(a);
    assert ([leaf] + content)[1..] == content;
    assert Meanings([leaf] + content) == Meaning(leaf) + Meanings(content);
    assert AttrTrees(attrs + [a]) == AttrTrees(attrs) + [AttrTree(a)];
    var before, after := [Text(name)] + AttrTrees(attrs), Meanings(content);
    var l := before + [AttrTree(a)] + after;
    var r := before + Meaning(leaf) + after;
    assert Meaning(Element(name, attrs + [a], content)) == [List(l)] by {
      assert [Text(name)] + AttrTrees(attrs + [a]) + after == l;
    }
    assert Meaning(Element(name, attrs, [leaf] + content)) == [List(r)] by {
      assert before + Meanings([leaf] + content) == r;
    }
    var x, y := AttrTree(a).items, [Text(a.QualifiedName())] + Meaning(Chars(a.value));
    assert l[|before|] == List(x) && r[|before|] == List(y);
    if a.prefix != "" {
      assert x[0] != y[0];
    } else if Trim(a.value) == a.value && a.value != "" {
      assert x == y;
    } else if Trim(a.value) == "" {
      assert |x| == 2 && |y| == 1;
    } else {
      assert x[1] == Text(a.value) && y[1] == Text(Trim(a.value));
    }
  }
}
