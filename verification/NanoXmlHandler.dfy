/** The parser's callbacks as methods of one object. */
module NanoXmlHandler {
  import opened AssocTree
  import N = NanoXml
  import opened Options

  class NanoXml {
    var current: Option<seq<Tree>>
    var stack: seq<seq<Tree>>
    var rootVariant: Tree

    function View(): N.State
      reads this
    {
      N.State(current, stack, rootVariant)
    }

    constructor ()
      ensures View() == N.Initial()
    {
      current, stack, rootVariant := None, [], Null;
    }

    method AddValue(v: string)
      requires current.Some?
      modifies this
      ensures View() == N.AddValue(old(View()), Text(v))
    {
      current := Some(current.value + [Text(v)]);
    }

    method PushList()
      modifies this
      ensures View() == N.PushList(old(View()))
    {
      if current.Some? {
        stack := stack + [current.value];
      }
      current := Some([]);
    }

    method PopList()
      modifies this
      ensures View() == N.PopList(old(View()))
    {
      if current.None? {
        return;
      }
      var closed := List(current.value);
      if |stack| > 0 {
        current := Some(stack[|stack| - 1] + [closed]);
        stack := stack[..|stack| - 1];
      } else {
        current := None;
        rootVariant := closed;
      }
    }

    method StartElement(name: string, attrs: seq<N.Attr>)
      modifies this
      ensures View() == N.Step(old(View()), N.Start(name, attrs))
    {
      PushList();
      AddValue(name);
      ghost var begun := View();
      var i := 0;
      while i < |attrs|
        invariant 0 <= i <= |attrs|
        invariant View() == N.AddAttrs(begun, attrs[..i])
      {
        assert attrs[..i + 1][..i] == attrs[..i];
        PushList();
        AddValue(attrs[i].name);
        AddValue(attrs[i].value);
        PopList();
        i := i + 1;
      }
      assert attrs[..i] == attrs;
    }

    method EndElement()
      modifies this
      ensures View() == N.Step(old(View()), N.End)
    {
      PopList();
    }

    method Characters(chars: string)
      requires N.Enabled(View(), N.Characters(chars))
      modifies this
      ensures View() == N.Step(old(View()), N.Characters(chars))
    {
      var trimmed := N.Trim(chars);
      if trimmed != "" {
        AddValue(trimmed);
      }
    }

    /** Feeding a well-formed document from a new handler leaves its tree in `rootVariant`. */
    method Parse(x: N.Xml, events: seq<N.Event>)
      requires x.Element? && events == N.Events(x) && View() == N.Initial()
      modifies this
      ensures View() == N.State(None, [], N.Meaning(x)[0])
    {
      N.DocumentParses(x);
      var i := 0;
      while i < |events|
        invariant 0 <= i <= |events|
        invariant N.Parses(View(), events[i..])
        invariant N.Run(View(), events[i..]) == N.Run(N.Initial(), events)
      {
        assert events[i..][1..] == events[i + 1..];
        match events[i] {
          case Start(name, attrs) => StartElement(name, attrs);
          case End => EndElement();
          case Characters(text) => Characters(text);
        }
        i := i + 1;
      }
    }
  }
}
