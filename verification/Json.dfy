/** The JSON text of a message: an emitter with a stack of flags, against a recursive printer of the same tree. */
module Json {
  import opened Schema
  import opened MessageSpec
  import opened Texts

  datatype Kind = Object | Array

  function Opening(kind: Kind): string { if kind == Object then "{" else "[" }

  function Closing(kind: Kind): string { if kind == Object then "}" else "]" }

  function Indent(depth: nat): string {
    if depth == 0 then "" else Indent(depth - 1) + "  "
  }

  function Named(name: string): string { "\"" + name + "\" :" }

  function Quoted(text: string): string { "\"" + text + "\"" }

  // ---------------------------------------------------------------- the tree and its printer

  datatype Node =
    | Leaf(name: string, text: string)
    | Element(text: string)
    | Group(name: string, kind: Kind, members: seq<Node>)

  /** One line of its own, at its depth. */
  function Member(t: Node, depth: nat): string
    decreases t, 1
  {
    "\n" + Indent(depth) + Body(t, depth)
  }

  function Body(t: Node, depth: nat): string
    decreases t, 0
  {
    match t
    case Leaf(name, text) => Named(name) + " " + text
    case Element(text) => Quoted(text)
    case Group(name, kind, members) =>
      Named(name) + "\n" + Indent(depth) + Opening(kind) + Members(members, depth + 1)
      + "\n" + Indent(depth) + Closing(kind)
  }

  /** The members of a group, a comma between each two. */
  function Members(ts: seq<Node>, depth: nat): string {
    if ts == [] then ""
    else if |ts| == 1 then Member(ts[0], depth)
    else Member(ts[0], depth) + "," + Members(ts[1..], depth)
  }

  /** An outermost object. */
  function Document(ts: seq<Node>): string { "{" + Members(ts, 1) + "\n}" }

  // ---------------------------------------------------------------- the emitter as a transition system

  datatype Call =
    | Value(name: string, text: string)
    | Item(text: string)
    | Start(name: string, kind: Kind)
    | End(kind: Kind)

  datatype Output = Output(result: string, firsts: seq<bool>, first: bool)

  function Line(st: Output, text: string): Output {
    Output(st.result + (if st.first then "" else ",") + "\n" + Indent(|st.firsts|) + text, st.firsts, false)
  }

  function Begin(st: Output, kind: Kind): Output {
    Output(st.result + Indent(|st.firsts|) + Opening(kind), st.firsts + [st.first], true)
  }

  function Finish(st: Output, kind: Kind): Output
    requires st.firsts != []
  {
    var below := st.firsts[..|st.firsts| - 1];
    Output(st.result + "\n" + Indent(|below|) + Closing(kind), below, st.firsts[|below|])
  }

  /** A close on an empty stack, undefined in the source, is left without effect. */
  function Step(st: Output, c: Call): Output {
    match c
    case Value(name, text) => Line(st, Named(name) + " " + text)
    case Item(text) => Line(st, Quoted(text))
    case Start(name, kind) => Begin(Line(st, Named(name) + "\n"), kind)
    case End(kind) => if st.firsts == [] then st else Finish(st, kind)
  }

  function Run(st: Output, cs: seq<Call>): Output
    decreases |cs|
  {
    if cs == [] then st else Run(Step(st, cs[0]), cs[1..])
  }

  /** Every close meets the innermost open group, of its own kind, and all groups in `open` and in `cs` are closed. */
  predicate Balanced(cs: seq<Call>, open: seq<Kind>) {
    if cs == [] then open == []
    else match cs[0]
      case Start(_, kind) => Balanced(cs[1..], open + [kind])
      case End(kind) => open != [] && open[|open| - 1] == kind && Balanced(cs[1..], open[..|open| - 1])
      case _ => Balanced(cs[1..], open)
  }

  // ---------------------------------------------------------------- trees and balanced runs are the same thing

  function Calls(t: Node): seq<Call>
    decreases t, 0
  {
    match t
    case Leaf(name, text) => [Value(name, text)]
    case Element(text) => [Item(text)]
    case Group(name, kind, members) => [Start(name, kind)] + CallsOf(members) + [End(kind)]
  }

  function CallsOf(ts: seq<Node>): seq<Call> {
    if ts == [] then [] else Calls(ts[0]) + CallsOf(ts[1..])
  }

  /** The nodes up to the first close that closes nothing opened in `cs`, and what follows them. */
  function Forest(cs: seq<Call>): (r: (seq<Node>, seq<Call>))
    ensures |r.1| <= |cs|
    decreases |cs|
  {
    if cs == [] then ([], [])
    else match cs[0]
      case End(_) => ([], cs)
      case Value(name, text) =>
        var after := Forest(cs[1..]);
        ([Leaf(name, text)] + after.0, after.1)
      case Item(text) =>
        var after := Forest(cs[1..]);
        ([Element(text)] + after.0, after.1)
      case Start(name, kind) =>
        var inner := Forest(cs[1..]);
        var after := Forest(if inner.1 == [] then [] else inner.1[1..]);
        ([Group(name, kind, inner.0)] + after.0, after.1)
  }

  /** A balanced run spells out its forest, up to a close of a group that was open before it. */
  lemma {:induction false} ForestSpells(cs: seq<Call>, open: seq<Kind>)
    requires Balanced(cs, open)
    ensures var r := Forest(cs);
            && cs == CallsOf(r.0) + r.1 && Balanced(r.1, open)
            && (if open == [] then r.1 == [] else r.1 != [] && r.1[0] == End(open[|open| - 1]))
    decreases |cs|
  {
    if cs != [] {
      match cs[0]
      case End(_) =>
      case Start(name, kind) =>
        ForestSpells(cs[1..], open + [kind]);
        var inner := Forest(cs[1..]);
        assert (open + [kind])[..|open|] == open;
        ForestSpells(inner.1[1..], open);
        var after := Forest(inner.1[1..]);
        SpellGroup(name, kind, inner.0, after.0, after.1, cs, inner.1);
      case _ =>
        ForestSpells(cs[1..], open);
        SpellLeaf(cs);
    }
  }

  lemma SpellLeaf(cs: seq<Call>)
    requires cs != [] && (cs[0].Value? || cs[0].Item?)
    requires cs[1..] == CallsOf(Forest(cs[1..]).0) + Forest(cs[1..]).1
    ensures cs == CallsOf(Forest(cs).0) + Forest(cs).1
  {
    hide Forest, CallsOf;
    var after := Forest(cs[1..]);
    ForestLeaf(cs);
    CallsCons(LeafOf(cs[0]), after.0);
    assert cs == [cs[0]] + cs[1..];
  }

  function LeafOf(c: Call): Node
    requires c.Value? || c.Item?
  {
    if c.Value? then Leaf(c.name, c.text) else Element(c.text)
  }

  lemma ForestLeaf(cs: seq<Call>)
    requires cs != [] && (cs[0].Value? || cs[0].Item?)
    ensures Forest(cs) == ([LeafOf(cs[0])] + Forest(cs[1..]).0, Forest(cs[1..]).1)
    ensures Calls(LeafOf(cs[0])) == [cs[0]]
  {
  }

  lemma ForestGroup(cs: seq<Call>)
    requires cs != [] && cs[0].Start? && Forest(cs[1..]).1 != []
    ensures var inner := Forest(cs[1..]);
            var after := Forest(inner.1[1..]);
            Forest(cs) == ([Group(cs[0].name, cs[0].kind, inner.0)] + after.0, after.1)
  {
  }

  lemma CallsCons(t: Node, ts: seq<Node>)
    ensures CallsOf([t] + ts) == Calls(t) + CallsOf(ts)
  {
    assert ([t] + ts)[1..] == ts;
  }

  lemma BalancedGroup(name: string, kind: Kind, cs: seq<Call>, open: seq<Kind>)
    ensures Balanced([Start(name, kind)] + cs, open) == Balanced(cs, open + [kind])
    ensures Balanced([End(kind)] + cs, open + [kind]) == Balanced(cs, open)
  {
    assert ([Start(name, kind)] + cs)[1..] == cs && ([End(kind)] + cs)[1..] == cs;
    assert (open + [kind])[..|open|] == open;
  }

  lemma SpellGroup(
    name: string, kind: Kind, inner: seq<Node>, after: seq<Node>, rest: seq<Call>, cs: seq<Call>, closing: seq<Call>)
    requires cs != [] && cs[0] == Start(name, kind) && cs[1..] == CallsOf(inner) + closing
    requires closing != [] && closing[0] == End(kind) && closing[1..] == CallsOf(after) + rest
    ensures cs == CallsOf([Group(name, kind, inner)] + after) + rest
  {
    var t := Group(name, kind, inner);
    var ts := [t] + after;
    assert ts[0] == t && ts[1..] == after;
    assert CallsOf(ts) == Calls(t) + CallsOf(after);
    var a, b, c := CallsOf(inner), CallsOf(after), rest;
    assert closing == [End(kind)] + (b + c);
    assert cs == [Start(name, kind)] + (a + ([End(kind)] + (b + c)));
    assert [Start(name, kind)] + (a + ([End(kind)] + (b + c))) == [Start(name, kind)] + a + [End(kind)] + b + c;
  }

  /** The calls of a forest are balanced and give that forest back. */
  lemma {:induction false} CallsAreBalanced(ts: seq<Node>, cs: seq<Call>, open: seq<Kind>)
    requires Balanced(cs, open) && (cs == [] || cs[0].End?)
    ensures Balanced(CallsOf(ts) + cs, open) && Forest(CallsOf(ts) + cs) == (ts, cs)
    decreases ts
  {
    if ts == [] {
      assert CallsOf(ts) + cs == cs;
    } else {
      var t, rest := ts[0], CallsOf(ts[1..]) + cs;
      CallsAreBalanced(ts[1..], cs, open);
      assert [t] + ts[1..] == ts;
      if t.Group? {
        hide Forest, Balanced, CallsOf;
        var closing := [End(t.kind)] + rest;
        BalancedGroup(t.name, t.kind, rest, open);
        CallsAreBalanced(t.members, closing, open + [t.kind]);
        var inner := CallsOf(t.members) + closing;
        var spelt := [Start(t.name, t.kind)] + inner;
        assert spelt[1..] == inner && closing[1..] == rest;
        SpellGroup(t.name, t.kind, t.members, ts[1..], cs, spelt, closing);
        BalancedGroup(t.name, t.kind, inner, open);
        ForestGroup(spelt);
      } else {
        var all := CallsOf(ts) + cs;
        assert all == Calls(t) + rest;
        assert all[1..] == rest;
      }
    }
  }

  // ---------------------------------------------------------------- the emitter prints the tree

  /** What emitting `ts` adds in state `st`. */
  function Emitted(st: Output, ts: seq<Node>): Output {
    if ts == [] then st
    else Output(st.result + (if st.first then "" else ",") + Members(ts, |st.firsts|), st.firsts, false)
  }

  lemma RunOne(st: Output, c: Call)
    ensures Run(st, [c]) == Step(st, c)
  {
    assert [c][1..] == [];
    assert Run(Step(st, c), []) == Step(st, c);
  }

  lemma {:induction false} RunAppend(st: Output, a: seq<Call>, b: seq<Call>)
    ensures Run(st, a + b) == Run(Run(st, a), b)
    decreases |a|
  {
    if a == [] {
      assert a + b == b;
    } else {
      assert (a + b)[1..] == a[1..] + b;
      RunAppend(Step(st, a[0]), a[1..], b);
    }
  }

  /** Emitting member by member prints them with the separators between. */
  lemma EmittedNext(st: Output, t: Node, ts: seq<Node>)
    ensures Emitted(Emitted(st, [t]), ts) == Emitted(st, [t] + ts)
  {
    hide Member, Indent;
    assert ([t] + ts)[1..] == ts && ([t] + ts)[0] == t;
    var pre, m := st.result + (if st.first then "" else ","), Member(t, |st.firsts|);
    assert Members([t], |st.firsts|) == m;
    if ts != [] {
      var rest := Members(ts, |st.firsts|);
      assert pre + m + "," + rest == pre + (m + "," + rest);
    } else {
      assert [t] + ts == [t];
    }
  }

  /** Opening a group, printing its members and closing it prints the group and restores the stack. */
  lemma GroupPrinted(st: Output, name: string, kind: Kind, members: seq<Node>)
    ensures Step(Emitted(Step(st, Start(name, kind)), members), End(kind)) == Emitted(st, [Group(name, kind, members)])
  {
    hide Indent, Named, Opening, Closing;
    var d := |st.firsts|;
    var t := Group(name, kind, members);
    var s1 := Step(st, Start(name, kind));
    var s2 := Emitted(s1, members);
    var s3 := Step(s2, End(kind));
    var pre := st.result + (if st.first then "" else ",");
    assert s1.firsts == st.firsts + [false] && s1.first;
    assert s3.firsts == st.firsts;
    var nl, i, n, o, c, ms := "\n", Indent(d), Named(name), Opening(kind), Closing(kind), Members(members, d + 1);
    assert s1.result == pre + nl + i + (n + nl) + i + o;
    assert s2.result == s1.result + ms by {
      if members == [] { assert ms == ""; assert s1.result + "" == s1.result; }
      assert s1.result + "" == s1.result;
    }
    assert s3.result == s2.result + nl + i + c;
    Regroup(pre, nl, i, n, o, ms, c);
    assert Members([t], d) == Member(t, d) == nl + i + (n + nl + i + o + ms + nl + i + c);
  }

  lemma Regroup(pre: string, nl: string, i: string, n: string, o: string, ms: string, c: string)
    ensures pre + nl + i + (n + nl) + i + o + ms + nl + i + c == pre + (nl + i + (n + nl + i + o + ms + nl + i + c))
  {
    assert pre + nl + i + (n + nl) == pre + (nl + i + (n + nl));
    assert pre + (nl + i + (n + nl)) + i == pre + (nl + i + (n + nl + i));
    assert pre + (nl + i + (n + nl + i)) + o == pre + (nl + i + (n + nl + i + o));
    assert pre + (nl + i + (n + nl + i + o)) + ms == pre + (nl + i + (n + nl + i + o + ms));
    assert pre + (nl + i + (n + nl + i + o + ms)) + nl == pre + (nl + i + (n + nl + i + o + ms + nl));
    assert pre + (nl + i + (n + nl + i + o + ms + nl)) + i == pre + (nl + i + (n + nl + i + o + ms + nl + i));
    assert pre + (nl + i + (n + nl + i + o + ms + nl + i)) + c == pre + (nl + i + (n + nl + i + o + ms + nl + i + c));
  }

  lemma LinePrinted(st: Output, t: Node)
    requires !t.Group?
    ensures Step(st, Calls(t)[0]) == Emitted(st, [t])
  {
    hide Indent, Named, Quoted;
    var d := |st.firsts|;
    var pre := st.result + (if st.first then "" else ",");
    assert Members([t], d) == "\n" + Indent(d) + Body(t, d);
    assert pre + "\n" + Indent(d) + Body(t, d) == pre + ("\n" + Indent(d) + Body(t, d));
  }

  /** The calls of a forest print it. */
  lemma {:induction false} ForestPrinted(st: Output, ts: seq<Node>)
    ensures Run(st, CallsOf(ts)) == Emitted(st, ts)
    decreases ts
  {
    hide Step, Emitted;
    if ts == [] {
      NothingPrinted(st);
    } else {
      var t := ts[0];
      RunAppend(st, Calls(t), CallsOf(ts[1..]));
      if t.Group? {
        var open, inner := [Start(t.name, t.kind)], CallsOf(t.members);
        RunAppend(st, open + inner, [End(t.kind)]);
        RunAppend(st, open, inner);
        RunOne(st, open[0]);
        ForestPrinted(Step(st, open[0]), t.members);
        RunOne(Emitted(Step(st, open[0]), t.members), End(t.kind));
        GroupPrinted(st, t.name, t.kind, t.members);
      } else {
        RunOne(st, Calls(t)[0]);
        LinePrinted(st, t);
      }
      ForestPrinted(Emitted(st, [t]), ts[1..]);
      EmittedNext(st, t, ts[1..]);
      assert [t] + ts[1..] == ts;
    }
  }

  lemma NothingPrinted(st: Output)
    ensures Emitted(st, []) == st
  {
  }

  /** Every balanced run appends the text that the recursive printer gives for its tree, and restores the stack. */
  lemma EveryBalancedRun(st: Output, cs: seq<Call>)
    requires Balanced(cs, [])
    ensures CallsOf(Forest(cs).0) == cs
    ensures cs != [] ==> Run(st, cs).result
                         == st.result + (if st.first then "" else ",") + Members(Forest(cs).0, |st.firsts|)
    ensures Run(st, cs).firsts == st.firsts && Run(st, cs).first == (st.first && cs == [])
  {
    hide Run, Forest;
    ForestSpells(cs, []);
    var ts := Forest(cs).0;
    assert CallsOf(ts) + [] == CallsOf(ts);
    ForestPrinted(st, ts);
    CallsNonempty(ts);
  }

  lemma CallsNonempty(ts: seq<Node>)
    ensures ts == [] <==> CallsOf(ts) == []
  {
  }

  // ---------------------------------------------------------------- the emitter object

  class Emitter {
    var result: string
    var firsts: seq<bool>
    var first: bool

    ghost function View(): Output
      reads this
    {
      Output(result, firsts, first)
    }

    constructor ()
      ensures View() == Output("", [], false)
    {
      result, firsts, first := "", [], false;
    }

    method Close()
      modifies this
      ensures View() == Output(old(result) + (if old(first) then "" else ",") + "\n", old(firsts), false)
    {
      if !first {
        result := result + ",";
      }
      result := result + "\n";
      first := false;
    }

    method AppendIndent()
      modifies this`result
      ensures result == old(result) + Indent(|firsts|)
    {
      for i := 0 to |firsts|
        invariant result == old(result) + Indent(i)
      {
        result := result + "  ";
        assert old(result) + Indent(i) + "  " == old(result) + (Indent(i) + "  ");
      }
    }

    method StartName(name: string, end: string)
      modifies this
      ensures View() == Line(old(View()), Named(name) + end)
    {
      hide Indent;
      Close();
      AppendIndent();
      ghost var r := result;
      result := result + "\"";
      result := result + name;
      result := result + "\" :";
      result := result + end;
      assert result == r + (Named(name) + end);
    }

    /** startObject and startArray. */
    method StartGroup(kind: Kind)
      modifies this
      ensures View() == Begin(old(View()), kind)
    {
      AppendIndent();
      result := result + Opening(kind);
      firsts := firsts + [first];
      first := true;
    }

    /** closeObject and closeArray. */
    method CloseGroup(kind: Kind)
      requires firsts != []
      modifies this
      ensures View() == Finish(old(View()), kind)
    {
      result := result + "\n";
      first := firsts[|firsts| - 1];
      firsts := firsts[..|firsts| - 1];
      AppendIndent();
      result := result + Closing(kind);
    }

    /** procObject and procArray. */
    method ProcGroup(name: string, kind: Kind)
      modifies this
      ensures View() == Step(old(View()), Start(name, kind))
    {
      StartName(name, "\n");
      StartGroup(kind);
    }

    method ProcValue(name: string, text: string)
      modifies this
      ensures View() == Step(old(View()), Value(name, text))
    {
      hide Indent;
      ghost var st := View();
      StartName(name, " ");
      ghost var pre := st.result + (if st.first then "" else ",") + "\n" + Indent(|st.firsts|);
      result := result + text;
      assert pre + (Named(name) + " ") + text == pre + (Named(name) + " " + text);
    }

    method ProcString(name: string, text: string)
      modifies this
      ensures View() == Step(old(View()), Value(name, Quoted(text)))
    {
      hide Indent;
      ghost var st := View();
      StartName(name, " \"");
      ghost var pre := st.result + (if st.first then "" else ",") + "\n" + Indent(|st.firsts|);
      result := result + text;
      result := result + "\"";
      assert pre + (Named(name) + " \"") + text + "\"" == pre + (Named(name) + " " + Quoted(text));
    }

    /** procValue of a clock identity without a name. */
    method ProcItem(text: string)
      modifies this
      ensures View() == Step(old(View()), Item(text))
    {
      hide Indent;
      Close();
      AppendIndent();
      ghost var r := result;
      result := result + "\"";
      result := result + text;
      result := result + "\"";
      assert result == r + Quoted(text);
    }

    /** The walkers of the management data call the emitter once for each node. */
    method ProcAll(ts: seq<Node>)
      modifies this
      ensures View() == Emitted(old(View()), ts)
      decreases ts
    {
      hide Emitted, Step;
      ghost var st := View();
      NothingPrinted(st);
      if ts != [] {
        var t := ts[0];
        match t {
          case Leaf(name, text) =>
            ProcValue(name, text);
            LinePrinted(st, t);
          case Element(text) =>
            ProcItem(text);
            LinePrinted(st, t);
          case Group(name, kind, members) =>
            ProcGroup(name, kind);
            ghost var inside := View();
            ProcAll(members);
            EmittedDepth(st, name, kind, members);
            CloseGroup(kind);
            GroupPrinted(st, name, kind, members);
            EndIsFinish(Emitted(inside, members), kind);
        }
        ProcAll(ts[1..]);
        EmittedNext(st, t, ts[1..]);
        assert [t] + ts[1..] == ts;
      }
    }
  }

  lemma EmittedDepth(st: Output, name: string, kind: Kind, members: seq<Node>)
    ensures Emitted(Step(st, Start(name, kind)), members).firsts == st.firsts + [false]
  {
  }

  lemma EndIsFinish(st: Output, kind: Kind)
    requires st.firsts != []
    ensures Step(st, End(kind)) == Finish(st, kind)
  {
  }

  // ---------------------------------------------------------------- the document of a message

  datatype Content =
    | Data(data: Option<seq<Node>>)
    | ErrorStatus(errorId: string, display: string)

  /** Enumerated values are given by their names. */
  datatype Report =
    | Report(
        sequenceId: nat, sdoId: nat, domainNumber: nat, versionPTP: nat, minorVersionPTP: nat, peer: PortId,
        management: Option<Management>)

  datatype Management = Management(action: string, tlvType: string, id: string, content: Content)

  function Text(name: string, text: string): Node { Leaf(name, Quoted(text)) }

  function Count(name: string, n: nat): Node { Leaf(name, Decimal(n)) }

  function PortNode(name: string, p: PortId): Node {
    Group(name, Object, [Text("clockIdentity", ClockText(p.clock)), Count("portNumber", p.port)])
  }

  /** A signaling message is called unsupported as well. */
  function HeaderNodes(m: Report): seq<Node> {
    [Count("sequenceId", m.sequenceId), Count("sdoId", m.sdoId), Count("domainNumber", m.domainNumber),
     Count("versionPTP", m.versionPTP), Count("minorVersionPTP", m.minorVersionPTP),
     Text("messageType", if m.management.Some? then "Management" else "Unsupported"),
     PortNode("sourcePortIdentity", m.peer)]
  }

  function ManagementNodes(m: Management): seq<Node> {
    [Text("actionField", m.action), Text("tlvType", m.tlvType), Text("managementId", m.id)]
    + match m.content
      case Data(None) => []
      case Data(Some(nodes)) => [Group("dataField", Object, nodes)]
      case ErrorStatus(errorId, display) => [Text("managementErrorId", errorId), Text("displayData", display)]
  }

  function ReportNodes(m: Report): seq<Node> {
    HeaderNodes(m) + if m.management.Some? then ManagementNodes(m.management.value) else []
  }

  lemma WholeDocument(ts: seq<Node>)
    requires ts != []
    ensures var inside := Emitted(Begin(Output("", [], false), Object), ts);
            && inside.firsts == [false] && !inside.first
            && Finish(inside, Object) == Output(Document(ts), [], false)
  {
    hide Members;
    assert Indent(0) == "";
    var inside := Emitted(Begin(Output("", [], false), Object), ts);
    assert inside.result == "{" + Members(ts, 1);
    assert "{" + Members(ts, 1) + "\n" + "" + "}" == Document(ts);
  }

  lemma {:induction false} EmittedMore(st: Output, a: seq<Node>, b: seq<Node>)
    ensures Emitted(Emitted(st, a), b) == Emitted(st, a + b)
    decreases |a|
  {
    hide Emitted;
    NothingPrinted(st);
    if a == [] {
      assert a + b == b;
    } else {
      var t, rest := a[0], a[1..];
      assert [t] + rest == a && [t] + (rest + b) == a + b;
      EmittedNext(st, t, rest);
      EmittedMore(Emitted(st, [t]), rest, b);
      EmittedNext(st, t, rest + b);
    }
  }

  /** msg2json: the calls in the order of the source give the document of the message's tree. */
  method Msg2Json(m: Report) returns (text: string)
    ensures text == Document(ReportNodes(m))
  {
    hide Emitted, Members, HeaderNodes, ManagementNodes, Step;
    var proc := new Emitter();
    proc.StartGroup(Object);
    ghost var st := proc.View();
    EmitHeader(proc, m);
    if m.management.Some? {
      EmitManagement(proc, m.management.value);
      EmittedMore(st, HeaderNodes(m), ManagementNodes(m.management.value));
    } else {
      assert HeaderNodes(m) + [] == HeaderNodes(m);
    }
    HeaderNotEmpty(m);
    WholeDocument(ReportNodes(m));
    proc.CloseGroup(Object);
    text := proc.result;
  }

  lemma HeaderNotEmpty(m: Report)
    ensures |HeaderNodes(m)| == 7
  {
  }

  /** One more leaf behind `ts`. */
  lemma OneMoreLeaf(st: Output, ts: seq<Node>, name: string, text: string)
    ensures Step(Emitted(st, ts), Value(name, text)) == Emitted(st, ts + [Leaf(name, text)])
  {
    LinePrinted(Emitted(st, ts), Leaf(name, text));
    EmittedMore(st, ts, [Leaf(name, text)]);
  }

  method EmitPort(proc: Emitter, name: string, p: PortId)
    modifies proc
    ensures proc.View() == Emitted(old(proc.View()), [PortNode(name, p)])
  {
    hide Emitted, Step, ClockText, Decimal;
    ghost var st := proc.View();
    proc.ProcGroup(name, Object);
    ghost var inside := proc.View();
    NothingPrinted(inside);
    proc.ProcString("clockIdentity", ClockText(p.clock));
    OneMoreLeaf(inside, [], "clockIdentity", Quoted(ClockText(p.clock)));
    proc.ProcValue("portNumber", Decimal(p.port));
    OneMoreLeaf(inside, [Text("clockIdentity", ClockText(p.clock))], "portNumber", Decimal(p.port));
    ghost var members := [Text("clockIdentity", ClockText(p.clock)), Count("portNumber", p.port)];
    assert [] + [members[0]] == [members[0]] && [members[0]] + [members[1]] == members;
    EmittedDepth(st, name, Object, members);
    EndIsFinish(proc.View(), Object);
    proc.CloseGroup(Object);
    GroupPrinted(st, name, Object, members);
  }

  method EmitHeader(proc: Emitter, m: Report)
    modifies proc
    ensures proc.View() == Emitted(old(proc.View()), HeaderNodes(m))
  {
    hide Emitted, Step, Decimal, Quoted;
    ghost var st := proc.View();
    NothingPrinted(st);
    ghost var ns := HeaderNodes(m);
    proc.ProcValue("sequenceId", Decimal(m.sequenceId));
    OneMoreLeaf(st, [], "sequenceId", Decimal(m.sequenceId));
    assert [] + [ns[0]] == ns[..1];
    proc.ProcValue("sdoId", Decimal(m.sdoId));
    OneMoreLeaf(st, ns[..1], "sdoId", Decimal(m.sdoId));
    assert ns[..1] + [ns[1]] == ns[..2];
    proc.ProcValue("domainNumber", Decimal(m.domainNumber));
    OneMoreLeaf(st, ns[..2], "domainNumber", Decimal(m.domainNumber));
    assert ns[..2] + [ns[2]] == ns[..3];
    proc.ProcValue("versionPTP", Decimal(m.versionPTP));
    OneMoreLeaf(st, ns[..3], "versionPTP", Decimal(m.versionPTP));
    assert ns[..3] + [ns[3]] == ns[..4];
    proc.ProcValue("minorVersionPTP", Decimal(m.minorVersionPTP));
    OneMoreLeaf(st, ns[..4], "minorVersionPTP", Decimal(m.minorVersionPTP));
    assert ns[..4] + [ns[4]] == ns[..5];
    var typeStr := if m.management.Some? then "Management" else "Unsupported";
    proc.ProcString("messageType", typeStr);
    OneMoreLeaf(st, ns[..5], "messageType", Quoted(typeStr));
    assert ns[..5] + [ns[5]] == ns[..6];
    EmitPort(proc, "sourcePortIdentity", m.peer);
    EmittedMore(st, ns[..6], [ns[6]]);
    assert ns[..6] + [ns[6]] == ns;
  }

  method EmitManagement(proc: Emitter, m: Management)
    modifies proc
    ensures proc.View() == Emitted(old(proc.View()), ManagementNodes(m))
  {
    hide Emitted, Step, Quoted;
    ghost var st := proc.View();
    NothingPrinted(st);
    ghost var ns := ManagementNodes(m);
    proc.ProcString("actionField", m.action);
    OneMoreLeaf(st, [], "actionField", Quoted(m.action));
    assert [] + [ns[0]] == ns[..1];
    proc.ProcString("tlvType", m.tlvType);
    OneMoreLeaf(st, ns[..1], "tlvType", Quoted(m.tlvType));
    assert ns[..1] + [ns[1]] == ns[..2];
    proc.ProcString("managementId", m.id);
    OneMoreLeaf(st, ns[..2], "managementId", Quoted(m.id));
    assert ns[..2] + [ns[2]] == ns[..3];
    match m.content {
      case Data(None) =>
        assert ns[..3] == ns;
      case Data(Some(nodes)) =>
        ghost var before := proc.View();
        proc.ProcGroup("dataField", Object);
        proc.ProcAll(nodes);
        EmittedDepth(before, "dataField", Object, nodes);
        EndIsFinish(proc.View(), Object);
        proc.CloseGroup(Object);
        GroupPrinted(before, "dataField", Object, nodes);
        EmittedMore(st, ns[..3], [ns[3]]);
        assert ns[..3] + [ns[3]] == ns;
      case ErrorStatus(errorId, display) =>
        proc.ProcString("managementErrorId", errorId);
        OneMoreLeaf(st, ns[..3], "managementErrorId", Quoted(errorId));
        assert ns[..3] + [ns[3]] == ns[..4];
        proc.ProcString("displayData", display);
        OneMoreLeaf(st, ns[..4], "displayData", Quoted(display));
        assert ns[..4] + [ns[4]] == ns;
    }
  }

  // ---------------------------------------------------------------- the document, spelled out

  function LeafText(name: string, text: string): string {
    "\n" + "  " + ("\"" + name + "\" :" + " " + text)
  }

  /** What stands under each name of the header, in order and at the first depth. */
  function HeaderText(m: Report): string {
    LeafText("sequenceId", Decimal(m.sequenceId)) + "," + LeafText("sdoId", Decimal(m.sdoId)) + ","
    + LeafText("domainNumber", Decimal(m.domainNumber)) + "," + LeafText("versionPTP", Decimal(m.versionPTP)) + ","
    + LeafText("minorVersionPTP", Decimal(m.minorVersionPTP)) + ","
    + LeafText("messageType", if m.management.Some? then "\"Management\"" else "\"Unsupported\"") + ","
    + PeerText(m.peer)
  }

  function PeerText(p: PortId): string {
    "\n" + "  " + ("\"" + "sourcePortIdentity" + "\" :" + "\n" + "  " + "{"
                    + ("\n" + "    " + ("\"" + "clockIdentity" + "\" :" + " " + ("\"" + ClockText(p.clock) + "\""))
                       + "," + ("\n" + "    " + ("\"" + "portNumber" + "\" :" + " " + Decimal(p.port))))
                    + "\n" + "  " + "}")
  }

  /** The braces of the data. */
  function DataText(members: string): string {
    "\n" + "  " + ("\"" + "dataField" + "\" :" + "\n" + "  " + "{" + members + "\n" + "  " + "}")
  }

  /** The names of the management part, before its data. */
  function ManagementText(m: Management): string {
    LeafText("actionField", "\"" + m.action + "\"") + "," + LeafText("tlvType", "\"" + m.tlvType + "\"") + ","
    + LeafText("managementId", "\"" + m.id + "\"")
    + match m.content
      case Data(None) => ""
      case Data(Some(nodes)) => "," + DataText(Members(nodes, 2))
      case ErrorStatus(errorId, display) =>
        "," + LeafText("managementErrorId", "\"" + errorId + "\"")
        + "," + LeafText("displayData", "\"" + display + "\"")
  }

  /** The whole text of msg2json. */
  lemma DocumentText(m: Report)
    ensures Document(ReportNodes(m))
         == "{" + HeaderText(m) + (if m.management.Some? then "," + ManagementText(m.management.value) else "") + "\n}"
  {
    hide Members, HeaderText, ManagementText, HeaderNodes, ManagementNodes;
    HeaderPrinted(m);
    HeaderNotEmpty(m);
    if m.management.Some? {
      ManagementPrinted(m.management.value);
      ManagementNotEmpty(m.management.value);
      MembersJoined(HeaderNodes(m), ManagementNodes(m.management.value), 1);
    } else {
      assert HeaderNodes(m) + [] == HeaderNodes(m);
    }
  }

  lemma ManagementNotEmpty(m: Management)
    ensures ManagementNodes(m) != []
  {
  }

  /** Members of two lists, a comma between them. */
  lemma {:induction false} MembersJoined(a: seq<Node>, b: seq<Node>, depth: nat)
    requires a != [] && b != []
    ensures Members(a + b, depth) == Members(a, depth) + "," + Members(b, depth)
    decreases |a|
  {
    hide Member;
    assert (a + b)[0] == a[0] && (a + b)[1..] == a[1..] + b;
    if |a| == 1 {
      assert a[1..] + b == b;
    } else {
      MembersJoined(a[1..], b, depth);
      var x, y, z := Member(a[0], depth), Members(a[1..], depth), Members(b, depth);
      assert x + "," + (y + "," + z) == x + "," + y + "," + z;
    }
  }

  lemma OneMember(t: Node, depth: nat)
    ensures Members([t], depth) == Member(t, depth)
  {
  }

  lemma Indents()
    ensures Indent(0) == "" && Indent(1) == "  " && Indent(2) == "    "
  {
    assert Indent(1) == Indent(0) + "  " && Indent(2) == Indent(1) + "  ";
    assert "" + "  " == "  " && "  " + "  " == "    ";
  }

  lemma LeafPrinted(name: string, text: string)
    ensures Member(Leaf(name, text), 1) == LeafText(name, text)
  {
    hide Indent;
    Indents();
  }

  lemma PeerPrinted(p: PortId)
    ensures Member(PortNode("sourcePortIdentity", p), 1) == PeerText(p)
  {
    hide Indent, ClockText, Decimal, Members;
    Indents();
    var a, b := Text("clockIdentity", ClockText(p.clock)), Count("portNumber", p.port);
    assert [a, b] == [a] + [b];
    MembersJoined([a], [b], 2);
    OneMember(a, 2);
    OneMember(b, 2);
  }

  lemma HeaderPrinted(m: Report)
    ensures Members(HeaderNodes(m), 1) == HeaderText(m)
  {
    hide Member, Members, LeafText, PeerText, Decimal, Quoted, PortNode;
    var typeStr := if m.management.Some? then "Management" else "Unsupported";
    LeafPrinted("sequenceId", Decimal(m.sequenceId));
    LeafPrinted("sdoId", Decimal(m.sdoId));
    LeafPrinted("domainNumber", Decimal(m.domainNumber));
    LeafPrinted("versionPTP", Decimal(m.versionPTP));
    LeafPrinted("minorVersionPTP", Decimal(m.minorVersionPTP));
    LeafPrinted("messageType", Quoted(typeStr));
    PeerPrinted(m.peer);
    TypeQuoted();
    SevenMembers(HeaderNodes(m));
  }

  lemma TypeQuoted()
    ensures Quoted("Management") == "\"Management\"" && Quoted("Unsupported") == "\"Unsupported\""
  {
  }

  lemma SevenMembers(ns: seq<Node>)
    requires |ns| == 7
    ensures Members(ns, 1)
         == Member(ns[0], 1) + "," + Member(ns[1], 1) + "," + Member(ns[2], 1) + "," + Member(ns[3], 1) + ","
            + Member(ns[4], 1) + "," + Member(ns[5], 1) + "," + Member(ns[6], 1)
  {
    hide Member, Members;
    var a, b := ns[..3], ns[3..];
    assert ns == a + b;
    MembersJoined(a, b, 1);
    ThreeMembers(a);
    assert b == b[..3] + [b[3]];
    MembersJoined(b[..3], [b[3]], 1);
    ThreeMembers(b[..3]);
    OneMember(b[3], 1);
    Regrouped(Members(a, 1) + ",", Members(b[..3], 1) + ",", Member(ns[6], 1));
    Regrouped(Members(a, 1) + ",", Members(b[..3], 1), ",");
    Regrouped(Members(a, 1) + ",", Member(ns[3], 1) + "," + Member(ns[4], 1) + ",", Member(ns[5], 1));
    Regrouped(Members(a, 1) + ",", Member(ns[3], 1) + "," + Member(ns[4], 1), ",");
    Regrouped(Members(a, 1) + ",", Member(ns[3], 1) + ",", Member(ns[4], 1));
    Regrouped(Members(a, 1) + ",", Member(ns[3], 1), ",");
  }

  lemma Regrouped(x: string, y: string, z: string)
    ensures x + (y + z) == x + y + z
  {
  }

  lemma ThreeMembers(ns: seq<Node>)
    requires |ns| == 3
    ensures Members(ns, 1) == Member(ns[0], 1) + "," + Member(ns[1], 1) + "," + Member(ns[2], 1)
  {
    hide Member;
    assert ns == [ns[0]] + ([ns[1]] + [ns[2]]);
    MembersJoined([ns[1]], [ns[2]], 1);
    MembersJoined([ns[0]], [ns[1]] + [ns[2]], 1);
    OneMember(ns[0], 1);
    OneMember(ns[1], 1);
    OneMember(ns[2], 1);
  }

  lemma ManagementPrinted(m: Management)
    ensures Members(ManagementNodes(m), 1) == ManagementText(m)
  {
    hide Member, LeafText, DataText, Members;
    var ns := [Text("actionField", m.action), Text("tlvType", m.tlvType), Text("managementId", m.id)];
    LeafPrinted("actionField", Quoted(m.action));
    LeafPrinted("tlvType", Quoted(m.tlvType));
    LeafPrinted("managementId", Quoted(m.id));
    ThreeMembers(ns);
    match m.content
    case Data(None) => assert ns + [] == ns;
    case Data(Some(nodes)) =>
      var t := Group("dataField", Object, nodes);
      MembersJoined(ns, [t], 1);
      OneMember(t, 1);
      DataPrinted(nodes);
      assert Members(ns, 1) + "," + DataText(Members(nodes, 2)) == Members(ns, 1) + ("," + DataText(Members(nodes, 2)));
    case ErrorStatus(errorId, display) =>
      var a, b := Text("managementErrorId", errorId), Text("displayData", display);
      LeafPrinted("managementErrorId", Quoted(errorId));
      LeafPrinted("displayData", Quoted(display));
      assert [a, b] == [a] + [b];
      MembersJoined([a], [b], 1);
      OneMember(a, 1);
      OneMember(b, 1);
      MembersJoined(ns, [a, b], 1);
      var x, y, z := Members(ns, 1), Member(a, 1), Member(b, 1);
      assert x + "," + (y + "," + z) == x + ("," + y + "," + z);
  }

  lemma DataPrinted(nodes: seq<Node>)
    ensures Member(Group("dataField", Object, nodes), 1) == DataText(Members(nodes, 2))
  {
    hide Members, Indent;
    Indents();
  }

  /** An array, which the source always leaves empty. */
  lemma EmptyArrayPrinted(name: string)
    ensures Member(Group(name, Array, []), 2)
         == "\n" + "    " + ("\"" + name + "\" :" + "\n" + "    " + "[" + "" + "\n" + "    " + "]")
  {
    hide Indent;
    Indents();
    assert Members([], 3) == "";
  }
}
