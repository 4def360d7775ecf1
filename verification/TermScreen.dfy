// WebTerminal.java, the nodes under cursorHome: where lines and columns are, read from the
// tree (delta2D) and from the flat run of characters it shows.

module TermScreen {
  import opened Seqs

  // A text node, a br, a span, or the input line that marks the cursor.
  datatype Node = Text(s: string) | Br | Span(kids: seq<Node>) | Input

  datatype Pos = Pos(line: nat, col: nat) {
    // Not past goal.
    predicate Le(goal: Pos) {
      line < goal.line || (line == goal.line && col <= goal.col)
    }
  }

  // ---- updateColumn ----

  const ZERO_WIDTH: char := '\U{200B}'

  function CharColumns(ch: char): nat {
    if ch == ZERO_WIDTH then 0 else 1
  }

  // (col & ~7) + 8
  function NextTabCol(col: int): int {
    col / 8 * 8 + 8
  }

  // -1 stands for a newline.
  function UpdateColumn(ch: char, state: int): (next: int)
    requires state >= -1
    ensures next >= -1
  {
    if ch == '\n' || ch == '\r' || ch == '\U{0C}' then -1
    else if ch == '\t' then NextTabCol(state)
    else state + CharColumns(ch)
  }

  // ---- delta2D ----

  datatype Delta = Delta(pos: Pos, seen: bool)

  // The loop over a text node, from index i.
  function TextDelta(s: string, i: nat, p: Pos): Pos
    requires i <= |s|
    decreases |s| - i
  {
    if i == |s| then p
    else
      var next := UpdateColumn(s[i], p.col);
      if next != -1 then TextDelta(s, i + 1, Pos(p.line, next))
      else if s[i] == '\r' && i + 1 < |s| && s[i + 1] == '\n' then TextDelta(s, i + 2, Pos(p.line + 1, 0))
      else TextDelta(s, i + 1, Pos(p.line + 1, 0))
  }

  // From a node on to the input line.
  function Delta2D(n: Node, p: Pos): Delta
    decreases n
  {
    match n
    case Input => Delta(p, true)
    case Text(s) => Delta(TextDelta(s, 0, p), false)
    case Br => Delta(Pos(p.line + 1, 0), false)
    case Span(kids) => DeltaKids(kids, p)
  }

  function DeltaKids(ns: seq<Node>, p: Pos): Delta
    decreases ns
  {
    if ns == [] then Delta(p, false)
    else
      var d := Delta2D(ns[0], p);
      if d.seen then d else DeltaKids(ns[1..], d.pos)
  }

  // A tab goes to the next multiple of 8.
  lemma TabStops(col: nat)
    ensures var to := UpdateColumn('\t', col);
            to % 8 == 0 && col < to <= col + 8
  {
  }

  // U+200B takes no column, and every other character that ends no line and is no tab takes one.
  lemma Widths(ch: char, col: nat)
    requires ch !in "\n\r\t\U{0C}"
    ensures UpdateColumn(ch, col) == if ch == '\U{200B}' then col else col + 1
  {
    assert ch != '\n' && ch != '\r' && ch != '\t' && ch != '\U{0C}';
  }

  // CR, LF, FF and CR LF each end one line, and so does a br.
  lemma LineEnds(p: Pos)
    ensures TextDelta("\r", 0, p) == TextDelta("\n", 0, p) == TextDelta("\U{0C}", 0, p) == Pos(p.line + 1, 0)
    ensures TextDelta("\r\n", 0, p) == Pos(p.line + 1, 0) && TextDelta("\n\r", 0, p) == Pos(p.line + 2, 0)
    ensures Delta2D(Br, p) == Delta(Pos(p.line + 1, 0), false)
  {
    assert TextDelta("\r", 1, Pos(p.line + 1, 0)) == Pos(p.line + 1, 0);
    assert TextDelta("\n", 1, Pos(p.line + 1, 0)) == Pos(p.line + 1, 0);
    assert TextDelta("\U{0C}", 1, Pos(p.line + 1, 0)) == Pos(p.line + 1, 0);
    assert TextDelta("\r\n", 2, Pos(p.line + 1, 0)) == Pos(p.line + 1, 0);
    assert TextDelta("\n\r", 2, Pos(p.line + 2, 0)) == Pos(p.line + 2, 0);
    assert TextDelta("\n\r", 1, Pos(p.line + 1, 0)) == Pos(p.line + 2, 0);
  }

  // ---- The flat run ----

  datatype Tok = Chr(c: char) | Brk {
    predicate NewLine() {
      Brk? || c == '\n' || c == '\U{0C}'
    }

    function Step(p: Pos): Pos {
      if NewLine() then Pos(p.line + 1, 0) else Pos(p.line, p.col + CharColumns(c))
    }
  }

  function Chars(s: string): (t: seq<Tok>)
    ensures |t| == |s| && forall i :: 0 <= i < |s| ==> t[i] == Chr(s[i])
  {
    seq(|s|, i requires 0 <= i < |s| => Chr(s[i]))
  }

  function FlatNode(n: Node): seq<Tok>
    decreases n
  {
    match n
    case Input => []
    case Text(s) => Chars(s)
    case Br => [Brk]
    case Span(kids) => Flat(kids)
  }

  function Flat(ns: seq<Node>): seq<Tok>
    decreases ns
  {
    if ns == [] then [] else FlatNode(ns[0]) + Flat(ns[1..])
  }

  function Measure(p: Pos, ts: seq<Tok>): Pos
    decreases |ts|
  {
    if ts == [] then p else Measure(ts[0].Step(p), ts[1..])
  }

  lemma {:induction false} MeasureAppend(p: Pos, a: seq<Tok>, b: seq<Tok>)
    ensures Measure(p, a + b) == Measure(Measure(p, a), b)
    decreases |a|
  {
    if a == [] {
      assert a + b == b;
    } else {
      assert (a + b)[1..] == a[1..] + b;
      MeasureAppend(a[0].Step(p), a[1..], b);
    }
  }

  lemma {:induction false} FlatAppend(a: seq<Node>, b: seq<Node>)
    ensures Flat(a + b) == Flat(a) + Flat(b)
  {
    if a == [] {
      assert a + b == b;
    } else {
      assert (a + b)[1..] == a[1..] + b;
      FlatAppend(a[1..], b);
    }
  }

  // ---- The tree shows what the run says ----

  // No carriage return and no tab, and no input line.
  predicate Plain(n: Node)
    decreases n
  {
    match n
    case Input => false
    case Text(s) => PlainText(s)
    case Br => true
    case Span(kids) => PlainAll(kids)
  }

  predicate PlainText(s: string) {
    forall i :: 0 <= i < |s| ==> s[i] != '\r' && s[i] != '\t'
  }

  predicate PlainAll(ns: seq<Node>)
    decreases ns
  {
    ns == [] || (Plain(ns[0]) && PlainAll(ns[1..]))
  }

  lemma {:induction false} PlainAppend(a: seq<Node>, b: seq<Node>)
    ensures PlainAll(a + b) <==> PlainAll(a) && PlainAll(b)
  {
    if a == [] {
      assert a + b == b;
    } else {
      assert (a + b)[1..] == a[1..] + b;
      PlainAppend(a[1..], b);
    }
  }

  lemma {:induction false} TextMeasure(s: string, i: nat, p: Pos)
    requires PlainText(s) && i <= |s|
    ensures TextDelta(s, i, p) == Measure(p, Chars(s)[i..])
    decreases |s| - i
  {
    if i < |s| {
      TextMeasure(s, i + 1, Chars(s)[i].Step(p));
      assert Chars(s)[i..][1..] == Chars(s)[i + 1..];
    }
  }

  lemma {:induction false} NodeMeasure(n: Node, p: Pos)
    requires Plain(n)
    ensures Delta2D(n, p) == Delta(Measure(p, FlatNode(n)), false)
    decreases n
  {
    match n
    case Text(s) =>
      TextMeasure(s, 0, p);
      assert Chars(s)[0..] == Chars(s);
    case Br =>
    case Span(kids) => KidsMeasure(kids, p);
  }

  lemma {:induction false} KidsMeasure(ns: seq<Node>, p: Pos)
    requires PlainAll(ns)
    ensures DeltaKids(ns, p) == Delta(Measure(p, Flat(ns)), false)
    decreases ns
  {
    if ns != [] {
      NodeMeasure(ns[0], p);
      KidsMeasure(ns[1..], Measure(p, FlatNode(ns[0])));
      MeasureAppend(p, FlatNode(ns[0]), Flat(ns[1..]));
    }
  }

  lemma {:induction false} DeltaAppend(a: seq<Node>, b: seq<Node>, p: Pos)
    requires PlainAll(a)
    ensures DeltaKids(a + b, p) == DeltaKids(b, Measure(p, Flat(a)))
  {
    if a == [] {
      assert a + b == b;
    } else {
      assert (a + b)[1..] == a[1..] + b;
      NodeMeasure(a[0], p);
      DeltaAppend(a[1..], b, Measure(p, FlatNode(a[0])));
      MeasureAppend(p, FlatNode(a[0]), Flat(a[1..]));
    }
  }

  // ---- A place in the tree ----

  // An open span: what precedes it and what follows it in its parent.
  datatype Frame = Frame(before: seq<Node>, after: seq<Node>)

  // The children of cursorHome, when the innermost open span has these kids.
  function Plug(frames: seq<Frame>, kids: seq<Node>): seq<Node> {
    if frames == [] then kids
    else
      var f := frames[|frames| - 1];
      Plug(frames[..|frames| - 1], f.before + [Span(kids)] + f.after)
  }

  // What the tree shows before and after the place.
  function Pre(frames: seq<Frame>, before: seq<Node>): seq<Tok> {
    if frames == [] then Flat(before)
    else Pre(frames[..|frames| - 1], frames[|frames| - 1].before) + Flat(before)
  }

  function Post(frames: seq<Frame>, after: seq<Node>): seq<Tok> {
    if frames == [] then Flat(after)
    else Flat(after) + Post(frames[..|frames| - 1], frames[|frames| - 1].after)
  }

  // ---- The elements, without the text between them ----

  function Bones(ns: seq<Node>): seq<Node>
    decreases ns
  {
    if ns == [] then [] else Bone(ns[0]) + Bones(ns[1..])
  }

  function Bone(n: Node): seq<Node>
    decreases n
  {
    match n
    case Br => [Br]
    case Span(kids) => [Span(Bones(kids))]
    case _ => []
  }

  lemma {:induction false} BonesAppend(a: seq<Node>, b: seq<Node>)
    ensures Bones(a + b) == Bones(a) + Bones(b)
  {
    if a == [] {
      assert a + b == b;
    } else {
      assert (a + b)[1..] == a[1..] + b;
      BonesAppend(a[1..], b);
    }
  }

  // The elements of the whole depend on those at a place in it.
  lemma {:induction false} BonesPlug(frames: seq<Frame>, a: seq<Node>, b: seq<Node>)
    requires Bones(a) == Bones(b)
    ensures Bones(Plug(frames, a)) == Bones(Plug(frames, b))
  {
    if frames != [] {
      var f := frames[|frames| - 1];
      BonesAround(f.before, a, f.after);
      BonesAround(f.before, b, f.after);
      BonesPlug(frames[..|frames| - 1], f.before + [Span(a)] + f.after, f.before + [Span(b)] + f.after);
    }
  }

  lemma BonesAround(before: seq<Node>, kids: seq<Node>, after: seq<Node>)
    ensures Bones(before + [Span(kids)] + after) == Bones(before) + [Span(Bones(kids))] + Bones(after)
  {
    BonesAppend(before, [Span(kids)]);
    BonesAppend(before + [Span(kids)], after);
    assert [Span(kids)][1..] == [];
  }

  // Text, and the input line, are not among them.
  lemma BonesOf(before: seq<Node>, n: Node, after: seq<Node>)
    ensures n.Text? || n.Input? ==> Bones(before + [n]) == Bones(before) && Bones([n] + after) == Bones(after)
    ensures n.Text? || n.Input? ==> Bones(before + [n] + after) == Bones(before + after)
    ensures Bones(before + after) == Bones(before) + Bones(after)
  {
    BonesAppend(before, [n]);
    BonesAppend([n], after);
    BonesAppend(before + [n], after);
    BonesAppend(before, after);
    assert [n][1..] == [];
  }

  predicate PlainFrames(frames: seq<Frame>) {
    forall i :: 0 <= i < |frames| ==> PlainAll(frames[i].before) && PlainAll(frames[i].after)
  }

  lemma {:induction false} FlatPlug(frames: seq<Frame>, before: seq<Node>, after: seq<Node>)
    ensures Flat(Plug(frames, before + after)) == Pre(frames, before) + Post(frames, after)
  {
    hide Flat;
    FlatAppend(before, after);
    if frames != [] {
      var f, outer := frames[|frames| - 1], frames[..|frames| - 1];
      var span := [Span(before + after)];
      assert f.before + span + f.after == f.before + (span + f.after);
      FlatPlug(outer, f.before, span + f.after);
      FlatSpan(before + after);
      PostAppend(outer, span, f.after);
      Assoc(Pre(outer, f.before), Flat(before), Flat(after) + Post(outer, f.after));
      Assoc(Flat(before), Flat(after), Post(outer, f.after));
    }
  }

  lemma FlatSpan(kids: seq<Node>)
    ensures Flat([Span(kids)]) == Flat(kids)
  {
    assert Flat([Span(kids)][1..]) == [];
  }

  lemma PostAppend(frames: seq<Frame>, a: seq<Node>, b: seq<Node>)
    ensures Post(frames, a + b) == Flat(a) + Post(frames, b)
    ensures Pre(frames, a + b) == Pre(frames, a) + Flat(b)
  {
    hide Flat;
    FlatAppend(a, b);
    if frames != [] {
      var f, outer := frames[|frames| - 1], frames[..|frames| - 1];
      Assoc(Flat(a), Flat(b), Post(outer, f.after));
      Assoc(Pre(outer, f.before), Flat(a), Flat(b));
    }
  }

  lemma {:induction false} PlainPlug(frames: seq<Frame>, kids: seq<Node>)
    requires PlainFrames(frames) && PlainAll(kids)
    ensures PlainAll(Plug(frames, kids))
  {
    if frames != [] {
      var f := frames[|frames| - 1];
      PlainAppend(f.before, [Span(kids)]);
      PlainAppend(f.before + [Span(kids)], f.after);
      PlainPlug(frames[..|frames| - 1], f.before + [Span(kids)] + f.after);
    }
  }

  // delta2D finds the input line where the run before it ends.
  lemma {:induction false} DeltaPlug(frames: seq<Frame>, before: seq<Node>, after: seq<Node>)
    requires PlainFrames(frames) && PlainAll(before)
    ensures DeltaKids(Plug(frames, before + [Input] + after), Pos(0, 0)) ==
            Delta(Measure(Pos(0, 0), Pre(frames, before)), true)
  {
    DeltaDeeper(frames, [Input], before, after);
  }

  // The same for any kids at the place in whose midst the search ends.
  lemma {:induction false} DeltaDeeper(frames: seq<Frame>, stop: seq<Node>, before: seq<Node>, after: seq<Node>)
    requires PlainFrames(frames) && PlainAll(before)
    requires |stop| == 1 && forall p :: Delta2D(stop[0], p).seen
    ensures DeltaKids(Plug(frames, before + stop + after), Pos(0, 0)) ==
            Delta2D(stop[0], Measure(Pos(0, 0), Pre(frames, before)))
    decreases |frames|
  {
    assert before + stop + after == before + (stop + after);
    if frames == [] {
      DeltaAppend(before, stop + after, Pos(0, 0));
      assert (stop + after)[0] == stop[0];
    } else {
      var f, outer := frames[|frames| - 1], frames[..|frames| - 1];
      var span := [Span(before + stop + after)];
      forall p: Pos
        ensures Delta2D(span[0], p) == Delta2D(stop[0], Measure(p, Flat(before)))
      {
        DeltaAppend(before, stop + after, p);
        assert (stop + after)[0] == stop[0];
      }
      DeltaDeeper(outer, span, f.before, f.after);
      MeasureAppend(Pos(0, 0), Pre(outer, f.before), Flat(before));
    }
  }
}
