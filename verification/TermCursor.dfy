// WebTerminal.java, the cursor: moveTo walks the nodes under cursorHome, adds what blank
// space it needs, and leaves the place it believes it reached in the cursor cache.

module TermCursor {
  import opened Seqs
  import opened TermScreen

  const HOME := Pos(0, 0)

  // ---- Where moveTo goes, on the flat run ----

  // What is shown before the cursor and after it.
  datatype Place = Place(pre: seq<Tok>, post: seq<Tok>)

  function Repeat(c: char, n: nat): (s: string)
    ensures |s| == n && forall i :: 0 <= i < n ==> s[i] == c
  {
    seq(n, i => c)
  }

  function Spaces(n: nat): seq<Tok> {
    Chars(Repeat(' ', n))
  }

  // What is appended behind the last character to get from p to the goal: newlines, and then
  // the columns missing from the column that p had.
  function Appended(p: Pos, goal: Pos): seq<Tok>
    requires p.Le(goal)
  {
    Chars(Repeat('\n', goal.line - p.line)) + Spaces(if goal.col > p.col then goal.col - p.col else 0)
  }

  function Go(pre: seq<Tok>, post: seq<Tok>, p: Pos, goal: Pos): Place
    requires p.Le(goal)
    decreases |post|
  {
    if p == goal then Place(pre, post)
    else if post == [] then Place(pre + Appended(p, goal), [])
    else if post[0].NewLine() && p.line == goal.line then Place(pre + Spaces(goal.col - p.col), post)
    else Go(pre + [post[0]], post[1..], post[0].Step(p), goal)
  }

  lemma {:induction false} MeasureSpaces(p: Pos, n: nat)
    ensures Measure(p, Spaces(n)) == Pos(p.line, p.col + n)
    decreases n
  {
    if n > 0 {
      assert Spaces(n)[1..] == Spaces(n - 1);
      MeasureSpaces(Chr(' ').Step(p), n - 1);
    }
  }

  lemma {:induction false} MeasureNewlines(p: Pos, n: nat)
    ensures Measure(p, Chars(Repeat('\n', n))) == if n == 0 then p else Pos(p.line + n, 0)
    decreases n
  {
    if n > 0 {
      assert Chars(Repeat('\n', n))[1..] == Chars(Repeat('\n', n - 1));
      MeasureNewlines(Chr('\n').Step(p), n - 1);
    }
  }

  lemma {:induction false} LinesGrow(p: Pos, ts: seq<Tok>)
    ensures Measure(p, ts).line >= p.line
    decreases |ts|
  {
    if ts != [] {
      LinesGrow(ts[0].Step(p), ts[1..]);
    }
  }

  // Whether a walk that starts at the place at, but counts from p, ends at the goal with post
  // ahead. On the line of p the count has to be right. Further down only the line has to be,
  // and the goal's line has to exist, or the last line to be counted as empty, or the goal to
  // be in column 0.
  predicate Reaches(at: Pos, p: Pos, post: seq<Tok>, goal: Pos) {
    if goal.line == p.line then at == p
    else
      var end := Measure(p, post);
      at.line == p.line && (end.line >= goal.line || end.col == 0 || goal.col == 0)
  }

  lemma {:induction false} GoReaches(pre: seq<Tok>, post: seq<Tok>, p: Pos, goal: Pos)
    requires p.Le(goal)
    ensures (Measure(HOME, Go(pre, post, p, goal).pre) == goal) <==> (Reaches(Measure(HOME, pre), p, post, goal))
    decreases |post|
  {
    var at := Measure(HOME, pre);
    if p == goal {
    } else if post == [] {
      MeasureAppend(HOME, pre, Appended(p, goal));
      AppendedFrom(at, p, goal);
    } else if post[0].NewLine() && p.line == goal.line {
      MeasureAppend(HOME, pre, Spaces(goal.col - p.col));
      MeasureSpaces(at, goal.col - p.col);
    } else {
      MeasureAppend(HOME, pre, [post[0]]);
      LinesGrow(post[0].Step(p), post[1..]);
      GoReaches(pre + [post[0]], post[1..], post[0].Step(p), goal);
    }
  }

  lemma AppendedFrom(at: Pos, p: Pos, goal: Pos)
    requires p.Le(goal)
    ensures (Measure(at, Appended(p, goal)) == goal) <==> (Reaches(at, p, [], goal))
  {
    hide Measure, Spaces, Repeat;
    var n := goal.line - p.line;
    MeasureAppend(at, Chars(Repeat('\n', n)), Spaces(if goal.col > p.col then goal.col - p.col else 0));
    MeasureNewlines(at, n);
    MeasureSpaces(Measure(at, Chars(Repeat('\n', n))), if goal.col > p.col then goal.col - p.col else 0);
    NothingMore(p);
  }

  lemma NothingMore(p: Pos)
    ensures Measure(p, []) == p
  {
  }

  // Counted from where it is, the cursor ends at the goal if and only if the goal's line
  // exists, or the last line is empty, or the goal is in column 0.
  lemma GoMeasure(pre: seq<Tok>, post: seq<Tok>, p: Pos, goal: Pos)
    requires p.Le(goal) && p == Measure(HOME, pre)
    ensures var all := Measure(HOME, pre + post);
            (Measure(HOME, Go(pre, post, p, goal).pre) == goal)
            <==> (all.line >= goal.line || all.col == 0 || goal.col == 0)
  {
    hide Go, Measure;
    MeasureAppend(HOME, pre, post);
    LinesGrow(p, post);
    GoReaches(pre, post, p, goal);
  }

  predicate IsBlank(ts: seq<Tok>) {
    forall i :: 0 <= i < |ts| ==> ts[i] == Chr(' ') || ts[i] == Chr('\n')
  }

  // Nothing on the screen is lost or moved past anything else: the walk passes k tokens and
  // puts blanks there, at the end of a line.
  lemma {:induction false} GoKeeps(pre: seq<Tok>, post: seq<Tok>, p: Pos, goal: Pos) returns (k: nat, blanks: seq<Tok>)
    requires p.Le(goal)
    ensures k <= |post| && IsBlank(blanks)
    ensures Go(pre, post, p, goal) == Place(pre + post[..k] + blanks, post[k..])
    ensures blanks != [] && k < |post| ==> post[k].NewLine()
    decreases |post|
  {
    if p == goal {
      k, blanks := 0, [];
      assert pre + post[..0] + [] == pre;
    } else if post == [] {
      k, blanks := 0, Appended(p, goal);
      assert pre + post[..0] == pre;
    } else if post[0].NewLine() && p.line == goal.line {
      k, blanks := 0, Spaces(goal.col - p.col);
      assert pre + post[..0] == pre;
    } else {
      k, blanks := GoKeeps(pre + [post[0]], post[1..], post[0].Step(p), goal);
      assert pre + [post[0]] + post[1..][..k] == pre + post[..k + 1];
      k := k + 1;
    }
  }

  // A goal that is on the screen is reached without adding anything.
  lemma {:induction false} GoFinds(pre: seq<Tok>, post: seq<Tok>, p: Pos, goal: Pos, k: nat)
    requires p.Le(goal) && k <= |post| && Measure(p, post[..k]) == goal
    ensures Go(pre, post, p, goal).pre + Go(pre, post, p, goal).post == pre + post
    decreases |post|
  {
    if p != goal {
      assert k > 0;
      assert post[..k][1..] == post[1..][..k - 1];
      LinesGrow(post[0].Step(p), post[1..][..k - 1]);
      assert pre + [post[0]] + post[1..] == pre + post;
      GoFinds(pre + [post[0]], post[1..], post[0].Step(p), goal, k - 1);
    }
  }

  // A walk from a place before the goal is the walk from home, where every character up to
  // there takes a column.
  lemma {:induction false} GoFromHome(pre: seq<Tok>, mid: seq<Tok>, post: seq<Tok>, p: Pos, goal: Pos)
    requires p.Le(goal) && Measure(p, mid).Le(goal)
    requires forall i :: 0 <= i < |mid| ==> mid[i] != Chr(ZERO_WIDTH)
    ensures Go(pre, mid + post, p, goal) == Go(pre + mid, post, Measure(p, mid), goal)
    decreases |mid|
  {
    if mid == [] {
      assert mid + post == post && pre + mid == pre;
    } else {
      var next := mid[0].Step(p);
      LinesGrow(next, mid[1..]);
      ColumnsGrow(next, mid[1..]);
      assert (mid + post)[1..] == mid[1..] + post;
      assert pre + [mid[0]] + mid[1..] == pre + mid;
      GoFromHome(pre + [mid[0]], mid[1..], post, next, goal);
    }
  }

  lemma {:induction false} ColumnsGrow(p: Pos, ts: seq<Tok>)
    ensures p.Le(Measure(p, ts))
    decreases |ts|
  {
    if ts != [] {
      ColumnsGrow(ts[0].Step(p), ts[1..]);
    }
  }

  // No line disappears.
  lemma {:induction false} GoGrows(pre: seq<Tok>, post: seq<Tok>, p: Pos, goal: Pos)
    requires p.Le(goal)
    ensures var to := Go(pre, post, p, goal);
            Measure(HOME, to.pre + to.post).line >= Measure(HOME, pre + post).line
    decreases |post|
  {
    var at := Measure(HOME, pre);
    MeasureAppend(HOME, pre, post);
    if p == goal {
    } else if post == [] {
      MeasureAppend(HOME, pre, Appended(p, goal));
      LinesGrow(at, Appended(p, goal));
      assert pre + Appended(p, goal) + [] == pre + Appended(p, goal);
    } else if post[0].NewLine() && p.line == goal.line {
      MeasureAppend(HOME, pre, Spaces(goal.col - p.col));
      MeasureSpaces(at, goal.col - p.col);
      MeasureAppend(HOME, pre + Spaces(goal.col - p.col), post);
    } else {
      MeasureAppend(HOME, pre, [post[0]]);
      assert pre + [post[0]] + post[1..] == pre + post;
      GoGrows(pre + [post[0]], post[1..], post[0].Step(p), goal);
    }
  }

  // "a", and a goal on the line below it in column 2: one space is appended where two are
  // needed.
  lemma AppendMisses()
    ensures Measure(HOME, Go([], [Chr('a')], HOME, Pos(1, 2)).pre) == Pos(1, 1)
  {
    hide Go, Measure, Spaces, Repeat;
    var a, p := Chr('a'), Pos(0, 1);
    OnlyA();
    var b := Appended(p, Pos(1, 2));
    MeasureAppend(HOME, [a], b);
    MeasureAppend(p, Chars(Repeat('\n', 1)), Spaces(1));
    MeasureNewlines(p, 1);
    MeasureSpaces(Pos(1, 0), 1);
  }

  lemma OnlyA()
    ensures Go([], [Chr('a')], HOME, Pos(1, 2)).pre == [Chr('a')] + Appended(Pos(0, 1), Pos(1, 2))
    ensures Measure(HOME, [Chr('a')]) == Pos(0, 1)
  {
    hide Spaces, Repeat, Appended;
    assert Chr('a').Step(HOME) == Pos(0, 1) && [Chr('a')][1..] == [] && [] + [Chr('a')] == [Chr('a')];
  }

  // ---- The weight of what is still to be walked ----

  function Weight(n: Node): (w: nat)
    ensures w >= 1
    decreases n
  {
    if n.Span? then 2 + WeightAll(n.kids) else 1
  }

  function WeightAll(ns: seq<Node>): nat
    decreases ns
  {
    if ns == [] then 0 else Weight(ns[0]) + WeightAll(ns[1..])
  }

  function OuterWeight(frames: seq<Frame>): nat {
    if frames == [] then 0
    else 1 + WeightAll(frames[|frames| - 1].after) + OuterWeight(frames[..|frames| - 1])
  }

  function Load(frames: seq<Frame>, after: seq<Node>): nat {
    WeightAll(after) + OuterWeight(frames)
  }

  // ---- makeSpaces ----

  method MakeSpaces(n: nat) returns (s: string)
    ensures s == Repeat(' ', n)
  {
    s := "";
    var count: int := n;
    while count >= 8
      invariant count >= 0 && s == Repeat(' ', n - count)
    {
      s := s + "        ";
      count := count - 8;
    }
    count := count - 1;
    while count >= 0
      invariant count >= -1 && s == Repeat(' ', n - count - 1)
    {
      s := s + " ";
      count := count - 1;
    }
  }

  // ---- Walking along a text ----

  // i characters of the text behind pre1 have been walked, to p.
  ghost predicate Walked(g: Place, pre1: seq<Tok>, t: string, i: nat, rest: seq<Tok>, p: Pos, goal: Pos) {
    i <= |t| && PlainText(t) && p.Le(goal) && Go(pre1 + Chars(t[..i]), Chars(t[i..]) + rest, p, goal) == g
  }

  lemma WalkedStart(pre0: seq<Tok>, post0: seq<Tok>, pre1: seq<Tok>, t: string, i: nat, rest: seq<Tok>, p: Pos,
                    goal: Pos)
    requires i <= |t| && PlainText(t) && p.Le(goal)
    requires pre1 + Chars(t[..i]) == pre0 && Chars(t[i..]) + rest == post0
    ensures Walked(Go(pre0, post0, p, goal), pre1, t, i, rest, p, goal)
  {
  }

  lemma WalkedFacts(g: Place, pre1: seq<Tok>, t: string, i: nat, rest: seq<Tok>, p: Pos, goal: Pos)
    requires Walked(g, pre1, t, i, rest, p, goal)
    ensures i <= |t| && PlainText(t[..i]) && PlainText(t[i..]) && PlainText(t) && p.Le(goal)
    ensures Go(pre1 + Chars(t[..i]), Chars(t[i..]) + rest, p, goal) == g
    ensures i == |t| ==> Go(pre1 + Chars(t), rest, p, goal) == g
  {
    hide Go, Chars;
    if i == |t| {
      assert t[..i] == t && Chars(t[i..]) == [] && Chars(t[i..]) + rest == rest;
    }
  }

  lemma PlainStep(ch: char, p: Pos)
    requires ch != '\r' && ch != '\t'
    ensures UpdateColumn(ch, p.col) == -1 <==> Chr(ch).NewLine()
    ensures Chr(ch).Step(p) == if Chr(ch).NewLine() then Pos(p.line + 1, 0) else Pos(p.line, UpdateColumn(ch, p.col))
  {
  }

  lemma UnwalkedText(pre1: seq<Tok>, t: string, i: nat, rest: seq<Tok>)
    requires i < |t|
    ensures var post := Chars(t[i..]) + rest;
            && post != [] && post[0] == Chr(t[i]) && post[1..] == Chars(t[i + 1..]) + rest
            && pre1 + Chars(t[..i]) + [Chr(t[i])] == pre1 + Chars(t[..i + 1])
  {
    assert Chars(t[i..])[1..] == Chars(t[i + 1..]);
    assert Chars(t[..i]) + [Chr(t[i])] == Chars(t[..i + 1]);
  }

  lemma WalkedNext(g: Place, pre1: seq<Tok>, t: string, i: nat, rest: seq<Tok>, p: Pos, goal: Pos)
    requires Walked(g, pre1, t, i, rest, p, goal) && i < |t| && p != goal
    requires !(Chr(t[i]).NewLine() && p.line == goal.line)
    ensures Walked(g, pre1, t, i + 1, rest, Chr(t[i]).Step(p), goal) && Chr(t[i]).Step(p).Le(goal)
  {
    hide Chars;
    UnwalkedText(pre1, t, i, rest);
  }

  lemma WalkedFill(g: Place, pre1: seq<Tok>, t: string, i: nat, rest: seq<Tok>, p: Pos, goal: Pos)
    requires Walked(g, pre1, t, i, rest, p, goal) && i < |t| && p != goal
    requires Chr(t[i]).NewLine() && p.line == goal.line
    ensures var n := goal.col - p.col;
            n > 0 && Walked(g, pre1, t[..i] + Repeat(' ', n) + t[i..], i + n, rest, goal, goal)
  {
    hide Chars;
    UnwalkedText(pre1, t, i, rest);
    var n := goal.col - p.col;
    var u := t[..i] + Repeat(' ', n) + t[i..];
    assert u[..i + n] == t[..i] + Repeat(' ', n) && u[i + n..] == t[i..];
    CharsAppend(t[..i], Repeat(' ', n));
    Assoc(pre1, Chars(t[..i]), Spaces(n));
  }

  lemma CharsAppend(a: string, b: string)
    ensures Chars(a + b) == Chars(a) + Chars(b)
  {
  }

  lemma FlatText(t: string)
    ensures Flat([Text(t)]) == Chars(t)
  {
    assert Flat([Text(t)][1..]) == [];
  }

  // A text node, whole or split at i, beside what surrounds it.
  lemma TextAround(frames: seq<Frame>, before: seq<Node>, t: string, rest: seq<Node>)
    ensures Pre(frames, before + [Text(t)]) == Pre(frames, before) + Chars(t)
    ensures Post(frames, [Text(t)] + rest) == Chars(t) + Post(frames, rest)
    ensures PlainText(t) && PlainAll(before) ==> PlainAll(before + [Text(t)])
    ensures PlainAll([Text(t)] + rest) <==> PlainText(t) && PlainAll(rest)
  {
    hide Pre, Post, Flat;
    FlatText(t);
    PostAppend(frames, before, [Text(t)]);
    PostAppend(frames, [Text(t)], rest);
    PlainAppend(before, [Text(t)]);
    assert ([Text(t)] + rest)[1..] == rest;
  }

  // Merging a text with the text before it.
  lemma MergeTexts(frames: seq<Frame>, before: seq<Node>, t: string, k: nat)
    requires before != [] && before[|before| - 1].Text? && k <= |t|
    ensures var b, init := before[|before| - 1].s, before[..|before| - 1];
            && (b + t)[|b| + k..] == t[k..]
            && Pre(frames, init) + Chars((b + t)[..|b| + k]) == Pre(frames, before) + Chars(t[..k])
            && (PlainAll(before) ==> PlainText(b) && PlainAll(init))
  {
    hide Pre, Flat, Chars;
    var b, init := before[|before| - 1].s, before[..|before| - 1];
    assert before == init + [Text(b)];
    assert (b + t)[..|b| + k] == b + t[..k];
    CharsAppend(b, t[..k]);
    TextAround(frames, init, b, []);
    Assoc(Pre(frames, init), Chars(b), Chars(t[..k]));
    PlainAppend(init, [Text(b)]);
  }

  // ---- The terminal ----

  class Terminal {
    // The place of the input line: the spans it is in, and its siblings before and after.
    var frames: seq<Frame>
    var before: seq<Node>
    var after: seq<Node>
    // -1 where not known.
    var currentCursorLine: int
    var currentCursorColumn: int
    var savedCursorLine: nat
    var savedCursorColumn: nat

    constructor (kids: seq<Node>)
      requires PlainAll(kids)
      ensures Valid() && CacheOk() && Doc() == [Input] + kids
    {
      frames, before, after := [], [], kids;
      currentCursorLine, currentCursorColumn := -1, -1;
      savedCursorLine, savedCursorColumn := 0, 0;
      new;
      assert before + [Input] + after == [Input] + kids;
    }

    predicate Valid()
      reads this
    {
      PlainFrames(frames) && PlainAll(before) && PlainAll(after)
    }

    // The children of cursorHome.
    function Doc(): seq<Node>
      reads this
    {
      Plug(frames, before + [Input] + after)
    }

    ghost function Shown(): Place
      reads this
    {
      Place(Pre(frames, before), Post(frames, after))
    }

    // The nodes without the input line.
    ghost function Tree(): seq<Node>
      reads this
    {
      Plug(frames, before + after)
    }

    // Where the cursor is, recomputed.
    function Recomputed(): Delta
      reads this
    {
      DeltaKids(Doc(), HOME)
    }

    // What the cache holds, and what it should.
    function Cursor(): (int, int)
      reads this
    {
      (currentCursorLine, currentCursorColumn)
    }

    function Truth(): (int, int)
      reads this
    {
      (Recomputed().pos.line, Recomputed().pos.col)
    }

    predicate CacheOk()
      reads this
    {
      && (currentCursorLine >= 0 ==> currentCursorLine == Recomputed().pos.line)
      && (currentCursorColumn >= 0 ==> currentCursorColumn == Recomputed().pos.col)
    }

    lemma RecomputedIsMeasure()
      requires Valid()
      ensures Recomputed() == Delta(Measure(HOME, Shown().pre), true)
    {
      DeltaPlug(frames, before, after);
    }

    method UpdateCursorCache()
      requires Valid()
      modifies this`currentCursorLine, this`currentCursorColumn
      ensures Valid() && Doc() == old(Doc()) && Shown() == old(Shown())
      ensures Cursor() == Truth() && CacheOk()
    {
      var lcol := DeltaKids(Doc(), HOME);
      currentCursorLine, currentCursorColumn := lcol.pos.line, lcol.pos.col;
    }

    // From the cache, if it is there: right or wrong.
    method GetCursorLine() returns (line: nat)
      requires Valid()
      modifies this`currentCursorLine, this`currentCursorColumn
      ensures Valid() && Doc() == old(Doc()) && Shown() == old(Shown()) && (old(CacheOk()) ==> CacheOk())
      ensures line == currentCursorLine
      ensures Cursor() == if old(currentCursorLine) < 0 then Truth() else old(Cursor())
    {
      if currentCursorLine < 0 {
        UpdateCursorCache();
      }
      line := currentCursorLine;
    }

    method GetCursorColumn() returns (column: nat)
      requires Valid()
      modifies this`currentCursorLine, this`currentCursorColumn
      ensures Valid() && Doc() == old(Doc()) && Shown() == old(Shown()) && (old(CacheOk()) ==> CacheOk())
      ensures column == currentCursorColumn
      ensures Cursor() == if old(currentCursorColumn) < 0 then Truth() else old(Cursor())
    {
      if currentCursorColumn < 0 {
        UpdateCursorCache();
      }
      column := currentCursorColumn;
    }

    // The text node that is current: texts before it are merged into it, and it is walked to
    // its end, or split at the goal. Blank space goes in before a newline on the goal's line.
    method WalkText(goalLine: nat, goalColumn: nat, line0: nat, column0: nat)
      returns (line: nat, column: nat)
      requires Valid() && after != [] && after[0].Text? && Pos(line0, column0).Le(Pos(goalLine, goalColumn))
      modifies this`before, this`after
      ensures Valid() && after != [] && after[0].Text? && Pos(line, column).Le(Pos(goalLine, goalColumn))
      ensures after[1..] == old(after[1..]) || Pos(line, column) == Pos(goalLine, goalColumn)
      ensures Go(Pre(frames, before + [after[0]]), Post(frames, after[1..]), Pos(line, column),
                 Pos(goalLine, goalColumn)) ==
              Go(old(Shown().pre), old(Shown().post), Pos(line0, column0), Pos(goalLine, goalColumn))
      ensures Bones(Tree()) == old(Bones(Tree()))
    {
      hide Go, Pre, Post, PlainFrames, PlainAll, Chars, Walked;
      hide Repeat, UpdateColumn, Tok.Step, Tok.NewLine, Bones, Plug;
      ghost var goal := Pos(goalLine, goalColumn);
      ghost var g := Go(Shown().pre, Shown().post, Pos(line0, column0), goal);
      ghost var rest, pre0, text0, before0 := after[1..], Pre(frames, before), after[0].s, before;
      assert before + after == before0 + [Text(text0)] + rest;
      var tnode, tstart: nat := after[0].s, 0;
      assert after == [Text(tnode)] + rest;
      ghost var bones := Bones(before);
      BonesOf(before, Text(tnode), rest);
      TextAround(frames, before, tnode, rest);
      while before != [] && before[|before| - 1].Text?
        invariant tstart <= |tnode| && after == [Text(tnode)] + rest && PlainText(tnode) && PlainAll(before)
        invariant tnode[tstart..] == text0 && Pre(frames, before) + Chars(tnode[..tstart]) == pre0
        invariant Bones(before) == bones
        decreases |before|
      {
        MergeTexts(frames, before, tnode, tstart);
        BonesOf(before[..|before| - 1], before[|before| - 1], []);
        assert before == before[..|before| - 1] + [before[|before| - 1]];
        var beforeData := before[|before| - 1].s;
        tstart := tstart + |beforeData|;
        tnode := beforeData + tnode;
        before := before[..|before| - 1];
        after := [Text(tnode)] + after[1..];
      }
      var text := tnode;
      var tlen: int := |text|;
      ghost var pre1, post1, before1 := Pre(frames, before), Post(frames, rest), before;
      line, column := line0, column0;
      TextAround(frames, before, text0, rest);
      WalkedStart(pre0, Post(frames, [Text(text0)] + rest), pre1, tnode, tstart, post1, Pos(line, column), goal);
      var i: int := tstart;
      while i < tlen
        invariant 0 <= i <= tlen == |tnode| && Pos(line, column).Le(goal)
        invariant after == [Text(tnode)] + rest && before == before1
        invariant Pos(line, column) == goal || text == tnode
        invariant Walked(g, pre1, tnode, i, post1, Pos(line, column), goal)
        decreases if Pos(line, column) == goal then 0 else 1, tlen - i
      {
        WalkedFacts(g, pre1, tnode, i, post1, Pos(line, column), goal);
        if line >= goalLine && column >= goalColumn {
          after := [Text(tnode[..i]), Text(tnode[i..])] + after[1..];
          TextAround(frames, before, tnode[..i], rest);
          TextAround(frames, before, tnode[i..], rest);
          TextAround(frames, before, tnode[..i], [Text(tnode[i..])] + rest);
          assert after == [Text(tnode[..i])] + ([Text(tnode[i..])] + rest);
          BonesOf(before, Text(tnode[..i]), [Text(tnode[i..])] + rest);
          BonesOf(before, Text(tnode[i..]), rest);
          BonesOf(before, Text(text0), after);
          BonesPlug(frames, before0 + [Text(text0)] + rest, before + after);
          return;
        }
        var ch := text[i];
        PlainStep(ch, Pos(line, column));
        var nextColumn := UpdateColumn(ch, column);
        if nextColumn == -1 {
          if line == goalLine {
            var nspaces := goalColumn - column;
            WalkedFill(g, pre1, tnode, i, post1, Pos(line, column), goal);
            var spaces := MakeSpaces(nspaces);
            tnode := tnode[..i] + spaces + tnode[i..];
            after := [Text(tnode)] + after[1..];
            tlen := tlen + nspaces;
            i := i + nspaces;
            column := goalColumn;
            i := i - 1;
          } else {
            WalkedNext(g, pre1, tnode, i, post1, Pos(line, column), goal);
            line := line + 1;
            column := 0;
          }
        } else {
          WalkedNext(g, pre1, tnode, i, post1, Pos(line, column), goal);
          column := nextColumn;
        }
        i := i + 1;
      }
      WalkedFacts(g, pre1, tnode, i, post1, Pos(line, column), goal);
      TextAround(frames, before, tnode, rest);
      BonesOf(before, Text(tnode), rest);
      BonesOf(before, Text(tnode), after);
      BonesPlug(frames, before0 + [Text(text0)] + rest, before + after);
    }

    // current is a br: on the goal's line the spaces go before it, into the text there if
    // there is one.
    method SpacesBeforeBreak(n: nat)
      requires Valid() && after != [] && after[0].Br?
      modifies this`before
      ensures Valid() && Pre(frames, before) == old(Pre(frames, before)) + Spaces(n)
      ensures Bones(Tree()) == old(Bones(Tree()))
    {
      hide Pre, Chars, Repeat, PlainFrames, PlainAll, Bones, Plug;
      ghost var level := before + after;
      var str := MakeSpaces(n);
      if before != [] && before[|before| - 1].Text? {
        MergeTexts(frames, before, "", 0);
        var t, init := before[|before| - 1].s, before[..|before| - 1];
        assert before == init + [Text(t)];
        TextAround(frames, init, t, []);
        TextAround(frames, init, t + str, []);
        CharsAppend(t, str);
        Assoc(Pre(frames, init), Chars(t), Chars(str));
        SpacesPlain(n);
        BonesOf(init, Text(t), after);
        BonesOf(init, Text(t + str), after);
        before := init + [Text(t + str)];
      } else {
        TextAround(frames, before, str, []);
        SpacesPlain(n);
        BonesOf(before, Text(str), after);
        before := before + [Text(str)];
      }
      BonesPlug(frames, level, before + after);
    }

    // appendText, at the end of cursorHome.
    method AppendText(data: string)
      requires Valid() && frames == [] && after == [] && PlainText(data)
      modifies this`before
      ensures Valid() && Pre(frames, before) == old(Pre(frames, before)) + Chars(data)
      ensures Bones(Tree()) == old(Bones(Tree()))
    {
      hide Pre, Chars, PlainFrames, PlainAll, Bones, Plug;
      ghost var level := before + after;
      if |data| == 0 {
        NoChars(Pre(frames, before));
        return;
      }
      if before != [] && before[|before| - 1].Text? {
        MergeTexts(frames, before, "", 0);
        var t, init := before[|before| - 1].s, before[..|before| - 1];
        assert before == init + [Text(t)];
        TextAround(frames, init, t, []);
        TextAround(frames, init, t + data, []);
        CharsAppend(t, data);
        Assoc(Pre(frames, init), Chars(t), Chars(data));
        BonesOf(init, Text(t), after);
        BonesOf(init, Text(t + data), after);
        before := init + [Text(t + data)];
      } else {
        TextAround(frames, before, data, []);
        BonesOf(before, Text(data), after);
        before := before + [Text(data)];
      }
      BonesPlug(frames, level, before + after);
    }

    // Out of the spans whose last child has been passed, to the next node after one of them.
    method Climb() returns (ended: bool)
      requires Valid() && after == []
      modifies this`frames, this`before, this`after
      ensures Valid() && Shown() == old(Shown()) && Tree() == old(Tree())
      ensures if ended then frames == [] && after == []
              else after != [] && Load(frames, after) < old(Load(frames, after))
      ensures Load(frames, after) <= old(Load(frames, after))
    {
      hide Pre, Post, PlainFrames, PlainAll, WeightAll;
      while after == []
        invariant Valid() && Shown() == old(Shown()) && Load(frames, after) <= old(Load(frames, after))
        invariant Tree() == old(Tree())
        invariant after != [] ==> Load(frames, after) < old(Load(frames, after))
        decreases if after == [] then 1 else 0, |frames|
      {
        if frames == [] {
          return true;
        }
        var f := frames[|frames| - 1];
        Popped(frames, before);
        assert before + [] == before;
        frames, before, after := frames[..|frames| - 1], f.before + [Span(before)], f.after;
      }
      ended := false;
    }

    // moveTo(cursorHome, goalLine, goalColumn, true). The input line is out of the tree while
    // the walk lasts, and goes back in where it ends. A cache that is wrong stays so if the
    // walk starts from it and stays on the line, or if its line is wrong; a walk from home
    // does not ask for it.
    method MoveTo(goalLine: nat, goalColumn: nat)
      requires Valid()
      modifies this`frames, this`before, this`after, this`currentCursorLine, this`currentCursorColumn
      ensures Valid() && currentCursorLine == goalLine && currentCursorColumn == goalColumn
      ensures var was, goal := old(Shown()), Pos(goalLine, goalColumn);
              var line, column := old(currentCursorLine), old(currentCursorColumn);
              Shown() == if 0 <= line && 0 <= column && Pos(line, column).Le(goal)
                         then Go(was.pre, was.post, Pos(line, column), goal)
                         else Go([], was.pre + was.post, HOME, goal)
      ensures old(Usable(Pos(goalLine, goalColumn))) ==>
                (CacheOk() <==>
                 Reaches(old(Recomputed().pos), old(Cached()), old(Shown().post), Pos(goalLine, goalColumn)))
      ensures old(CacheOk()) || !old(Usable(Pos(goalLine, goalColumn))) ==>
                (CacheOk() <==> old(LineExists(goalLine)) || old(LastColumn()) == 0 || goalColumn == 0)
      ensures forall l: nat :: old(LineExists(l)) ==> LineExists(l)
      ensures Bones(Doc()) == old(Bones(Doc()))
    {
      hide Go, Measure, Pre, Post, Plug, Recomputed, PlainFrames, PlainAll, Bones, Reaches;
      BonesOfDoc();
      ghost var was, goal := Shown(), Pos(goalLine, goalColumn);
      ghost var g := Destination(was, Usable(goal), Cached(), goal);
      RecomputedIsMeasure();
      var line: nat, column: nat := 0, 0;
      if currentCursorLine >= 0 && currentCursorColumn >= 0 && goalLine >= currentCursorLine
         && (goalLine > currentCursorLine || goalColumn >= currentCursorColumn) {
        line, column := currentCursorLine, currentCursorColumn;
      } else {
        Rewound(frames, before, after);
        assert [] + Plug(frames, before + after) == Plug(frames, before + after);
        frames, before, after := [], [], Plug(frames, before + after);
      }
      Walk(goalLine, goalColumn, line, column);
      currentCursorLine, currentCursorColumn := goalLine, goalColumn;
      RecomputedIsMeasure();
      DestinationMeasure(was, old(Usable(goal)), old(Cached()), goal);
      BonesOfDoc();
    }

    lemma BonesOfDoc()
      ensures Bones(Doc()) == Bones(Tree())
    {
      BonesOf(before, Input, after);
      BonesPlug(frames, before + [Input] + after, before + after);
    }

    method SaveCursor()
      requires Valid()
      modifies this`currentCursorLine, this`currentCursorColumn, this`savedCursorLine, this`savedCursorColumn
      ensures Valid() && (old(CacheOk()) ==> CacheOk()) && Doc() == old(Doc()) && Shown() == old(Shown())
      ensures Recomputed() == old(Recomputed())
      ensures savedCursorLine == if old(currentCursorLine) < 0 then Truth().0 else old(currentCursorLine)
      ensures savedCursorColumn ==
              if old(currentCursorLine) < 0 || old(currentCursorColumn) < 0 then Truth().1 else old(currentCursorColumn)
      ensures old(CacheOk()) ==> Pos(savedCursorLine, savedCursorColumn) == Recomputed().pos
    {
      savedCursorLine := GetCursorLine();
      savedCursorColumn := GetCursorColumn();
    }

    method RestoreCursor()
      requires Valid()
      modifies this`frames, this`before, this`after, this`currentCursorLine, this`currentCursorColumn
      ensures Valid() && currentCursorLine == savedCursorLine && currentCursorColumn == savedCursorColumn
      ensures old(CacheOk()) || !old(Usable(Pos(savedCursorLine, savedCursorColumn))) ==>
                old(LineExists(savedCursorLine)) ==> CacheOk()
      ensures Bones(Doc()) == old(Bones(Doc()))
    {
      MoveTo(savedCursorLine, savedCursorColumn);
    }

    // Any moves to column 0 or to lines that exist, between a save and a restore, leave the
    // cursor where it was.
    method Excursion(goals: seq<Pos>)
      requires Valid() && CacheOk()
      requires forall i :: 0 <= i < |goals| ==> goals[i].col == 0 || LineExists(goals[i].line)
      modifies this
      ensures Valid() && CacheOk() && Recomputed().pos == old(Recomputed().pos)
      ensures Bones(Doc()) == old(Bones(Doc()))
    {
      hide Recomputed, Shown, Doc, Bones;
      CursorLineExists();
      SaveCursor();
      for i := 0 to |goals|
        invariant Valid() && CacheOk() && Pos(savedCursorLine, savedCursorColumn) == old(Recomputed().pos)
        invariant LineExists(savedCursorLine) && Bones(Doc()) == old(Bones(Doc()))
        invariant forall j :: 0 <= j < |goals| ==> goals[j].col == 0 || LineExists(goals[j].line)
      {
        MoveTo(goals[i].line, goals[i].col);
      }
      RestoreCursor();
    }

    lemma CursorLineExists()
      requires Valid()
      ensures LineExists(Recomputed().pos.line)
    {
      RecomputedIsMeasure();
      MeasureAppend(HOME, Shown().pre, Shown().post);
      LinesGrow(Measure(HOME, Shown().pre), Shown().post);
    }

    ghost function Cached(): Pos
      reads this
    {
      if currentCursorLine >= 0 && currentCursorColumn >= 0 then Pos(currentCursorLine, currentCursorColumn) else HOME
    }

    // The walk may start from the cached position.
    ghost predicate Usable(goal: Pos)
      reads this
    {
      currentCursorLine >= 0 && currentCursorColumn >= 0 && Cached().Le(goal)
    }

    ghost predicate LineExists(line: nat)
      reads this
    {
      Measure(HOME, Shown().pre + Shown().post).line >= line
    }

    // The column behind the last character of the screen.
    ghost function LastColumn(): nat
      reads this
    {
      Measure(HOME, Shown().pre + Shown().post).col
    }

    // The end of cursorHome: blank lines and spaces are appended.
    method AppendBlanks(goalLine: nat, goalColumn: nat, line: nat, column: nat)
      requires Valid() && frames == [] && after == [] && Pos(line, column).Le(Pos(goalLine, goalColumn))
      modifies this`before
      ensures Valid()
      ensures Shown() == Go(old(Shown().pre), [], Pos(line, column), Pos(goalLine, goalColumn))
      ensures Bones(Tree()) == old(Bones(Tree()))
    {
      hide Pre, PlainFrames, PlainAll, Chars, Repeat, Bones, Plug;
      NoBlanks(Pre(frames, before), Pos(line, column), Pos(goalLine, goalColumn));
      if line < goalLine {
        var sb := MakeNewlines(goalLine - line);
        SpacesPlain(goalLine - line);
        AppendText(sb);
      }
      var fill := goalColumn - column;
      if fill > 0 {
        var spaces := MakeSpaces(fill);
        SpacesPlain(fill);
        AppendText(spaces);
      }
    }

    // The place behind the current node, if that is a leaf.
    ghost function PastLeaf(): Place
      reads this
    {
      if after != [] && !after[0].Span? then Place(Pre(frames, before + [after[0]]), Post(frames, after[1..]))
      else Shown()
    }

    // What the loop does with a br or a text: done, or ready to pass it.
    method Visit(goalLine: nat, goalColumn: nat, line0: nat, column0: nat)
      returns (line: nat, column: nat, done: bool)
      requires Valid() && Pos(line0, column0).Le(Pos(goalLine, goalColumn))
      requires Pos(line0, column0) != Pos(goalLine, goalColumn)
      modifies this`before, this`after
      ensures Valid() && Pos(line, column).Le(Pos(goalLine, goalColumn))
      ensures var goal, past := Pos(goalLine, goalColumn), PastLeaf();
              (if done then Shown() else Go(past.pre, past.post, Pos(line, column), goal)) ==
              Go(old(Shown().pre), old(Shown().post), Pos(line0, column0), goal)
      ensures Load(frames, after) == old(Load(frames, after)) || Pos(line, column) == Pos(goalLine, goalColumn)
      ensures Bones(Tree()) == old(Bones(Tree()))
    {
      hide Pre, Post, PlainFrames, PlainAll, OuterWeight, Flat, Go, WeightAll, Bones, Plug;
      line, column, done := line0, column0, false;
      if after != [] {
        Passed(frames, before, after);
      }
      if after != [] && after[0].Br? {
        GoBr(Pre(frames, before), Post(frames, after[1..]), Pos(line, column), Pos(goalLine, goalColumn));
        if line == goalLine {
          SpacesBeforeBreak(goalColumn - column);
          column := goalColumn;
          done := true;
        } else {
          line := line + 1;
          column := 0;
        }
      } else if after != [] && after[0].Text? {
        WeightFirst(after);
        line, column := WalkText(goalLine, goalColumn, line, column);
        WeightFirst(after);
      }
    }

    // To the first child, the next sibling, or the next node after an open span.
    method Advance() returns (ended: bool)
      requires Valid()
      modifies this`frames, this`before, this`after
      ensures Valid() && Shown() == old(PastLeaf()) && Tree() == old(Tree())
      ensures if ended then frames == [] && after == [] else Load(frames, after) < old(Load(frames, after))
    {
      hide Pre, Post, PlainFrames, PlainAll, Load, Flat;
      if after != [] {
        if after[0].Span? && after[0].kids != [] {
          assert after == [after[0]] + after[1..];
          Pushed(frames, before, after[0].kids, after[1..]);
          PlugPushed(frames, before, after[0].kids, after[1..]);
          frames, before, after := frames + [Frame(before, after[1..])], [], after[0].kids;
          return false;
        }
        Passed(frames, before, after);
        if after[0].Span? {
          FlatEmptySpan(after[0], Pre(frames, before), Post(frames, after[1..]));
        }
        assert before + [after[0]] + after[1..] == before + after;
        before, after := before + [after[0]], after[1..];
        if after != [] {
          return false;
        }
      }
      ended := Climb();
    }

    // The main loop.
    method Walk(goalLine: nat, goalColumn: nat, line0: nat, column0: nat)
      requires Valid() && Pos(line0, column0).Le(Pos(goalLine, goalColumn))
      modifies this`frames, this`before, this`after
      ensures Valid()
      ensures Shown() == Go(old(Shown().pre), old(Shown().post), Pos(line0, column0), Pos(goalLine, goalColumn))
      ensures Bones(Tree()) == old(Bones(Tree()))
    {
      hide Pre, PlainFrames, PlainAll, Load, Flat, PastLeaf, Bones, Plug;
      ghost var goal := Pos(goalLine, goalColumn);
      ghost var g := Go(Shown().pre, Shown().post, Pos(line0, column0), goal);
      var line: nat, column: nat, done := line0, column0, false;
      while line < goalLine || column < goalColumn
        invariant Valid() && Pos(line, column).Le(goal)
        invariant Go(Shown().pre, Shown().post, Pos(line, column), goal) == g
        invariant Bones(Tree()) == old(Bones(Tree()))
        decreases if Pos(line, column) == goal then 0 else 1, Load(frames, after)
      {
        line, column, done := Visit(goalLine, goalColumn, line, column);
        if done {
          break;
        }
        var ended := Advance();
        if ended {
          NoneFlat();
          AppendBlanks(goalLine, goalColumn, line, column);
          break;
        }
      }
    }
  }

  method MakeNewlines(n: nat) returns (sb: string)
    ensures sb == Repeat('\n', n)
  {
    sb := "";
    for line := 0 to n
      invariant sb == Repeat('\n', line)
    {
      sb := sb + "\n";
    }
  }

  lemma NoBlanks(pre: seq<Tok>, p: Pos, goal: Pos)
    requires p.Le(goal)
    ensures Go(pre, [], p, goal) == Place(pre + Appended(p, goal), [])
    ensures pre + Chars(Repeat('\n', goal.line - p.line)) + Spaces(if goal.col > p.col then goal.col - p.col else 0) ==
            pre + Appended(p, goal)
    ensures p.line == goal.line ==> pre + Chars(Repeat('\n', goal.line - p.line)) == pre
    ensures goal.col <= p.col ==> forall ts: seq<Tok> :: ts + Spaces(0) == ts
    ensures Repeat('\n', 0) == "" && Post([], []) == []
  {
  }

  lemma FlatEmptySpan(n: Node, pre: seq<Tok>, post: seq<Tok>)
    requires n == Span([])
    ensures Flat([n]) == [] && pre + Flat([n]) == pre && Flat([n]) + post == post
  {
    FlatSpan([]);
    NoneFlat();
  }

  // Where moveTo goes.
  ghost function Destination(was: Place, usable: bool, cached: Pos, goal: Pos): Place
    requires usable ==> cached.Le(goal)
  {
    if usable then Go(was.pre, was.post, cached, goal) else Go([], was.pre + was.post, HOME, goal)
  }

  lemma DestinationMeasure(was: Place, usable: bool, cached: Pos, goal: Pos)
    requires usable ==> cached.Le(goal)
    ensures var all, at := Measure(HOME, was.pre + was.post), Measure(HOME, was.pre);
            var there := Measure(HOME, Destination(was, usable, cached, goal).pre) == goal;
            && (usable ==> (there <==> Reaches(at, cached, was.post, goal)))
            && (!usable || cached == at ==>
                  (there <==> all.line >= goal.line || all.col == 0 || goal.col == 0))
    ensures var to := Destination(was, usable, cached, goal);
            Measure(HOME, to.pre + to.post).line >= Measure(HOME, was.pre + was.post).line
  {
    hide Measure, Go, Reaches;
    if usable {
      GoReaches(was.pre, was.post, cached, goal);
      GoGrows(was.pre, was.post, cached, goal);
      if cached == Measure(HOME, was.pre) {
        GoMeasure(was.pre, was.post, cached, goal);
      }
    } else {
      assert [] + (was.pre + was.post) == was.pre + was.post;
      NothingMore(HOME);
      GoMeasure([], was.pre + was.post, HOME, goal);
      GoGrows([], was.pre + was.post, HOME, goal);
    }
  }

  lemma Rewound(frames: seq<Frame>, before: seq<Node>, after: seq<Node>)
    requires PlainFrames(frames) && PlainAll(before) && PlainAll(after)
    ensures Pre([], []) == [] && Post([], Plug(frames, before + after)) == Pre(frames, before) + Post(frames, after)
    ensures PlainAll(Plug(frames, before + after)) && PlainAll([]) && PlainFrames([])
    ensures Plug([], Plug(frames, before + after)) == Plug(frames, before + after)
  {
    FlatPlug(frames, before, after);
    PlainAppend(before, after);
    PlainPlug(frames, before + after);
  }

  lemma GoBr(pre: seq<Tok>, rest: seq<Tok>, p: Pos, goal: Pos)
    requires p.Le(goal) && p != goal
    ensures Flat([Br]) == [Brk]
    ensures Go(pre, [Brk] + rest, p, goal) ==
            if p.line == goal.line then Place(pre + Spaces(goal.col - p.col), [Brk] + rest)
            else Go(pre + [Brk], rest, Pos(p.line + 1, 0), goal)
  {
    hide Flat, Spaces, Appended;
    FlatBr();
    var post := [Brk] + rest;
    assert post[0] == Brk && post[1..] == rest;
    assert post[0].Step(p) == Pos(p.line + 1, 0);
  }

  lemma FlatBr()
    ensures Flat([Br]) == [Brk]
  {
    assert Flat([Br][1..]) == [];
  }

  lemma SpacesPlain(n: nat)
    ensures PlainText(Repeat(' ', n)) && PlainText(Repeat('\n', n))
  {
  }

  lemma NoChars(pre: seq<Tok>)
    ensures pre + Chars("") == pre && Chars("") == []
  {
  }

  lemma Popped(frames: seq<Frame>, before: seq<Node>)
    requires frames != [] && PlainFrames(frames) && PlainAll(before)
    ensures var f, outer := frames[|frames| - 1], frames[..|frames| - 1];
            && Pre(outer, f.before + [Span(before)]) == Pre(frames, before) && Post(outer, f.after) == Post(frames, [])
            && PlainFrames(outer) && PlainAll(f.before + [Span(before)]) && PlainAll(f.after)
            && Load(outer, f.after) < Load(frames, [])
  {
    hide Flat, WeightAll;
    var f, outer := frames[|frames| - 1], frames[..|frames| - 1];
    FlatSpan(before);
    PostAppend(outer, f.before, [Span(before)]);
    PlainAppend(f.before, [Span(before)]);
    NoneFlat();
  }

  lemma NoneFlat()
    ensures Flat([]) == [] && WeightAll([]) == 0 && Post([], []) == []
  {
  }

  lemma WeightFirst(ns: seq<Node>)
    requires ns != []
    ensures WeightAll(ns) == Weight(ns[0]) + WeightAll(ns[1..])
  {
  }

  lemma Pushed(frames: seq<Frame>, before: seq<Node>, kids: seq<Node>, rest: seq<Node>)
    requires PlainFrames(frames) && PlainAll(before) && PlainAll([Span(kids)] + rest)
    ensures var inner := frames + [Frame(before, rest)];
            && Pre(inner, []) == Pre(frames, before) && Post(inner, kids) == Post(frames, [Span(kids)] + rest)
            && PlainFrames(inner) && PlainAll(kids) && PlainAll([])
            && Load(inner, kids) < Load(frames, [Span(kids)] + rest)
  {
    hide Flat;
    var inner := frames + [Frame(before, rest)];
    assert inner[..|inner| - 1] == frames;
    WeightFirst([Span(kids)] + rest);
    NoneFlat();
    FlatSpan(kids);
    PostAppend(frames, [Span(kids)], rest);
    PlainAppend([Span(kids)], rest);
    assert ([Span(kids)] + rest)[1..] == rest;
  }

  lemma PlugPushed(frames: seq<Frame>, before: seq<Node>, kids: seq<Node>, rest: seq<Node>)
    ensures Plug(frames + [Frame(before, rest)], [] + kids) == Plug(frames, before + ([Span(kids)] + rest))
  {
    var inner := frames + [Frame(before, rest)];
    assert inner[..|inner| - 1] == frames && [] + kids == kids;
    assert before + [Span(kids)] + rest == before + ([Span(kids)] + rest);
  }

  lemma Passed(frames: seq<Frame>, before: seq<Node>, after: seq<Node>)
    requires after != [] && PlainAll(before) && PlainAll(after)
    ensures Pre(frames, before + [after[0]]) + Post(frames, after[1..]) == Pre(frames, before) + Post(frames, after)
    ensures Pre(frames, before + [after[0]]) == Pre(frames, before) + Flat([after[0]])
    ensures Post(frames, after) == Flat([after[0]]) + Post(frames, after[1..])
    ensures PlainAll(before + [after[0]]) && PlainAll(after[1..]) && !after[0].Input?
    ensures Load(frames, after[1..]) < Load(frames, after)
  {
    hide Flat, WeightAll;
    WeightFirst(after);
    assert after == [after[0]] + after[1..];
    PostAppend(frames, before, [after[0]]);
    PostAppend(frames, [after[0]], after[1..]);
    PlainAppend(before, [after[0]]);
    PlainAppend([after[0]], after[1..]);
    Assoc(Pre(frames, before), Flat([after[0]]), Post(frames, after[1..]));
  }
}