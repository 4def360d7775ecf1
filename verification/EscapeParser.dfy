// WebTerminal.java, insertString: the escape-sequence state machine, which shows the text
// between control sequences in slices.

module EscapeParser {
  import Grids
  import Seqs
  import T = TermScreen

  type int32 = n: int | -0x8000_0000 <= n < 0x8000_0000

  // Java's int arithmetic.
  function Wrap32(n: int): int32 {
    (n + 0x8000_0000) % 0x1_0000_0000 - 0x8000_0000
  }

  const ESC: char := '\U{1B}'
  const BEL: char := '\U{07}'
  const NUL: char := '\U{00}'
  const BS: char := '\U{08}'

  predicate IsDigit(ch: char) {
    '0' <= ch <= '9'
  }

  // controlSequenceState
  datatype Control = Initial | SeenEsc | SeenEscLbracket | SeenEscLbracketQuestion | SeenEscRbracket
                   | SeenEscBracketText

  // What is done to the screen: a character is shown, or a control is carried out. Lf, Tab and
  // the like stand for all that is done for that character.
  datatype Act = Chr(c: char) | Cr | CrLf | Lf | Backspace | Bell | Tab | Save | Restore | ReverseIndex
               | Csi(args: seq<int32>, question: bool, last: char) | Osc(code: int32, text: string)

  // ---- The one-character machine ----

  datatype Parser = Parser(ctl: Control, prev: seq<int32>, cur: int32, text: string)

  const READY := Parser(Initial, [], -1, "")

  // curNumParameter with one more digit.
  function AddDigit(cur: int32, ch: char): int32
    requires IsDigit(ch)
  {
    var shifted := if cur >= 0 then Wrap32(10 * cur) else 0;
    Wrap32(shifted + (ch as int - '0' as int))
  }

  function InitialAct(ch: char): Act {
    if ch == '\r' then Cr
    else if ch == '\n' then Lf
    else if ch == BS then Backspace
    else if ch == BEL then Bell
    else if ch == '\t' then Tab
    else Chr(ch)
  }

  // One character: the parser's next state, and what is done, if anything.
  function Feed(p: Parser, ch: char): (Parser, seq<Act>) {
    match p.ctl
    case Initial =>
      if ch == ESC then (p.(ctl := SeenEsc), []) else (p, [InitialAct(ch)])
    case SeenEsc =>
      if ch == '[' then (Parser(SeenEscLbracket, [], -1, ""), [])
      else if ch == ']' then (Parser(SeenEscRbracket, [], -1, ""), [])
      else if ch == '7' then (READY, [Save])
      else if ch == '8' then (READY, [Restore])
      else if ch == 'M' then (READY, [ReverseIndex])
      else (READY, [])
    case SeenEscLbracket => FeedNumbers(p, ch)
    case SeenEscLbracketQuestion => FeedNumbers(p, ch)
    case SeenEscRbracket =>
      if IsDigit(ch) then (p.(cur := AddDigit(p.cur, ch)), [])
      else if ch == ';' then (p.(ctl := SeenEscBracketText, text := ""), [])
      else (READY, [])
    case SeenEscBracketText =>
      if ch == BEL || ch == NUL then (READY, [Osc(p.cur, p.text)]) else (p.(text := p.text + [ch]), [])
  }

  function FeedNumbers(p: Parser, ch: char): (Parser, seq<Act>) {
    if IsDigit(ch) then (p.(cur := AddDigit(p.cur, ch)), [])
    else if ch == ';' then (p.(prev := p.prev + [p.cur], cur := -1), [])
    else if ch == '?' then (p.(ctl := SeenEscLbracketQuestion), [])
    else (READY, [Csi(p.prev + [p.cur], p.ctl == SeenEscLbracketQuestion, ch)])
  }

  function FeedAll(p: Parser, s: string): (Parser, seq<Act>)
    decreases |s|
  {
    if s == [] then (p, [])
    else
      var (q, acts) := Feed(p, s[0]);
      var (r, more) := FeedAll(q, s[1..]);
      (r, acts + more)
  }

  lemma {:induction false} FeedAppend(p: Parser, a: string, b: string)
    ensures var (q, acts) := FeedAll(p, a);
            var (r, more) := FeedAll(q, b);
            FeedAll(p, a + b) == (r, acts + more)
    decreases |a|
  {
    hide Feed;
    if a == [] {
      assert a + b == b;
      assert [] + FeedAll(p, b).1 == FeedAll(p, b).1;
    } else {
      assert (a + b)[0] == a[0] && (a + b)[1..] == a[1..] + b;
      var (q, acts) := Feed(p, a[0]);
      FeedAppend(q, a[1..], b);
      var (r, more) := FeedAll(q, a[1..]);
      assert acts + (more + FeedAll(r, b).1) == acts + more + FeedAll(r, b).1;
    }
  }

  lemma FeedThen(p: Parser, a: string, q: Parser, b: string, r: Parser, more: seq<Act>)
    requires FeedAll(p, a) == (q, []) && FeedAll(q, b) == (r, more)
    ensures FeedAll(p, a + b) == (r, more)
  {
    hide FeedAll;
    FeedAppend(p, a, b);
    assert [] + more == more;
  }

  lemma FeedOne(p: Parser, ch: char)
    ensures FeedAll(p, [ch]) == Feed(p, ch)
  {
    hide Feed;
    var (q, acts) := Feed(p, ch);
    assert [ch][1..] == [] && acts + [] == acts;
  }

  // ---- The machine on the screen: columns, wrapping and the look ahead at \r\n ----

  // -1 is a line or a column that is not known.
  type known = n: int | n >= -1

  // currentCursorLine and currentCursorColumn.
  datatype Cache = Cache(line: known, col: known)

  const RESET := Cache(-1, -1)

  type Located = c: Cache | c.col >= 0 witness Cache(0, 0)

  // A number for each way in which a control can change the screen.
  type Effect = nat

  // What has been done to the screen: a character was shown, which left the cache so, as the
  // place-th of its slice if that cannot be put together with the one before; a long line was
  // broken; the bell rang; a control was carried out; it left the cache so.
  datatype Done = Shown(c: char, cache: Cache, place: nat) | Broken | Rang | Did(act: Act, effect: Effect)
                | Left(cache: Cache)

  // What the screen says after what has been done to it: where delta2D finds the cursor; the
  // bottom of the scroll region; whether there is a tab in the text that would be replaced;
  // whether a backspace steps back over a character of one column; and what a control does
  // that finds the cache so, and how it leaves the cache: moves for those that leave a known
  // column, does for those of control sequences. insertMode is the mode at the start.
  datatype Screen = Screen(line: seq<Done> -> nat, column: seq<Done> -> nat, bottom: seq<Done> -> int,
                           tabs: seq<Done> -> bool, stepsBack: seq<Done> -> bool,
                           moves: (seq<Done>, Act, Cache) -> (Effect, Located),
                           does: (seq<Done>, Act, Cache) -> (Effect, Cache),
                           wrapWidth: nat, wrapOnLongLines: bool, lineEditing: bool, insertMode: bool)

  // column is what insertString counts on with; n characters wait to be shown as one slice;
  // apart says that the slice cannot be put together with others.
  datatype State = State(p: Parser, column: known, cache: Cache, n: nat, apart: bool, log: seq<Done>)

  predicate Counts(s: State) {
    if s.n == 0 then !s.apart else s.cache.col == s.column && (s.column == -1 ==> s.apart)
  }

  // A bell changes nothing on the screen.
  function Quiet(log: seq<Done>): (quiet: seq<Done>)
    ensures |quiet| <= |log|
  {
    if log != [] && log[|log| - 1] == Rang then Quiet(log[..|log| - 1]) else log
  }

  // What delta2D finds.
  function Measured(sc: Screen, log: seq<Done>): (c: Cache)
    ensures c.line >= 0 && c.col >= 0
  {
    Cache(sc.line(Quiet(log)), sc.column(Quiet(log)))
  }

  // getCursorColumn, at the start of a call and at the end of a control sequence: where the
  // column is not known, both are measured.
  function Reread(sc: Screen, cache: Cache, log: seq<Done>): (c: Cache)
    ensures c.col >= 0
  {
    if cache.col < 0 then Measured(sc, log) else cache
  }

  function Refresh(sc: Screen, s: State): State {
    var c := Reread(sc, s.cache, s.log);
    s.(cache := c, column := c.col, n := 0, apart := false)
  }

  // getCursorLine: where the line is not known, both are measured.
  function Lined(sc: Screen, s: State): (c: Cache)
    ensures c.line >= 0
  {
    if s.cache.line < 0 then Measured(sc, s.log) else s.cache
  }

  // Control sequences switch insert mode on and off.
  function InsertMode(sc: Screen, log: seq<Done>): bool {
    if log == [] then sc.insertMode
    else
      var rest := log[..|log| - 1];
      match log[|log| - 1]
      case Did(Csi(args, question, last), _) =>
        if !question && args != [] && args[|args| - 1] == 4 && (last == 'h' || last == 'l') then last == 'h'
        else InsertMode(sc, rest)
      case _ => InsertMode(sc, rest)
  }

  function LineBelow(line: known): known {
    if line < 0 then -1 else line + 1
  }

  // The column behind a character, and whether a break comes before it because it would
  // overflow the line.
  function NextColumn(sc: Screen, column: known, ch: char): known {
    var next := T.UpdateColumn(ch, column);
    if next > sc.wrapWidth then T.UpdateColumn(ch, 0) else next
  }

  predicate Breaks(sc: Screen, column: known, ch: char) {
    T.UpdateColumn(ch, column) > sc.wrapWidth && sc.wrapOnLongLines
  }

  // A slice, shown in one go, replaces as much old text as it takes columns, counted from
  // where the cursor is then, or the rest of the line if that is negative; tabs are replaced
  // whole. Two slices come to the same as one unless the count goes back or there is a tab. In
  // insert mode with long lines wrapped a slice moves the cursor to the cached place, and then
  // they do so only if that is where it is.
  datatype Start = Start(line: known, col: nat, apart: bool)

  function Begin(sc: Screen, cache: Cache, log: seq<Done>): Start {
    var c := Reread(sc, cache, log);
    if InsertMode(sc, log) && sc.wrapOnLongLines then
      var line := if c.line < 0 then Measured(sc, log).line else c.line;
      Start(line, c.col, sc.tabs(log) || Cache(line, c.col) != Measured(sc, log))
    else Start(c.line, c.col, sc.tabs(log))
  }

  // A character that waits, in the slice that waits or in a new one. A break, which counts
  // the line on, ends a slice.
  function ShowChar(sc: Screen, s: State, ch: char): (t: State)
    requires Counts(s)
    ensures Counts(t) && s.log <= t.log
  {
    var broken := Breaks(sc, s.column, ch);
    var log := if broken then s.log + [Broken] else s.log;
    var begins := broken || s.n == 0;
    var b := if begins then Begin(sc, if broken then Cache(LineBelow(s.cache.line), 0) else s.cache, log)
             else Start(s.cache.line, 0, s.apart);
    var next, n := NextColumn(sc, s.column, ch), if begins then 1 else s.n + 1;
    var apart := b.apart || next < (if begins then b.col else s.column);
    var c := Cache(b.line, next);
    State(s.p, next, c, n, apart, log + [Shown(ch, c, if apart then n else 0)])
  }

  predicate EndsSequence(act: Act) {
    act.Save? || act.Restore? || act.ReverseIndex? || act.Csi? || act.Osc?
  }

  function ReturnOutcome(sc: Screen, s: State): (Effect, Located) {
    var c := Lined(sc, s);
    var (effect, after) := sc.moves(s.log, Cr, c);
    (effect, Cache(c.line, after.col))
  }

  // What a control does, and how it leaves the cache. A move to the start of the next line
  // resets the cache: so does a line feed in line editing, outside insert mode. A backspace
  // that steps back counts back only from a column above 0. A carriage return stays on the
  // cached line, or asks for the line first.
  function Outcome(sc: Screen, s: State, act: Act): (Effect, Cache) {
    if act.CrLf? then (0, RESET)
    else if act.Cr? then ReturnOutcome(sc, s)
    else if act.Backspace? && sc.stepsBack(s.log) then
      (0, Cache(s.cache.line, if s.cache.col > 0 then s.cache.col - 1 else s.cache.col))
    else if act.Lf? && sc.lineEditing then
      (0, if InsertMode(sc, s.log) then Cache(LineBelow(s.cache.line), 0) else RESET)
    else if EndsSequence(act) then sc.does(s.log, act, s.cache)
    else sc.moves(s.log, act, s.cache)
  }

  // An act other than showing a character. Behind a control sequence the column is read again;
  // behind a carriage return it is counted from 0, whatever the cache holds.
  function Perform(sc: Screen, s: State, act: Act): (t: State)
    requires Counts(s)
    ensures Counts(t) && s.log <= t.log
  {
    if act.Bell? then s.(n := 0, apart := false, log := s.log + [Rang])
    else
      var (effect, after) := Outcome(sc, s, act);
      var log := s.log + [Did(act, effect)];
      var c := if EndsSequence(act) then Reread(sc, after, log) else after;
      State(s.p, if act.Cr? || act.CrLf? then 0 else c.col, c, 0, false, log + [Left(c)])
  }

  function Step(sc: Screen, s: State, ch: char): (t: State)
    requires Counts(s)
    ensures Counts(t) && s.log <= t.log
  {
    var (q, acts) := Feed(s.p, ch);
    if acts == [] then
      if q.ctl == Initial then Refresh(sc, s.(p := q)) else s.(p := q, column := s.cache.col, n := 0, apart := false)
    else if acts[0].Chr? then ShowChar(sc, s, ch)
    else Perform(sc, s.(p := q), acts[0])
  }

  // \r\n is one act, unless the cached line is the last one of the scroll region.
  predicate TakesBoth(sc: Screen, s: State, str: string) {
    s.p.ctl == Initial && |str| > 1 && str[0] == '\r' && str[1] == '\n' && Lined(sc, s).line != sc.bottom(s.log) - 1
  }

  function Run(sc: Screen, s: State, str: string): (t: State)
    requires Counts(s)
    ensures Counts(t)
    decreases |str|
  {
    if str == [] then s
    else if TakesBoth(sc, s, str) then Run(sc, Perform(sc, s, CrLf), str[2..])
    else Run(sc, Step(sc, s, str[0]), str[1..])
  }

  lemma RunNothing(sc: Screen, s: State)
    requires Counts(s)
    ensures Run(sc, s, "") == s
  {
  }

  lemma RunNext(sc: Screen, s: State, str: string)
    requires Counts(s) && str != []
    ensures TakesBoth(sc, s, str) ==> |str| >= 2 && Run(sc, s, str) == Run(sc, Perform(sc, s, CrLf), str[2..])
    ensures !TakesBoth(sc, s, str) ==> Run(sc, s, str) == Run(sc, Step(sc, s, str[0]), str[1..])
  {
    hide Step, Perform;
  }

  lemma {:induction false} LogGrows(sc: Screen, s: State, str: string)
    requires Counts(s)
    ensures s.log <= Run(sc, s, str).log
    decreases |str|
  {
    hide Step, Perform, TakesBoth;
    if str == [] {
    } else if TakesBoth(sc, s, str) {
      RunNext(sc, s, str);
      LogGrows(sc, Perform(sc, s, CrLf), str[2..]);
    } else {
      LogGrows(sc, Step(sc, s, str[0]), str[1..]);
    }
  }

  // ---- When the column is lost ----

  // The last thing done, bells aside, is a move to the next line or a character that the
  // machine counts as -1, or backspaces that step back behind such a thing.
  predicate Loses(sc: Screen, log: seq<Done>)
    decreases |log|
  {
    var l := Quiet(log);
    var n := |l|;
    && n > 0
    && match l[n - 1]
       case Shown(_, cache, _) => cache.col == -1
       case Left(_) =>
         && n > 1 && l[n - 2].Did?
         && var act, before := l[n - 2].act, l[..n - 2];
            LosesBy(sc, act, before) || (act.Backspace? && sc.stepsBack(before) && Loses(sc, before))
       case _ => false
  }

  predicate LosesBy(sc: Screen, act: Act, before: seq<Done>) {
    act.CrLf? || (act.Lf? && sc.lineEditing && !InsertMode(sc, before))
  }

  // The cached column is unknown only behind such a thing.
  lemma {:induction false} ColumnStays(sc: Screen, s: State, str: string)
    requires Counts(s) && (s.cache.col < 0 ==> Loses(sc, s.log))
    ensures Run(sc, s, str).cache.col < 0 ==> Loses(sc, Run(sc, s, str).log)
    decreases |str|
  {
    hide Step, Perform, TakesBoth, Loses;
    if str == [] {
    } else if TakesBoth(sc, s, str) {
      RunNext(sc, s, str);
      PerformLoses(sc, s, CrLf);
      ColumnStays(sc, Perform(sc, s, CrLf), str[2..]);
    } else {
      StepLoses(sc, s, str[0]);
      ColumnStays(sc, Step(sc, s, str[0]), str[1..]);
    }
  }

  lemma PerformLoses(sc: Screen, s: State, act: Act)
    requires Counts(s) && (s.cache.col < 0 ==> Loses(sc, s.log))
    ensures Perform(sc, s, act).cache.col < 0 ==> Loses(sc, Perform(sc, s, act).log)
  {
    hide InsertMode, Measured;
    var t := Perform(sc, s, act);
    if act.Bell? {
      assert t.log[..|s.log|] == s.log;
    } else {
      var l, n := t.log, |t.log|;
      assert l[n - 1] == Left(t.cache) && l[n - 2] == Did(act, Outcome(sc, s, act).0) && l[..n - 2] == s.log;
    }
  }

  lemma StepLoses(sc: Screen, s: State, ch: char)
    requires Counts(s) && (s.cache.col < 0 ==> Loses(sc, s.log))
    ensures Step(sc, s, ch).cache.col < 0 ==> Loses(sc, Step(sc, s, ch).log)
  {
    hide T.UpdateColumn, Perform, Measured, InsertMode;
    var (q, acts) := Feed(s.p, ch);
    if acts != [] && !acts[0].Chr? {
      PerformLoses(sc, s.(p := q), acts[0]);
    }
  }

  // ---- Cutting the input ----

  // The cut parts a \r that is not inside a control sequence from a \n that would be taken
  // with it.
  predicate CutsCrLf(sc: Screen, s: State, a: string, b: string)
    requires Counts(s)
  {
    && a != [] && a[|a| - 1] == '\r' && b != [] && b[0] == '\n'
    && var t := Run(sc, s, a[..|a| - 1]);
       t.p.ctl == Initial && Lined(sc, t).line != sc.bottom(t.log) - 1
  }

  // What an input does first: bells, and a character, with the column and line it is counted
  // at, or a control, with what it does and where it leaves the cache. look says that a \n may
  // be taken with a \r.
  function Opening(sc: Screen, s: State, str: string, look: bool): seq<Done>
    requires Counts(s)
    decreases |str|
  {
    if str == [] then []
    else if look && TakesBoth(sc, s, str) then [Did(CrLf, 0), Left(RESET)]
    else
      var t := Step(sc, s, str[0]);
      if s.p.ctl == Initial && str[0] == BEL then [Rang] + Opening(sc, t, str[1..], look)
      else if t.p.ctl != Initial then Opening(sc, t, str[1..], look)
      else t.log[|s.log|..]
  }

  // The cut falls where the first thing that the rest does depends on what the cursor cache
  // holds, and comes out differently when the column has been read again.
  predicate CutsCache(sc: Screen, s: State, a: string, b: string)
    requires Counts(s)
  {
    var t := Run(sc, s, a);
    Opening(sc, t, b, true) != Opening(sc, Refresh(sc, t), b, true)
  }

  // In the slice that goes on, the count of columns goes back.
  predicate GoesBack(sc: Screen, column: known, str: string)
    decreases |str|
  {
    && str != [] && str[0] != ESC && InitialAct(str[0]).Chr? && !Breaks(sc, column, str[0])
    && (NextColumn(sc, column, str[0]) < column || GoesBack(sc, NextColumn(sc, column, str[0]), str[1..]))
  }

  // The cut falls in a slice, and further on in this slice the count goes back.
  predicate CutsSlice(sc: Screen, s: State, a: string, b: string)
    requires Counts(s)
  {
    var t := Run(sc, s, a);
    t.p.ctl == Initial && t.n > 0 && !t.apart && GoesBack(sc, t.column, b)
  }

  // ---- A cut that loses nothing ----

  // Where the cut is, seen from the next character on.
  lemma CutsLater(sc: Screen, s: State, a: string, b: string)
    requires Counts(s) && |a| >= 2
    ensures TakesBoth(sc, s, a + b) == TakesBoth(sc, s, a)
    ensures CutsCrLf(sc, s, a, b) ==
            if TakesBoth(sc, s, a) then CutsCrLf(sc, Perform(sc, s, CrLf), a[2..], b)
            else CutsCrLf(sc, Step(sc, s, a[0]), a[1..], b)
  {
    hide Step, Perform, Lined;
    var n := |a| - 1;
    assert a[..n][1..] == a[1..][..n - 1] && (n >= 2 ==> a[..n][2..] == a[2..][..n - 2]);
  }

  // If the column were not read again, only the look ahead would be lost.
  lemma {:induction false} RunJoined(sc: Screen, s: State, a: string, b: string)
    requires Counts(s) && !CutsCrLf(sc, s, a, b)
    ensures Run(sc, s, a + b) == Run(sc, Run(sc, s, a), b)
    decreases |a|
  {
    hide Run, Step, Perform, TakesBoth, CutsCrLf;
    if |a| == 0 {
      assert a + b == b;
      RunNothing(sc, s);
    } else {
      assert (a + b)[0] == a[0] && (a + b)[1..] == a[1..] + b;
      RunNext(sc, s, a + b);
      RunNext(sc, s, a);
      if |a| == 1 {
        OneThenRest(sc, s, a, b);
        RunNothing(sc, Step(sc, s, a[0]));
      } else {
        CutsLater(sc, s, a, b);
        if TakesBoth(sc, s, a) {
          assert (a + b)[2..] == a[2..] + b;
          RunJoined(sc, Perform(sc, s, CrLf), a[2..], b);
        } else {
          RunJoined(sc, Step(sc, s, a[0]), a[1..], b);
        }
      }
    }
  }

  lemma OneThenRest(sc: Screen, s: State, a: string, b: string)
    requires Counts(s) && |a| == 1
    ensures TakesBoth(sc, s, a + b) == CutsCrLf(sc, s, a, b) && !TakesBoth(sc, s, a)
    ensures a[1..] == "" && a[1..] + b == b
  {
    assert a[..0] == "";
  }

  // A cut before the \n leaves its mark in what has been done.
  lemma CutShows(sc: Screen, s: State, a: string, b: string)
    requires Counts(s) && CutsCrLf(sc, s, a, b)
    ensures var l := |Run(sc, s, a[..|a| - 1]).log|;
            && l < |Run(sc, s, a).log| && Run(sc, s, a).log[l].Did? && Run(sc, s, a).log[l].act.Cr?
            && l < |Run(sc, s, a + b).log| && Run(sc, s, a + b).log[l] == Did(CrLf, 0)
  {
    hide Lined;
    var n := |a| - 1;
    var t := Run(sc, s, a[..n]);
    assert a == a[..n] + "\r" && a + b == a[..n] + ("\r" + b);
    assert !CutsCrLf(sc, s, a[..n], "\r") && !CutsCrLf(sc, s, a[..n], "\r" + b);
    RunJoined(sc, s, a[..n], "\r");
    RunJoined(sc, s, a[..n], "\r" + b);
    ReturnThen(sc, t, b);
  }

  lemma ReturnThen(sc: Screen, t: State, b: string)
    requires Counts(t) && t.p.ctl == Initial && Lined(sc, t).line != sc.bottom(t.log) - 1 && b != "" && b[0] == '\n'
    ensures t.log + [Did(Cr, Outcome(sc, t, Cr).0)] <= Run(sc, t, "\r").log
    ensures t.log + [Did(CrLf, 0)] <= Run(sc, t, "\r" + b).log
  {
    hide Lined;
    var str := "\r" + b;
    assert str[0] == '\r' && str[1] == '\n' && TakesBoth(sc, t, str);
    LogGrows(sc, Perform(sc, t, CrLf), str[2..]);
    assert "\r"[1..] == "";
    RunNothing(sc, Step(sc, t, '\r'));
  }

  // ---- A cut that reads the column again ----

  // The cases of a step, for what it adds to what has been done.
  predicate Rings(s: State, ch: char) {
    s.p.ctl == Initial && ch == BEL
  }

  predicate Waits(sc: Screen, s: State, ch: char)
    requires Counts(s)
  {
    Step(sc, s, ch).p.ctl != Initial
  }

  lemma OpeningNext(sc: Screen, s: State, str: string, look: bool)
    requires Counts(s) && str != []
    ensures var t := Step(sc, s, str[0]);
            Opening(sc, s, str, look) ==
            if look && TakesBoth(sc, s, str) then [Did(CrLf, 0), Left(RESET)]
            else if Rings(s, str[0]) then [Rang] + Opening(sc, t, str[1..], look)
            else if Waits(sc, s, str[0]) then Opening(sc, t, str[1..], look)
            else t.log[|s.log|..]
  {
    hide Step, TakesBoth;
  }

  lemma RingStep(sc: Screen, s: State)
    requires Counts(s) && s.p.ctl == Initial
    ensures Step(sc, s, BEL) == s.(n := 0, apart := false, log := s.log + [Rang])
    ensures Measured(sc, s.log + [Rang]) == Measured(sc, s.log)
  {
    assert (s.log + [Rang])[..|s.log|] == s.log;
  }

  lemma WaitStep(sc: Screen, s: State, ch: char)
    requires Counts(s) && Waits(sc, s, ch)
    ensures Step(sc, s, ch) == s.(p := Feed(s.p, ch).0, column := s.cache.col, n := 0, apart := false)
  {
    hide T.UpdateColumn, Outcome, Reread, AddDigit;
  }

  // What an input does first is the first of what it does.
  lemma {:induction false} Opens(sc: Screen, s: State, str: string)
    requires Counts(s)
    ensures s.log + Opening(sc, s, str, true) <= Run(sc, s, str).log
    decreases |str|
  {
    hide Run, Step, Opening, TakesBoth, Rings, Waits, Perform;
    LogGrows(sc, s, str);
    if str == [] {
      OpeningNone(sc, s, true);
    } else {
      RunNext(sc, s, str);
      OpeningNext(sc, s, str, true);
      if TakesBoth(sc, s, str) {
        LogGrows(sc, Perform(sc, s, CrLf), str[2..]);
        BothLog(sc, s);
      } else {
        var t := Step(sc, s, str[0]);
        LogGrows(sc, t, str[1..]);
        assert s.log + t.log[|s.log|..] == t.log;
        if Rings(s, str[0]) {
          Opens(sc, t, str[1..]);
          RingLog(sc, s, str[0]);
          Seqs.Assoc(s.log, [Rang], Opening(sc, t, str[1..], true));
        } else if Waits(sc, s, str[0]) {
          Opens(sc, t, str[1..]);
          WaitLog(sc, s, str[0]);
        }
      }
    }
  }

  lemma OpeningNone(sc: Screen, s: State, look: bool)
    requires Counts(s)
    ensures Opening(sc, s, "", look) == [] && s.log + [] == s.log
  {
  }

  lemma BothLog(sc: Screen, s: State)
    requires Counts(s)
    ensures Perform(sc, s, CrLf) == State(s.p, 0, RESET, 0, false, s.log + [Did(CrLf, 0), Left(RESET)])
  {
    assert s.log + [Did(CrLf, 0)] + [Left(RESET)] == s.log + [Did(CrLf, 0), Left(RESET)];
  }

  lemma RingLog(sc: Screen, s: State, ch: char)
    requires Counts(s) && Rings(s, ch)
    ensures Step(sc, s, ch).log == s.log + [Rang]
  {
    RingStep(sc, s);
  }

  lemma WaitLog(sc: Screen, s: State, ch: char)
    requires Counts(s) && Waits(sc, s, ch)
    ensures Step(sc, s, ch).log == s.log
  {
    WaitStep(sc, s, ch);
  }

  // Neither is a beginning of the other.
  ghost predicate Differ(x: seq<Done>, y: seq<Done>) {
    exists i :: 0 <= i < |x| && i < |y| && x[i] != y[i]
  }

  // Two states in the middle of a slice that differ only in where it has begun.
  predicate SlicePair(t: State, u: State) {
    u == t.(n := u.n) && u.n < t.n && !t.apart && t.p.ctl == Initial && t.cache.col == t.column >= 0
  }

  // A character or control that ends up doing something, with the column read again or not:
  // either it does the same, and leaves the same behind but for where a slice has begun, or
  // the two show at some place.
  lemma StepTwice(sc: Screen, t: State, ch: char)
    requires Counts(t) && !Rings(t, ch) && !Waits(sc, t, ch)
    ensures var u := Refresh(sc, t);
            var t', u' := Step(sc, t, ch), Step(sc, u, ch);
            var x, y := t'.log[|t.log|..], u'.log[|t.log|..];
            && !Waits(sc, u, ch) && u.log == t.log
            && (x == y ==> t' == u' || (Continues(sc, t, ch) && SlicePair(t', u') && t'.column >= t.column))
            && (x == y && Continues(sc, t, ch) ==> SlicePair(t', u') && t'.column >= t.column)
            && (x != y ==> Differ(x, y))
  {
    hide T.UpdateColumn, AddDigit, InsertMode, Measured, Quiet;
    var u := Refresh(sc, t);
    var (q, acts) := Feed(t.p, ch);
    if acts == [] {
    } else if acts[0].Chr? {
      ShowTwice(sc, t, ch);
    } else {
      PerformTwice(sc, t.(p := q), u.(p := q), acts[0]);
    }
  }

  // A character of a slice that has begun and not gone back.
  predicate Continues(sc: Screen, t: State, ch: char) {
    t.p.ctl == Initial && t.n > 0 && !t.apart && ch != ESC && InitialAct(ch).Chr? && !Breaks(sc, t.column, ch)
  }

  // What a character adds.
  lemma ShowLog(sc: Screen, s: State, ch: char)
    requires Counts(s)
    ensures var t := ShowChar(sc, s, ch);
            var d := Shown(ch, t.cache, if t.apart then t.n else 0);
            t.log[|s.log|..] == if Breaks(sc, s.column, ch) then [Broken, d] else [d]
  {
    hide Breaks, NextColumn, Begin;
    var t := ShowChar(sc, s, ch);
    var d := Shown(ch, t.cache, if t.apart then t.n else 0);
    assert s.log + [Broken] + [d] == s.log + [Broken, d];
  }

  lemma ShowTwice(sc: Screen, t: State, ch: char)
    requires Counts(t) && t.p.ctl == Initial && ch != ESC && InitialAct(ch).Chr?
    ensures var u := Refresh(sc, t);
            var t', u' := ShowChar(sc, t, ch), ShowChar(sc, u, ch);
            var x, y := t'.log[|t.log|..], u'.log[|t.log|..];
            && (x == y ==> t' == u' || (Continues(sc, t, ch) && SlicePair(t', u') && t'.column >= t.column))
            && (x == y && Continues(sc, t, ch) ==> SlicePair(t', u') && t'.column >= t.column)
            && (x != y ==> Differ(x, y))
  {
    hide Begin, NextColumn, Breaks, Measured;
    var u := Refresh(sc, t);
    var t', u' := ShowChar(sc, t, ch), ShowChar(sc, u, ch);
    ShowLog(sc, t, ch);
    ShowLog(sc, u, ch);
    var x, y := t'.log[|t.log|..], u'.log[|t.log|..];
    if x == y {
      assert x[|x| - 1] == y[|y| - 1];
      assert t'.log == t.log + x && u'.log == t.log + y;
    } else {
      assert x[0] != y[0] || (|x| == 2 && |y| == 2 && x[1] != y[1]);
    }
  }

  lemma PerformTwice(sc: Screen, t: State, u: State, act: Act)
    requires Counts(t) && Counts(u) && t.p == u.p && t.log == u.log && !act.Bell?
    ensures var t', u' := Perform(sc, t, act), Perform(sc, u, act);
            var x, y := t'.log[|t.log|..], u'.log[|u.log|..];
            && (x == y ==> t' == u')
            && (x != y ==> Differ(x, y))
  {
    hide Outcome, Reread;
    var t', u' := Perform(sc, t, act), Perform(sc, u, act);
    var x, y := t'.log[|t.log|..], u'.log[|u.log|..];
    assert |x| == 2 && |y| == 2 && x[1] == Left(t'.cache) && y[1] == Left(u'.cache);
    assert x == [x[0], x[1]] && y == [y[0], y[1]];
    assert t'.log == t.log + x && u'.log == u.log + y;
    if x != y {
      assert x[0] != y[0] || x[1] != y[1];
    }
  }

  lemma RefreshKnown(sc: Screen, s: State)
    requires Counts(s)
    ensures Counts(Refresh(sc, s)) && Refresh(sc, Refresh(sc, s)) == Refresh(sc, s)
    ensures s.cache.col >= 0 ==> Refresh(sc, s) == s.(column := s.cache.col, n := 0, apart := false)
  {
  }

  // Where only one of the two takes \r\n as one.
  lemma TakesTwice(sc: Screen, t: State, str: string)
    requires Counts(t) && TakesBoth(sc, t, str) != TakesBoth(sc, Refresh(sc, t), str)
    ensures var u := Refresh(sc, t);
            && Differ(Opening(sc, t, str, true), Opening(sc, u, str, true))
            && Differ(Opening(sc, t, str, true), Opening(sc, u, str, false))
  {
    hide Measured, Perform, Waits;
    var u := Refresh(sc, t);
    var x, y, z := Opening(sc, t, str, true), Opening(sc, u, str, true), Opening(sc, u, str, false);
    OpeningNext(sc, t, str, true);
    OpeningNext(sc, u, str, true);
    OpeningNext(sc, u, str, false);
    ReturnStep(sc, t);
    ReturnStep(sc, u);
    assert x[0] != y[0];
    assert x[0] != z[0] || x[1] != z[1];
  }

  // What a carriage return does alone.
  function Returned(sc: Screen, s: State): seq<Done> {
    var (e, c) := ReturnOutcome(sc, s);
    [Did(Cr, e), Left(c)]
  }

  lemma ReturnStep(sc: Screen, s: State)
    requires Counts(s) && s.p.ctl == Initial
    ensures var t := Step(sc, s, '\r');
            && t.log == s.log + Returned(sc, s) && t.log[|s.log|..] == Returned(sc, s)
            && t.p == s.p && !Waits(sc, s, '\r')
  {
    hide Lined;
    var (e, c) := ReturnOutcome(sc, s);
    assert s.log + [Did(Cr, e)] + [Left(c)] == s.log + [Did(Cr, e), Left(c)];
  }

  // Reading the column again goes on through bells and the inside of control sequences.
  lemma RingTwice(sc: Screen, t: State)
    requires Counts(t) && t.p.ctl == Initial
    ensures Step(sc, Refresh(sc, t), BEL) == Refresh(sc, Step(sc, t, BEL)) && Step(sc, t, BEL).n == 0
  {
    hide Measured;
    RingStep(sc, t);
    RingStep(sc, Refresh(sc, t));
  }

  lemma WaitTwice(sc: Screen, t: State, ch: char)
    requires Counts(t) && Waits(sc, t, ch)
    ensures Waits(sc, Refresh(sc, t), ch)
    ensures Step(sc, Refresh(sc, t), ch) == Refresh(sc, Step(sc, t, ch)) && Step(sc, t, ch).n == 0
  {
    hide Measured, Step;
    WaitStep(sc, t, ch);
    SameParser(sc, t, Refresh(sc, t), ch);
    WaitStep(sc, Refresh(sc, t), ch);
  }

  lemma SameParser(sc: Screen, t: State, u: State, ch: char)
    requires Counts(t) && Counts(u) && t.p == u.p
    ensures Step(sc, t, ch).p == Step(sc, u, ch).p
  {
    hide T.UpdateColumn, Outcome, Reread, AddDigit, FeedNumbers;
  }

  // If the first things done are not the same, they show, whatever is taken with a \r.
  lemma {:induction false} OpeningsDiffer(sc: Screen, t: State, str: string)
    requires Counts(t) && Opening(sc, t, str, true) != Opening(sc, Refresh(sc, t), str, true)
    ensures Differ(Opening(sc, t, str, true), Opening(sc, Refresh(sc, t), str, true))
    ensures Differ(Opening(sc, t, str, true), Opening(sc, Refresh(sc, t), str, false))
    decreases |str|
  {
    hide Step, TakesBoth, Opening, Rings, Waits, Refresh, Differ;
    var u := Refresh(sc, t);
    RefreshKnown(sc, t);
    if str == [] {
      OpeningNone(sc, t, true);
      OpeningNone(sc, u, true);
    } else {
      OpeningNext(sc, t, str, true);
      OpeningNext(sc, u, str, true);
      OpeningNext(sc, u, str, false);
      SameLog(sc, t);
      if TakesBoth(sc, t, str) != TakesBoth(sc, u, str) {
        TakesTwice(sc, t, str);
      } else if !TakesBoth(sc, t, str) {
        SameRings(sc, t, str[0]);
        if Rings(t, str[0]) {
          RingMeans(t, str[0]);
          RingTwice(sc, t);
          OpeningsDiffer(sc, Step(sc, t, BEL), str[1..]);
          var v := Step(sc, t, BEL);
          DifferLater(Opening(sc, v, str[1..], true), Opening(sc, Refresh(sc, v), str[1..], true));
          DifferLater(Opening(sc, v, str[1..], true), Opening(sc, Refresh(sc, v), str[1..], false));
        } else if Waits(sc, t, str[0]) {
          WaitTwice(sc, t, str[0]);
          OpeningsDiffer(sc, Step(sc, t, str[0]), str[1..]);
        } else {
          StepTwice(sc, t, str[0]);
        }
      }
    }
  }

  lemma SameLog(sc: Screen, t: State)
    ensures Refresh(sc, t).p == t.p && Refresh(sc, t).log == t.log
  {
  }

  lemma SameRings(sc: Screen, t: State, ch: char)
    ensures Rings(Refresh(sc, t), ch) == Rings(t, ch)
  {
  }

  lemma RingMeans(s: State, ch: char)
    requires Rings(s, ch)
    ensures ch == BEL && s.p.ctl == Initial
  {
  }

  lemma DifferLater(x: seq<Done>, y: seq<Done>)
    requires Differ(x, y)
    ensures Differ([Rang] + x, [Rang] + y)
  {
    var i :| 0 <= i < |x| && i < |y| && x[i] != y[i];
    assert ([Rang] + x)[i + 1] == x[i] && ([Rang] + y)[i + 1] == y[i];
  }

  lemma DifferShows(pre: seq<Done>, x: seq<Done>, y: seq<Done>, a: seq<Done>, b: seq<Done>)
    requires Differ(x, y) && pre + x <= a && pre + y <= b
    ensures a != b
  {
    var i :| 0 <= i < |x| && i < |y| && x[i] != y[i];
    assert a[|pre| + i] == (pre + x)[|pre| + i] && b[|pre| + i] == (pre + y)[|pre| + i];
  }

  lemma PairStep(sc: Screen, t: State, u: State, ch: char)
    requires Counts(t) && Counts(u) && u.n > 0 && SlicePair(t, u)
    ensures var t', u' := Step(sc, t, ch), Step(sc, u, ch);
            if !Continues(sc, t, ch) then t' == u'
            else if NextColumn(sc, t.column, ch) < t.column then t'.log != u'.log && |t'.log| == |u'.log|
            else SlicePair(t', u') && u'.n > 0 && t'.column == NextColumn(sc, t.column, ch) && t'.n > 1
  {
    hide T.UpdateColumn, AddDigit, InsertMode, Measured;
    if Continues(sc, t, ch) {
      PairShow(sc, t, u, ch);
    }
  }

  lemma PairShow(sc: Screen, t: State, u: State, ch: char)
    requires Counts(t) && Counts(u) && u.n > 0 && SlicePair(t, u) && Continues(sc, t, ch)
    ensures var t', u' := ShowChar(sc, t, ch), ShowChar(sc, u, ch);
            if NextColumn(sc, t.column, ch) < t.column then t'.log != u'.log && |t'.log| == |u'.log|
            else SlicePair(t', u') && u'.n > 0 && t'.column == NextColumn(sc, t.column, ch) && t'.n > 1
  {
    hide NextColumn, Breaks, Begin;
    var t', u' := ShowChar(sc, t, ch), ShowChar(sc, u, ch);
    assert t'.log[|t.log|] == Shown(ch, t'.cache, if t'.apart then t'.n else 0);
    assert u'.log[|t.log|] == Shown(ch, u'.cache, if u'.apart then u'.n else 0);
  }

  // Once both go on with a slice, all that matters is whether it goes back.
  lemma {:induction false} PairRun(sc: Screen, t: State, u: State, str: string)
    requires Counts(t) && Counts(u) && u.n > 0 && SlicePair(t, u)
    ensures (Refresh(sc, Run(sc, u, str)) == Refresh(sc, Run(sc, t, str))) <==> !GoesBack(sc, t.column, str)
    decreases |str|
  {
    hide Run, Step, TakesBoth, Breaks, NextColumn;
    if str == [] {
      RunNothing(sc, t);
      RunNothing(sc, u);
    } else {
      RunNext(sc, t, str);
      RunNext(sc, u, str);
      PairTakes(sc, t, u, str);
      PairStep(sc, t, u, str[0]);
      if !TakesBoth(sc, t, str) && Continues(sc, t, str[0]) {
        var t', u' := Step(sc, t, str[0]), Step(sc, u, str[0]);
        if NextColumn(sc, t.column, str[0]) < t.column {
          LogGrows(sc, t', str[1..]);
          LogGrows(sc, u', str[1..]);
          LogsApart(t'.log, u'.log, Run(sc, t, str).log, Run(sc, u, str).log);
        } else {
          PairRun(sc, t', u', str[1..]);
        }
      }
    }
  }

  lemma LogsApart(a: seq<Done>, b: seq<Done>, la: seq<Done>, lb: seq<Done>)
    requires a != b && |a| == |b| && a <= la && b <= lb
    ensures la != lb
  {
  }

  lemma PairTakes(sc: Screen, t: State, u: State, str: string)
    requires Counts(t) && Counts(u) && SlicePair(t, u) && str != []
    ensures TakesBoth(sc, t, str) == TakesBoth(sc, u, str)
    ensures TakesBoth(sc, t, str) ==> Perform(sc, t, CrLf) == Perform(sc, u, CrLf) && !Continues(sc, t, str[0])
  {
    hide Measured;
  }

  // Reading the column again comes to the same, up to the next reading, if and only if the
  // first thing that the input does comes out the same, and a slice that goes on does not go
  // back.
  lemma {:induction false} ReadAgain(sc: Screen, t: State, str: string)
    requires Counts(t)
    ensures (Refresh(sc, Run(sc, Refresh(sc, t), str)) == Refresh(sc, Run(sc, t, str))) <==>
            (Opening(sc, t, str, true) == Opening(sc, Refresh(sc, t), str, true) &&
             !(t.p.ctl == Initial && t.n > 0 && !t.apart && GoesBack(sc, t.column, str)))
    decreases |str|
  {
    hide Run, Step, TakesBoth, Opening, Rings, Waits, Refresh, Perform, Differ, Breaks, NextColumn;
    var u := Refresh(sc, t);
    RefreshKnown(sc, t);
    SameLog(sc, t);
    if Opening(sc, t, str, true) != Opening(sc, u, str, true) {
      OpeningsDiffer(sc, t, str);
      Opens(sc, t, str);
      Opens(sc, u, str);
      DifferShows(t.log, Opening(sc, t, str, true), Opening(sc, u, str, true), Run(sc, t, str).log,
                  Run(sc, u, str).log);
      SameLog(sc, Run(sc, t, str));
      SameLog(sc, Run(sc, u, str));
    } else if str == [] {
      RunNothing(sc, t);
      RunNothing(sc, u);
    } else {
      RunNext(sc, t, str);
      RunNext(sc, u, str);
      OpeningNext(sc, t, str, true);
      OpeningNext(sc, u, str, true);
      if TakesBoth(sc, t, str) != TakesBoth(sc, u, str) {
        TakesTwice(sc, t, str);
        assert false by {
          NotDiffer(Opening(sc, t, str, true));
        }
      } else if TakesBoth(sc, t, str) {
        BothLog(sc, t);
        BothLog(sc, u);
        TakesReturn(sc, t, str);
      } else {
        SameRings(sc, t, str[0]);
        if Rings(t, str[0]) {
          RingMeans(t, str[0]);
          RingTwice(sc, t);
          var v := Step(sc, t, BEL);
          RingsAlike(Opening(sc, v, str[1..], true), Opening(sc, Refresh(sc, v), str[1..], true));
          ReadAgain(sc, v, str[1..]);
        } else if Waits(sc, t, str[0]) {
          WaitTwice(sc, t, str[0]);
          WaitMeans(sc, t, str[0]);
          ReadAgain(sc, Step(sc, t, str[0]), str[1..]);
        } else {
          StepTwice(sc, t, str[0]);
          if Continues(sc, t, str[0]) {
            StepCounts(sc, t, str[0]);
            PairRun(sc, Step(sc, t, str[0]), Step(sc, u, str[0]), str[1..]);
          }
        }
      }
    }
  }

  lemma TakesReturn(sc: Screen, s: State, str: string)
    requires TakesBoth(sc, s, str)
    ensures !GoesBack(sc, s.column, str)
  {
  }

  lemma RingsAlike(x: seq<Done>, y: seq<Done>)
    ensures [Rang] + x == [Rang] + y <==> x == y
  {
    assert ([Rang] + x)[1..] == x && ([Rang] + y)[1..] == y;
  }

  lemma WaitMeans(sc: Screen, s: State, ch: char)
    requires Counts(s) && Waits(sc, s, ch)
    ensures s.p.ctl != Initial || ch == ESC
  {
    hide Begin, NextColumn, Breaks, Outcome, Reread, AddDigit;
  }

  lemma StepCounts(sc: Screen, s: State, ch: char)
    requires Counts(s) && Continues(sc, s, ch)
    ensures Step(sc, s, ch).column == NextColumn(sc, s.column, ch) && Step(sc, Refresh(sc, s), ch).n > 0
  {
    hide Begin, Measured;
  }

  lemma NotDiffer(x: seq<Done>)
    ensures !Differ(x, x)
  {
  }

  // ---- The theorems on cutting ----

  // Handling the input in two calls comes to the same thing, up to what the next call reads
  // of the column, if and only if the cut is of none of these kinds.
  lemma CutInTwo(sc: Screen, s: State, a: string, b: string)
    requires Counts(s)
    ensures (Refresh(sc, Run(sc, Refresh(sc, Run(sc, s, a)), b)) == Refresh(sc, Run(sc, s, a + b))) <==>
            (!CutsCrLf(sc, s, a, b) && !CutsCache(sc, s, a, b) && !CutsSlice(sc, s, a, b))
  {
    hide Run, CutsCrLf, Opening, Refresh;
    var t := Run(sc, s, a);
    RefreshKnown(sc, t);
    if CutsCrLf(sc, s, a, b) {
      CutShows(sc, s, a, b);
      LogGrows(sc, Refresh(sc, t), b);
      SameLog(sc, t);
      SameLog(sc, Run(sc, Refresh(sc, t), b));
      SameLog(sc, Run(sc, s, a + b));
    } else {
      RunJoined(sc, s, a, b);
      ReadAgain(sc, t, b);
    }
  }

  function Concat(chunks: seq<string>): string {
    if chunks == [] then "" else chunks[0] + Concat(chunks[1..])
  }

  // A call for each chunk.
  function RunChunks(sc: Screen, s: State, chunks: seq<string>): (t: State)
    requires Counts(s)
    ensures Counts(t)
    decreases |chunks|
  {
    if chunks == [] then s else RunChunks(sc, Run(sc, Refresh(sc, s), chunks[0]), chunks[1..])
  }

  predicate GoodCuts(sc: Screen, s: State, chunks: seq<string>)
    requires Counts(s)
    decreases |chunks|
  {
    chunks == [] ||
    var u, b := Refresh(sc, s), Concat(chunks[1..]);
    && !CutsCrLf(sc, u, chunks[0], b) && !CutsCache(sc, u, chunks[0], b) && !CutsSlice(sc, u, chunks[0], b)
    && GoodCuts(sc, Run(sc, u, chunks[0]), chunks[1..])
  }

  // For every cutting of every input, the same characters are shown at the same columns, with
  // the same breaks, and the same controls do the same between and leave the cursor cache
  // the same, if and only if no cut parts a \r from its \n, none falls before a character or
  // control that comes out differently with the column read again, and none falls in a slice
  // whose count goes back further on.
  lemma {:induction false} CutAnywhere(sc: Screen, s: State, chunks: seq<string>)
    requires Counts(s)
    ensures (Refresh(sc, RunChunks(sc, s, chunks)) == Refresh(sc, Run(sc, Refresh(sc, s), Concat(chunks)))) <==>
            GoodCuts(sc, s, chunks)
    decreases |chunks|
  {
    hide Run, CutsCrLf, CutsCache, CutsSlice, Refresh;
    var u := Refresh(sc, s);
    RefreshKnown(sc, s);
    if chunks == [] {
      RunNothing(sc, u);
    } else {
      var a, b := chunks[0], Concat(chunks[1..]);
      var t := Run(sc, u, a);
      CutInTwo(sc, u, a, b);
      CutAnywhere(sc, t, chunks[1..]);
      SameLog(sc, RunChunks(sc, t, chunks[1..]));
      SameLog(sc, Run(sc, u, a + b));
      if CutsCrLf(sc, u, a, b) {
        CutShows(sc, u, a, b);
        ChunksGrow(sc, t, chunks[1..]);
      } else if CutsCache(sc, u, a, b) {
        RunJoined(sc, u, a, b);
        CacheShows(sc, u, a, chunks[1..]);
      } else if CutsSlice(sc, u, a, b) {
        RunJoined(sc, u, a, b);
        SliceShows(sc, u, a, chunks[1..]);
      }
    }
  }

  lemma CacheShows(sc: Screen, s: State, a: string, rest: seq<string>)
    requires Counts(s) && CutsCache(sc, s, a, Concat(rest))
    ensures RunChunks(sc, Run(sc, s, a), rest).log != Run(sc, Run(sc, s, a), Concat(rest)).log
  {
    hide Run, Opening, Refresh, Differ;
    var t, str := Run(sc, s, a), Concat(rest);
    var u := Refresh(sc, t);
    RefreshKnown(sc, t);
    SameLog(sc, t);
    OpeningsDiffer(sc, t, str);
    Opens(sc, t, str);
    if rest == [] {
      OpeningNone(sc, t, true);
      OpeningNone(sc, u, true);
    } else {
      MeasuredKnown(sc, t);
      ChunksOpen(sc, u, rest);
      var x, one, many := Opening(sc, t, str, true), Run(sc, t, str).log, RunChunks(sc, u, rest).log;
      assert RunChunks(sc, t, rest) == RunChunks(sc, u, rest);
      if t.log + Opening(sc, u, str, true) <= many {
        DifferShows(t.log, x, Opening(sc, u, str, true), one, many);
      } else {
        DifferShows(t.log, x, Opening(sc, u, str, false), one, many);
      }
    }
  }

  lemma SliceShows(sc: Screen, s: State, a: string, rest: seq<string>)
    requires Counts(s) && CutsSlice(sc, s, a, Concat(rest))
    ensures RunChunks(sc, Run(sc, s, a), rest).log != Run(sc, Run(sc, s, a), Concat(rest)).log
  {
    hide Run;
    var t := Run(sc, s, a);
    RefreshKnown(sc, t);
    if rest != [] {
      PairChunks(sc, t, Refresh(sc, t), rest[0], rest[1..]);
    }
  }

  // A character of a slice that goes on, in a slice that has begun later or begins there.
  lemma LaterShow(sc: Screen, t: State, u: State, ch: char)
    requires Counts(t) && Counts(u) && SlicePair(t, u) && Continues(sc, t, ch)
    ensures var t', u' := Step(sc, t, ch), Step(sc, u, ch);
            && t'.column == NextColumn(sc, t.column, ch)
            && |t'.log| == |u'.log|
            && (t'.log == u'.log ==> SlicePair(t', u') && t'.column >= t.column)
  {
    hide NextColumn, Breaks, Measured, InsertMode;
    var t', u' := Step(sc, t, ch), Step(sc, u, ch);
    assert t'.log[|t.log|] == Shown(ch, t'.cache, if t'.apart then t'.n else 0);
    assert u'.log[|t.log|] == Shown(ch, u'.cache, if u'.apart then u'.n else 0);
  }

  // More cuts do not make it good again.
  lemma {:induction false} PairChunks(sc: Screen, t: State, u: State, a: string, rest: seq<string>)
    requires Counts(t) && Counts(u) && SlicePair(t, u) && GoesBack(sc, t.column, a + Concat(rest))
    ensures RunChunks(sc, Run(sc, u, a), rest).log != Run(sc, t, a + Concat(rest)).log
    decreases |rest|, |a|
  {
    hide Run, Step, TakesBoth, Breaks, NextColumn, Continues, Refresh;
    var str := a + Concat(rest);
    if a == [] {
      assert str == Concat(rest);
      RunNothing(sc, u);
      RefreshKnown(sc, u);
      PairChunks(sc, t, Refresh(sc, u), rest[0], rest[1..]);
    } else {
      assert str[0] == a[0] && str[1..] == a[1..] + Concat(rest);
      BackMeans(sc, t, str);
      RunNext(sc, t, str);
      RunNext(sc, u, a);
      PairTakes(sc, t, u, a);
      NotBoth(sc, t, str);
      NotBoth(sc, u, a);
      LaterShow(sc, t, u, a[0]);
      var t', u' := Step(sc, t, a[0]), Step(sc, u, a[0]);
      if t'.log == u'.log {
        PairChunks(sc, t', u', a[1..], rest);
      } else {
        LogGrows(sc, t', str[1..]);
        LogGrows(sc, u', a[1..]);
        ChunksGrow(sc, Run(sc, u, a), rest);
        LogsApart(t'.log, u'.log, Run(sc, t, str).log, RunChunks(sc, Run(sc, u, a), rest).log);
      }
    }
  }

  lemma BackMeans(sc: Screen, t: State, str: string)
    requires GoesBack(sc, t.column, str) && t.p.ctl == Initial && t.n > 0 && !t.apart
    ensures str != [] && str[0] != '\r' && Continues(sc, t, str[0])
    ensures NextColumn(sc, t.column, str[0]) >= t.column ==>
              GoesBack(sc, NextColumn(sc, t.column, str[0]), str[1..])
  {
  }

  lemma MeasuredKnown(sc: Screen, s: State)
    ensures AtRest(Refresh(sc, s))
  {
  }

  lemma {:induction false} ChunksGrow(sc: Screen, s: State, chunks: seq<string>)
    requires Counts(s)
    ensures s.log <= RunChunks(sc, s, chunks).log
    decreases |chunks|
  {
    hide Run, Measured;
    if chunks != [] {
      LogGrows(sc, Refresh(sc, s), chunks[0]);
      ChunksGrow(sc, Run(sc, Refresh(sc, s), chunks[0]), chunks[1..]);
    }
  }

  // The column has been read.
  predicate AtRest(s: State) {
    s.n == 0 && s.cache.col == s.column >= 0
  }

  // From s to v nothing is done but ringing, and the rest opens the input.
  ghost predicate Quietly(sc: Screen, s: State, v: State, str: string, b: string)
    requires Counts(s) && Counts(v)
  {
    && AtRest(v) && s.log <= v.log
    && Opening(sc, s, str, true) == v.log[|s.log|..] + Opening(sc, v, b, true)
    && Opening(sc, s, str, false) == v.log[|s.log|..] + Opening(sc, v, b, false)
  }

  lemma QuietHere(sc: Screen, s: State, b: string)
    requires Counts(s) && AtRest(s)
    ensures Quietly(sc, s, s, b, b)
  {
    hide Opening;
    assert s.log[|s.log|..] == [];
    assert [] + Opening(sc, s, b, true) == Opening(sc, s, b, true);
    assert [] + Opening(sc, s, b, false) == Opening(sc, s, b, false);
  }

  lemma QuietRing(sc: Screen, s: State, v: State, str: string, b: string)
    requires Counts(s) && Counts(v) && str != [] && Rings(s, str[0]) && !TakesBoth(sc, s, str)
    requires Quietly(sc, Step(sc, s, str[0]), v, str[1..], b)
    ensures Quietly(sc, s, v, str, b)
  {
    hide Step, TakesBoth, Opening, Rings, Waits;
    var t := Step(sc, s, str[0]);
    OpeningNext(sc, s, str, true);
    OpeningNext(sc, s, str, false);
    RingLog(sc, s, str[0]);
    var rest := v.log[|t.log|..];
    AfterRing(s.log, v.log);
    Seqs.Assoc([Rang], rest, Opening(sc, v, b, true));
    Seqs.Assoc([Rang], rest, Opening(sc, v, b, false));
  }

  lemma AfterRing(pre: seq<Done>, log: seq<Done>)
    requires pre + [Rang] <= log
    ensures pre <= log && log[|pre|..] == [Rang] + log[|pre| + 1..]
  {
    assert pre == (pre + [Rang])[..|pre|] == log[..|pre|];
  }

  lemma QuietWait(sc: Screen, s: State, v: State, str: string, b: string)
    requires Counts(s) && Counts(v) && str != [] && !Rings(s, str[0]) && Waits(sc, s, str[0]) && !TakesBoth(sc, s, str)
    requires Quietly(sc, Step(sc, s, str[0]), v, str[1..], b)
    ensures Quietly(sc, s, v, str, b)
  {
    hide Step, TakesBoth, Opening, Rings, Waits;
    OpeningNext(sc, s, str, true);
    OpeningNext(sc, s, str, false);
    WaitLog(sc, s, str[0]);
  }

  // An input in two pieces opens as its first piece does, if that does anything but ring and
  // wait; a \r at its end is then not taken with a \n.
  lemma {:induction false} OpeningSplit(sc: Screen, s: State, a: string, b: string)
    requires Counts(s) && AtRest(s)
    ensures || Opening(sc, s, a, true) == Opening(sc, s, a + b, true)
            || Opening(sc, s, a, true) == Opening(sc, s, a + b, false)
            || Quietly(sc, s, Run(sc, s, a), a + b, b)
    decreases |a|
  {
    hide Run, Step, TakesBoth, Opening, Rings, Waits, Perform, Quietly;
    if a == [] {
      assert a + b == b;
      RunNothing(sc, s);
      QuietHere(sc, s, b);
    } else {
      assert (a + b)[0] == a[0] && (a + b)[1..] == a[1..] + b;
      OpeningNext(sc, s, a, true);
      OpeningNext(sc, s, a + b, true);
      OpeningNext(sc, s, a + b, false);
      RunNext(sc, s, a);
      TakesLater(sc, s, a, b);
      if TakesBoth(sc, s, a + b) {
      } else if Rings(s, a[0]) {
        RingMeans(s, a[0]);
        RingStep(sc, s);
        OpeningSplit(sc, Step(sc, s, a[0]), a[1..], b);
        if Quietly(sc, Step(sc, s, a[0]), Run(sc, s, a), (a + b)[1..], b) {
          QuietRing(sc, s, Run(sc, s, a), a + b, b);
        }
      } else if Waits(sc, s, a[0]) {
        WaitStep(sc, s, a[0]);
        OpeningSplit(sc, Step(sc, s, a[0]), a[1..], b);
        if Quietly(sc, Step(sc, s, a[0]), Run(sc, s, a), (a + b)[1..], b) {
          QuietWait(sc, s, Run(sc, s, a), a + b, b);
        }
      }
    }
  }

  lemma TakesLater(sc: Screen, s: State, a: string, b: string)
    requires Counts(s) && a != []
    ensures TakesBoth(sc, s, a) ==> TakesBoth(sc, s, a + b)
    ensures TakesBoth(sc, s, a + b) && !TakesBoth(sc, s, a) ==> !Rings(s, a[0]) && !Waits(sc, s, a[0])
  {
    hide Lined;
    if TakesBoth(sc, s, a + b) {
      ReturnStep(sc, s);
    }
  }

  // A call for each chunk opens as the whole does, but that a \r may be parted from its \n.
  lemma {:induction false} ChunksOpen(sc: Screen, s: State, chunks: seq<string>)
    requires Counts(s) && AtRest(s)
    ensures var log := RunChunks(sc, s, chunks).log;
            || s.log + Opening(sc, s, Concat(chunks), true) <= log
            || s.log + Opening(sc, s, Concat(chunks), false) <= log
    decreases |chunks|
  {
    hide Run, Opening, Refresh;
    RefreshKnown(sc, s);
    assert s.(column := s.cache.col, n := 0, apart := false) == s;
    if chunks == [] {
      OpeningNone(sc, s, true);
    } else {
      var a, b := chunks[0], Concat(chunks[1..]);
      var v := Run(sc, s, a);
      OpeningSplit(sc, s, a, b);
      ChunksGrow(sc, v, chunks[1..]);
      Opens(sc, s, a);
      if Quietly(sc, s, v, a + b, b) {
        ChunksOpen(sc, v, chunks[1..]);
        var pre := v.log[|s.log|..];
        assert v.log == s.log + pre;
        assert v.log + Opening(sc, v, b, true) == s.log + (pre + Opening(sc, v, b, true));
        assert v.log + Opening(sc, v, b, false) == s.log + (pre + Opening(sc, v, b, false));
      }
    }
  }

  predicate Without(c: char, str: string) {
    forall i :: 0 <= i < |str| ==> str[i] != c
  }

  lemma WithoutParts(c: char, a: string, b: string)
    ensures Without(c, a + b) <==> Without(c, a) && Without(c, b)
  {
    if Without(c, a + b) {
      assert forall i :: 0 <= i < |a| ==> (a + b)[i] == a[i];
      assert forall i :: 0 <= i < |b| ==> (a + b)[|a| + i] == b[i];
    }
  }

  // Where the count is -1, behind a line feed or a form feed, and what a cut before the next
  // character does there. A character that is shown is counted elsewhere; a form feed goes on
  // with the slice that waits; a line feed resets the cache again, or counts the line on; a
  // carriage return asks for the line; other controls do what they do.
  lemma CutWhereLost(sc: Screen, s: State, a: string, b: string)
    requires Counts(s) && Run(sc, s, a).p.ctl == Initial
    requires Run(sc, s, a).column == -1 && Run(sc, s, a).cache.col == -1
    requires b != "" && b[0] != BEL && b[0] != ESC
    ensures var t, ch := Run(sc, s, a), b[0];
            var u, m := Refresh(sc, t), Measured(sc, t.log);
            CutsCache(sc, s, a, b) <==>
            if ch == '\U{0C}' then t.n > 0
            else if InitialAct(ch).Chr? then true
            else if TakesBoth(sc, t, b) || TakesBoth(sc, u, b) then TakesBoth(sc, t, b) != TakesBoth(sc, u, b)
            else if ch == '\r' then ReturnOutcome(sc, t) != ReturnOutcome(sc, u)
            else if ch == BS && sc.stepsBack(t.log) then true
            else if ch == '\n' && sc.lineEditing then InsertMode(sc, t.log) && t.cache.line != m.line
            else sc.moves(t.log, InitialAct(ch), t.cache) != sc.moves(t.log, InitialAct(ch), m)
  {
    hide Run, Measured, InsertMode, Opening, Step, TakesBoth, Rings, Waits;
    var t, ch := Run(sc, s, a), b[0];
    var u := Refresh(sc, t);
    OpeningNext(sc, t, b, true);
    OpeningNext(sc, u, b, true);
    NeitherWaits(sc, t, ch);
    NeitherWaits(sc, u, ch);
    if InitialAct(ch).Chr? {
      LostShow(sc, t, ch);
    } else if ch == '\r' {
      ReturnStep(sc, t);
      ReturnStep(sc, u);
      LinedRead(sc, t);
      assert Returned(sc, t)[0].act.Cr? && Returned(sc, u)[0].act.Cr? && [Did(CrLf, 0), Left(RESET)][0].act.CrLf?;
      assert Returned(sc, t) != Returned(sc, u) <==>
             Returned(sc, t)[0] != Returned(sc, u)[0] || Returned(sc, t)[1] != Returned(sc, u)[1];
    } else {
      LostControl(sc, t, ch);
      NotBoth(sc, t, b);
      NotBoth(sc, u, b);
    }
    if ch != '\r' {
      NotBoth(sc, t, b);
      NotBoth(sc, u, b);
    }
  }

  lemma NotBoth(sc: Screen, s: State, str: string)
    requires str != "" && str[0] != '\r'
    ensures !TakesBoth(sc, s, str)
  {
  }

  lemma LinedRead(sc: Screen, t: State)
    requires t.cache.col < 0
    ensures Lined(sc, Refresh(sc, t)) == Measured(sc, t.log)
  {
    hide Measured;
  }

  lemma NeitherWaits(sc: Screen, s: State, ch: char)
    requires Counts(s) && s.p.ctl == Initial && ch != BEL && ch != ESC
    ensures !Rings(s, ch) && !Waits(sc, s, ch)
    ensures Step(sc, s, ch) == if InitialAct(ch).Chr? then ShowChar(sc, s, ch) else Perform(sc, s, InitialAct(ch))
  {
    hide Begin, NextColumn, Breaks, Outcome, Reread;
  }

  lemma LostShow(sc: Screen, t: State, ch: char)
    requires Counts(t) && t.column == -1 && t.cache.col == -1 && InitialAct(ch).Chr?
    ensures var u, m := Refresh(sc, t), Measured(sc, t.log);
            ShowChar(sc, t, ch).log[|t.log|..] != ShowChar(sc, u, ch).log[|t.log|..] <==>
            (ch != '\U{0C}' || t.n > 0)
  {
    hide Measured, InsertMode;
    var u := Refresh(sc, t);
    var t', u' := ShowChar(sc, t, ch), ShowChar(sc, u, ch);
    ShowLog(sc, t, ch);
    ShowLog(sc, u, ch);
    var x, y := t'.log[|t.log|..], u'.log[|u.log|..];
    assert x[|x| - 1] == Shown(ch, t'.cache, if t'.apart then t'.n else 0);
    assert y[|y| - 1] == Shown(ch, u'.cache, if u'.apart then u'.n else 0);
  }

  lemma LostControl(sc: Screen, t: State, ch: char)
    requires Counts(t) && t.column == -1 && t.cache.col == -1 && !InitialAct(ch).Chr? && ch != BEL && ch != '\r'
    ensures var act, u, m := InitialAct(ch), Refresh(sc, t), Measured(sc, t.log);
            Perform(sc, t, act).log[|t.log|..] != Perform(sc, u, act).log[|t.log|..] <==>
            if ch == '\n' && sc.lineEditing then InsertMode(sc, t.log) && t.cache.line != m.line
            else if ch == BS && sc.stepsBack(t.log) then true
            else sc.moves(t.log, act, t.cache) != sc.moves(t.log, act, m)
  {
    hide Measured, InsertMode;
    var act, u := InitialAct(ch), Refresh(sc, t);
    var (e, c) := Outcome(sc, t, act);
    var (f, d) := Outcome(sc, u, act);
    assert Perform(sc, t, act).log[|t.log|..] == [Did(act, e), Left(c)];
    assert Perform(sc, u, act).log[|t.log|..] == [Did(act, f), Left(d)];
    assert [Did(act, e), Left(c)][0] == Did(act, e) && [Did(act, e), Left(c)][1] == Left(c);
    assert [Did(act, f), Left(d)][0] == Did(act, f) && [Did(act, f), Left(d)][1] == Left(d);
  }

  // ---- Four inputs that a cut changes ----

  // Behind a line feed that has lost the column.
  function LostLine(): State {
    State(READY, -1, RESET, 0, false, [Did(Lf, 0), Left(RESET)])
  }

  // In line editing, a line feed and two characters: in one call the second is counted in
  // column 1, in a call behind the line feed in column 2.
  lemma NewlineShifts(sc: Screen)
    requires sc.lineEditing && !sc.insertMode && sc.wrapWidth >= 80
    requires sc.column([Did(Lf, 0), Left(RESET)]) == 0
    ensures var s := State(READY, 0, Cache(0, 0), 0, false, []);
            && Run(sc, s, "\nab").column == 1
            && RunChunks(sc, s, ["\n", "ab"]).column == 2
  {
    var s, f := State(READY, 0, Cache(0, 0), 0, false, []), LostLine();
    LineFeedLoses(sc);
    assert "\nab"[1..] == "ab" && "\n"[1..] == "";
    assert Run(sc, s, "\n") == f && Run(sc, s, "\nab") == Run(sc, f, "ab");
    TwoChars(sc, f);
    TwoChars(sc, Refresh(sc, f));
    assert ["\n", "ab"][1..] == ["ab"] && ["ab"][1..] == [];
  }

  lemma LineFeedLoses(sc: Screen)
    requires sc.lineEditing && !sc.insertMode
    ensures Step(sc, State(READY, 0, Cache(0, 0), 0, false, []), '\n') == LostLine()
  {
    assert [Did(Lf, 0)] + [Left(RESET)] == [Did(Lf, 0), Left(RESET)];
  }

  lemma TwoChars(sc: Screen, s: State)
    requires Counts(s) && s.p == READY && s.column <= 0 && sc.wrapWidth >= 80
    ensures Run(sc, s, "ab").column == s.column + 2
  {
    hide Measured;
    assert "ab"[1..] == "b" && "b"[1..] == "";
    var t := Step(sc, s, 'a');
    assert t.column == s.column + 1 && t.p == READY;
    assert Run(sc, s, "ab") == Run(sc, t, "b") == Step(sc, t, 'b');
  }

  // Characters that are only taken into a control sequence.
  predicate AllWait(p: Parser, str: string)
    decreases |str|
  {
    str == [] || (Feed(p, str[0]).1 == [] && Feed(p, str[0]).0.ctl != Initial && AllWait(Feed(p, str[0]).0, str[1..]))
  }

  function Taken(p: Parser, str: string): Parser
    decreases |str|
  {
    if str == [] then p else Taken(Feed(p, str[0]).0, str[1..])
  }

  lemma {:induction false} RunWaits(sc: Screen, s: State, str: string, rest: string)
    requires Counts(s) && AllWait(s.p, str) && str != []
    ensures Run(sc, s, str + rest) == Run(sc, Settle(s).(p := Taken(s.p, str)), rest)
    decreases |str|
  {
    hide Run, Feed, Measured, TakesBoth, Step;
    assert (str + rest)[0] == str[0] && (str + rest)[1..] == str[1..] + rest;
    RunNext(sc, s, str + rest);
    WaitsAlone(sc, s, str + rest);
    var t := Step(sc, s, str[0]);
    if |str| == 1 {
      assert str[1..] == "" && "" + rest == rest;
    } else {
      RunWaits(sc, t, str[1..], rest);
    }
  }

  lemma WaitsAlone(sc: Screen, s: State, str: string)
    requires Counts(s) && str != [] && Feed(s.p, str[0]).1 == [] && Feed(s.p, str[0]).0.ctl != Initial
    ensures !TakesBoth(sc, s, str) && Step(sc, s, str[0]) == Settle(s).(p := Feed(s.p, str[0]).0)
  {
    hide AddDigit;
  }

  lemma {:induction false} TextWaits(p: Parser, text: string)
    requires p.ctl == SeenEscBracketText && Without(BEL, text) && Without(NUL, text)
    ensures AllWait(p, text) && Taken(p, text) == p.(text := p.text + text)
    decreases |text|
  {
    if text == [] {
      assert p.text + text == p.text;
    } else {
      TextWaits(p.(text := p.text + [text[0]]), text[1..]);
      assert p.text + [text[0]] + text[1..] == p.text + text;
    }
  }

  // ESC ] 7 2 ; and the text: HTML for the place before the input line.
  function Html(text: string): string {
    [ESC, ']', '7', '2', ';'] + text
  }

  lemma HtmlWaits(text: string)
    requires Without(BEL, text) && Without(NUL, text)
    ensures AllWait(READY, Html(text)) && Taken(READY, Html(text)) == Parser(SeenEscBracketText, [], 72, text)
  {
    hide AllWait, Taken;
    var p0, p1 := READY.(ctl := SeenEsc), Parser(SeenEscRbracket, [], -1, "");
    var p2, p3, p4 := p1.(cur := 7), p1.(cur := 72), Parser(SeenEscBracketText, [], 72, "");
    TextWaits(p4, text);
    assert "" + text == text;
    WaitNext(p3, ';', text);
    WaitNext(p2, '2', [';'] + text);
    WaitNext(p1, '7', ['2'] + ([';'] + text));
    WaitNext(p0, ']', ['7'] + (['2'] + ([';'] + text)));
    WaitNext(READY, ESC, [']'] + (['7'] + (['2'] + ([';'] + text))));
    assert Html(text) == [ESC] + ([']'] + (['7'] + (['2'] + ([';'] + text))));
  }

  lemma WaitNext(p: Parser, ch: char, rest: string)
    requires Feed(p, ch).1 == [] && Feed(p, ch).0.ctl != Initial
    ensures AllWait(p, [ch] + rest) == AllWait(Feed(p, ch).0, rest)
    ensures Taken(p, [ch] + rest) == Taken(Feed(p, ch).0, rest)
  {
    hide Feed;
    assert ([ch] + rest)[1..] == rest;
  }

  lemma HtmlRun(sc: Screen, s: State, text: string)
    requires Counts(s) && s.p == READY && Without(BEL, text) && Without(NUL, text)
    ensures Run(sc, s, Html(text) + [BEL, 'x']) == Step(sc, Perform(sc, Settle(s), Osc(72, text)), 'x')
  {
    hide Measured, Html, ShowChar, Perform;
    HtmlWaits(text);
    HtmlStarts(text);
    RunWaits(sc, s, Html(text), [BEL, 'x']);
    var v := Settle(s).(p := Parser(SeenEscBracketText, [], 72, text));
    assert [BEL, 'x'][1..] == ['x'] && ['x'][1..] == [];
    var t := Step(sc, v, BEL);
    assert v.(p := READY) == Settle(s);
    assert Run(sc, v, [BEL, 'x']) == Run(sc, t, ['x']) == Step(sc, t, 'x');
  }

  lemma HtmlStarts(text: string)
    ensures Html(text) != []
  {
  }

  // The column behind a control that leaves the cache alone, and a character.
  lemma HtmlColumn(sc: Screen, s: State, text: string, effect: Effect, n: nat)
    requires Counts(s) && s.p == READY && sc.wrapWidth >= 80 && n < 80
    requires sc.does(s.log, Osc(72, text), s.cache) == (effect, s.cache)
    requires n == if s.cache.col < 0 then sc.column(s.log + [Did(Osc(72, text), effect)]) else s.cache.col
    ensures Step(sc, Perform(sc, Settle(s), Osc(72, text)), 'x').column == n + 1
  {
    hide InsertMode;
    var log := s.log + [Did(Osc(72, text), effect)];
    assert Quiet(log) == log;
    var t := Perform(sc, Settle(s), Osc(72, text));
    assert t.column == n && t.p == READY;
  }

  // HTML that is inserted behind a line feed, and a character: the control leaves the cache
  // alone. In one call the column is then measured behind the HTML; in a call behind the line
  // feed it is held from before.
  lemma HtmlShifts(sc: Screen, text: string, effect: Effect, n: nat)
    requires sc.lineEditing && !sc.insertMode && sc.wrapWidth >= 80 && n < 80
    requires Without(BEL, text) && Without(NUL, text)
    requires var log, act := [Did(Lf, 0), Left(RESET)], Osc(72, text);
             && sc.column(log) == 0 && sc.column(log + [Did(act, effect)]) == n
             && forall cache :: sc.does(log, act, cache) == (effect, cache)
    ensures var s, b := State(READY, 0, Cache(0, 0), 0, false, []), Html(text) + [BEL, 'x'];
            && Run(sc, s, "\n" + b).column == n + 1
            && RunChunks(sc, s, ["\n", b]).column == 1
  {
    hide Html, Run, Step, Perform, TakesBoth, Refresh;
    var s, b := State(READY, 0, Cache(0, 0), 0, false, []), Html(text) + [BEL, 'x'];
    var f, g := LostLine(), Refresh(sc, LostLine());
    AfterFeed(sc, s, b);
    HtmlRun(sc, f, text);
    HtmlColumn(sc, f, text, effect, n);
    LostLineRead(sc);
    HtmlRun(sc, g, text);
    HtmlColumn(sc, g, text, effect, 0);
    TwoCalls(sc, s, "\n", b);
  }

  lemma LostLineRead(sc: Screen)
    ensures var log := LostLine().log;
            Refresh(sc, LostLine()) == State(READY, sc.column(log), Cache(sc.line(log), sc.column(log)), 0, false, log)
  {
  }

  lemma AfterFeed(sc: Screen, s: State, b: string)
    requires s == State(READY, 0, Cache(0, 0), 0, false, []) && sc.lineEditing && !sc.insertMode
    ensures Run(sc, s, "\n" + b) == Run(sc, LostLine(), b) && Run(sc, s, "\n") == LostLine()
  {
    hide Run, Step, TakesBoth;
    LineFeedLoses(sc);
    assert ("\n" + b)[1..] == b && ("\n" + b)[0] == '\n' && "\n"[1..] == "";
    NotBoth(sc, s, "\n" + b);
    NotBoth(sc, s, "\n");
    RunNext(sc, s, "\n" + b);
    RunNext(sc, s, "\n");
    RunNothing(sc, LostLine());
  }

  lemma TwoCalls(sc: Screen, s: State, a: string, b: string)
    requires Counts(s) && AtRest(s)
    ensures RunChunks(sc, s, [a, b]) == Run(sc, Refresh(sc, Run(sc, s, a)), b)
  {
    hide Run, Refresh;
    RefreshKnown(sc, s);
    assert [a, b][1..] == [b] && [b][1..] == [];
    var v := Run(sc, s, a);
    RefreshKnown(sc, v);
    assert RunChunks(sc, s, [a, b]) == RunChunks(sc, v, [b]);
    assert RunChunks(sc, v, [b]) == RunChunks(sc, Run(sc, Refresh(sc, v), b), []);
  }

  // A form feed leaves the cached line behind. Then \r\n at what was the last line of the
  // scroll region is two controls in one call, and one in a call behind the form feed.
  lemma ReturnBehindFormFeed(sc: Screen)
    requires sc.lineEditing && !sc.insertMode && sc.wrapWidth >= 80
    requires var log := [Shown('\U{0C}', Cache(0, -1), 1)];
             sc.line(log) == 1 && sc.column(log) == 0 && sc.bottom(log) == 1
    ensures var s := State(READY, 0, Cache(0, 0), 0, false, []);
            && Run(sc, s, "\U{0C}" + "\r\nab").column == 1
            && RunChunks(sc, s, ["\U{0C}", "\r\nab"]).column == 2
  {
    hide Run, Step, Perform, InsertMode;
    var s, log := State(READY, 0, Cache(0, 0), 0, false, []), [Shown('\U{0C}', Cache(0, -1), 1)];
    var f, g := State(READY, -1, Cache(0, -1), 1, true, log), State(READY, 0, Cache(1, 0), 0, false, log);
    var b := "\r\nab";
    FormFeedStep(sc);
    assert ("\U{0C}" + b)[1..] == b && ("\U{0C}" + b)[0] == '\U{0C}' && "\U{0C}"[1..] == "";
    RunNext(sc, s, "\U{0C}" + b);
    RunNext(sc, s, "\U{0C}");
    RunNothing(sc, f);
    assert Refresh(sc, f) == g;
    assert !TakesBoth(sc, f, b) && TakesBoth(sc, g, b) && b[1..] == "\nab" && b[2..] == "ab" && "\nab"[1..] == "ab";
    RunNext(sc, f, b);
    RunNext(sc, Step(sc, f, '\r'), "\nab");
    RunNext(sc, g, b);
    FormFeedMode(sc, log);
    ReturnThenFeed(sc, f);
    BothLog(sc, g);
    TwoChars(sc, Step(sc, Step(sc, f, '\r'), '\n'));
    TwoChars(sc, Perform(sc, g, CrLf));
    TwoCalls(sc, s, "\U{0C}", b);
  }

  lemma FormFeedMode(sc: Screen, log: seq<Done>)
    requires log == [Shown('\U{0C}', Cache(0, -1), 1)]
    ensures InsertMode(sc, log) == sc.insertMode
  {
    assert log[..0] == [];
  }

  lemma FormFeedStep(sc: Screen)
    ensures Step(sc, State(READY, 0, Cache(0, 0), 0, false, []), '\U{0C}') ==
            State(READY, -1, Cache(0, -1), 1, true, [Shown('\U{0C}', Cache(0, -1), 1)])
  {
    assert [] + [Shown('\U{0C}', Cache(0, -1), 1)] == [Shown('\U{0C}', Cache(0, -1), 1)];
  }

  lemma ReturnThenFeed(sc: Screen, f: State)
    requires Counts(f) && f.p == READY && sc.lineEditing && !InsertMode(sc, f.log)
    ensures var t := Step(sc, Step(sc, f, '\r'), '\n');
            t.p == READY && t.column == -1
  {
    hide Measured;
    var (e, c) := ReturnOutcome(sc, f);
    ModeKept(sc, f.log, e, c);
  }

  lemma ModeKept(sc: Screen, log: seq<Done>, e: Effect, c: Cache)
    ensures InsertMode(sc, log + [Did(Cr, e)] + [Left(c)]) == InsertMode(sc, log)
  {
    assert (log + [Did(Cr, e)] + [Left(c)])[..|log| + 1] == log + [Did(Cr, e)];
    assert (log + [Did(Cr, e)])[..|log|] == log;
  }

  // Three characters on lines two columns wide that are not wrapped: in one call they replace
  // one column of old text; in a call behind the second, the third replaces the rest of the
  // line.
  lemma LongLineCut(sc: Screen)
    requires sc.wrapWidth == 2 && !sc.wrapOnLongLines && !sc.tabs([])
    ensures CutsSlice(sc, State(READY, 0, Cache(0, 0), 0, false, []), "ab", "c")
  {
    hide Measured, InsertMode, TakesBoth;
    var s := State(READY, 0, Cache(0, 0), 0, false, []);
    var t := Step(sc, s, 'a');
    assert t.p == READY && t.column == 1 && t.n == 1 && !t.apart;
    var u := Step(sc, t, 'b');
    assert u.p == READY && u.column == 2 && u.n == 2 && !u.apart;
    assert "ab"[1..] == "b" && "b"[1..] == "";
    NotBoth(sc, s, "ab");
    NotBoth(sc, t, "b");
    assert Run(sc, s, "ab") == Run(sc, t, "b") == u;
  }

  // ---- Full lines ----

  predicate OneColumn(ch: char) {
    ch !in [ESC, BEL, BS, '\r', '\n', '\t', '\U{0C}', T.ZERO_WIDTH]
  }

  function BreaksIn(log: seq<Done>): nat {
    if log == [] then 0 else BreaksIn(log[..|log| - 1]) + if log[|log| - 1] == Broken then 1 else 0
  }

  // Characters fill lines of exactly wrapWidth columns, and a break comes where the next one
  // would not fit, not before.
  lemma {:induction false} LinesFill(sc: Screen, s: State, str: string)
    requires Counts(s) && s.p.ctl == Initial && sc.wrapOnLongLines && 0 <= s.column <= sc.wrapWidth && sc.wrapWidth > 0
    requires forall i :: 0 <= i < |str| ==> OneColumn(str[i])
    ensures var t, last := Run(sc, s, str), s.column + |str| - 1;
            str != "" ==>
              && t.p == s.p && t.column == last % sc.wrapWidth + 1
              && BreaksIn(t.log) == BreaksIn(s.log) + last / sc.wrapWidth
    decreases |str|
  {
    hide Run, Step, TakesBoth, BreaksIn;
    if str != "" {
      FillStep(sc, s, str[0]);
      var t := Step(sc, s, str[0]);
      NotBoth(sc, s, str);
      RunNext(sc, s, str);
      if |str| == 1 {
        assert str[1..] == "";
        RunNothing(sc, t);
      } else {
        LinesFill(sc, t, str[1..]);
      }
      Filling(s.column, sc.wrapWidth, |str|);
    }
  }

  lemma Filling(column: nat, width: nat, n: nat)
    requires 0 <= column <= width && width > 0 && n > 0
    ensures var next := if column < width then column + 1 else 1;
            var last := column + n - 1;
            && (n == 1 ==> last % width + 1 == next && last / width == if column < width then 0 else 1)
            && (n > 1 ==>
                  last % width == (next + n - 2) % width &&
                  last / width == (next + n - 2) / width + if column < width then 0 else 1)
  {
    var k := n - 1;
    if column == width {
      Grids.DivIs(width + k, width, k / width + 1, k % width);
    } else {
      Grids.DivIs(column, width, 0, column);
    }
  }

  lemma FillStep(sc: Screen, s: State, ch: char)
    requires Counts(s) && s.p.ctl == Initial && sc.wrapOnLongLines && 0 <= s.column <= sc.wrapWidth && sc.wrapWidth > 0
    requires OneColumn(ch)
    ensures var t, full := Step(sc, s, ch), s.column == sc.wrapWidth;
            && t.p == s.p && t.column == (if full then 1 else s.column + 1)
            && BreaksIn(t.log) == BreaksIn(s.log) + if full then 1 else 0
  {
    hide Begin, BreaksIn;
    var t := Step(sc, s, ch);
    var d := Shown(ch, t.cache, if t.apart then t.n else 0);
    assert T.UpdateColumn(ch, s.column) == s.column + 1 && T.UpdateColumn(ch, 0) == 1;
    BreaksSnoc(s.log, d);
    BreaksSnoc(s.log, Broken);
    BreaksSnoc(s.log + [Broken], d);
  }

  lemma BreaksSnoc(log: seq<Done>, d: Done)
    ensures BreaksIn(log + [d]) == BreaksIn(log) + if d == Broken then 1 else 0
  {
    assert (log + [d])[..|log|] == log;
  }

  // A line feed in line editing, outside insert mode, and \r\n taken as one make the cursor
  // forget where it is; a carriage return alone keeps the line and counts from 0.
  lemma NewLineForgets(sc: Screen, s: State)
    requires Counts(s) && s.p.ctl == Initial
    ensures sc.lineEditing && !InsertMode(sc, s.log) ==> Run(sc, s, "\n").cache == Cache(-1, -1)
    ensures Lined(sc, s).line != sc.bottom(s.log) - 1 ==>
              Run(sc, s, "\r\n").cache == Cache(-1, -1) && Run(sc, s, "\r\n").column == 0
    ensures Run(sc, s, "\r").column == 0
    ensures Run(sc, s, "\r").cache.line == if s.cache.line >= 0 then s.cache.line else sc.line(Quiet(s.log))
  {
    hide InsertMode;
    assert "\n"[1..] == "" && "\r"[1..] == "" && "\r\n"[2..] == "";
    assert Run(sc, s, "\n") == Step(sc, s, '\n') && Run(sc, s, "\r") == Step(sc, s, '\r');
  }

  // A character and a backspace over it leave the cache as it was.
  lemma BackspaceUndoes(sc: Screen, s: State, ch: char)
    requires Counts(s) && s.p.ctl == Initial && 0 <= s.column < sc.wrapWidth && OneColumn(ch)
    requires s.cache.line >= 0 && s.cache.col == s.column && (InsertMode(sc, s.log) ==> !sc.wrapOnLongLines)
    requires sc.stepsBack(Step(sc, s, ch).log)
    ensures Run(sc, s, [ch, BS]).cache == s.cache && Run(sc, s, [ch, BS]).column == s.column
  {
    hide InsertMode, Measured;
    var t := Step(sc, s, ch);
    assert T.UpdateColumn(ch, s.column) == s.column + 1;
    assert t.cache == Cache(s.cache.line, s.column + 1) && t.p == s.p;
    assert [ch, BS][1..] == [BS] && [BS][1..] == [];
    assert Run(sc, s, [ch, BS]) == Run(sc, t, [BS]) == Step(sc, t, BS);
  }

  // ---- Insert mode ----

  // ESC [ 4 h switches it on, ESC [ 4 l off.
  lemma ModeSwitches(sc: Screen, s: State)
    requires Counts(s) && s.p == READY
    ensures InsertMode(sc, Run(sc, s, "\U{1B}[4" + "h").log) && !InsertMode(sc, Run(sc, s, "\U{1B}[4" + "l").log)
  {
    hide Run, InsertMode;
    ModeCode(sc, s, 'h');
    ModeCode(sc, s, 'l');
  }

  lemma ModeCode(sc: Screen, s: State, last: char)
    requires Counts(s) && s.p == READY && (last == 'h' || last == 'l')
    ensures InsertMode(sc, Run(sc, s, "\U{1B}[4" + [last]).log) == (last == 'h')
  {
    hide Run, Step, TakesBoth, InsertMode, AllWait, Taken, Refresh;
    ModeWaits();
    RunWaits(sc, s, "\U{1B}[4", [last]);
    var v := Settle(s).(p := Parser(SeenEscLbracket, [], 4, ""));
    RunInSequence(sc, v, [last]);
    assert [last][1..] == "";
    RunNothing(sc, Step(sc, v, last));
    ModeStep(sc, v, last);
  }

  lemma ModeWaits()
    ensures AllWait(READY, "\U{1B}[4") && Taken(READY, "\U{1B}[4") == Parser(SeenEscLbracket, [], 4, "")
  {
    hide AllWait, Taken;
    var p1, p2 := Parser(SeenEscLbracket, [], -1, ""), Parser(SeenEscLbracket, [], 4, "");
    NothingTaken(p2);
    WaitNext(p1, '4', "");
    WaitNext(READY.(ctl := SeenEsc), '[', "4");
    WaitNext(READY, ESC, "[4");
    assert [ESC] + "[4" == "\U{1B}[4" && ['['] + "4" == "[4" && ['4'] + "" == "4";
  }

  lemma NothingTaken(p: Parser)
    ensures AllWait(p, "") && Taken(p, "") == p
  {
  }

  lemma ModeStep(sc: Screen, v: State, last: char)
    requires Counts(v) && v.p == Parser(SeenEscLbracket, [], 4, "") && (last == 'h' || last == 'l')
    ensures InsertMode(sc, Step(sc, v, last).log) == (last == 'h')
  {
    hide Feed, Perform, InsertMode, ShowChar, Refresh;
    ModeFeed(last);
    ModePerformed(sc, v.(p := READY), last);
  }

  lemma ModeFeed(last: char)
    requires last == 'h' || last == 'l'
    ensures Feed(Parser(SeenEscLbracket, [], 4, ""), last) == (READY, [Csi([4], false, last)])
  {
    assert [] + [4] == [4];
  }

  lemma ModePerformed(sc: Screen, v: State, last: char)
    requires Counts(v) && (last == 'h' || last == 'l')
    ensures InsertMode(sc, Perform(sc, v, Csi([4], false, last)).log) == (last == 'h')
  {
    hide Outcome, Reread;
    var act := Csi([4], false, last);
    var d := Did(act, Outcome(sc, v, act).0);
    ModeStays(sc, v.log + [d], Left(Perform(sc, v, act).cache));
    assert (v.log + [d])[..|v.log|] == v.log;
  }

  // ---- The cache against delta2D ----

  // What is shown by what has been done, where all is put behind what is there.
  function OnScreen(log: seq<Done>): seq<T.Tok> {
    if log == [] then [] else OnScreen(log[..|log| - 1]) + TokOf(log[|log| - 1])
  }

  function TokOf(d: Done): seq<T.Tok> {
    match d
    case Shown(c, _, _) => [T.Tok.Chr(c)]
    case Broken => [T.Tok.Chr('\n')]
    case Did(Lf, _) => [T.Tok.Chr('\n')]
    case _ => []
  }

  // delta2D measures that.
  ghost predicate Appends(sc: Screen) {
    forall log :: Cache(sc.line(log), sc.column(log)) == MeasureOf(log)
  }

  function MeasureOf(log: seq<Done>): Cache {
    var p := T.Measure(T.Pos(0, 0), OnScreen(log));
    Cache(p.line, p.col)
  }

  // Text, bells and, in insert mode, line feeds.
  predicate Textual(ch: char, mode: bool) {
    ch !in [ESC, BS, '\r', '\t', '\U{0C}'] && (ch == '\n' ==> mode)
  }

  ghost predicate TrueCache(sc: Screen, s: State) {
    s.cache.col == s.column && s.cache == MeasureOf(s.log)
  }

  // Where long lines are wrapped, the cache that is counted along stays what delta2D would
  // measure, for every such input.
  lemma {:induction false} CacheIsTrue(sc: Screen, s: State, str: string)
    requires Counts(s) && s.p.ctl == Initial && Appends(sc) && sc.wrapOnLongLines && sc.lineEditing && TrueCache(sc, s)
    requires forall i :: 0 <= i < |str| ==> Textual(str[i], InsertMode(sc, s.log))
    ensures TrueCache(sc, Run(sc, s, str))
    decreases |str|
  {
    hide Run, Step, TakesBoth, MeasureOf, Appends, InsertMode;
    if str == "" {
      RunNothing(sc, s);
    } else {
      NotBoth(sc, s, str);
      RunNext(sc, s, str);
      TrueStep(sc, s, str[0]);
      CacheIsTrue(sc, Step(sc, s, str[0]), str[1..]);
    }
  }

  lemma TrueStep(sc: Screen, s: State, ch: char)
    requires Counts(s) && s.p.ctl == Initial && Appends(sc) && sc.wrapOnLongLines && sc.lineEditing && TrueCache(sc, s)
    requires Textual(ch, InsertMode(sc, s.log))
    ensures var t := Step(sc, s, ch);
            TrueCache(sc, t) && t.p == s.p && InsertMode(sc, t.log) == InsertMode(sc, s.log)
  {
    hide InsertMode, MeasureOf, Appends, Begin, T.UpdateColumn;
    if ch == BEL {
      RingStep(sc, s);
      MeasuredMore(s.log, Rang);
      ModeStays(sc, s.log, Rang);
    } else if ch == '\n' {
      var c := Cache(LineBelow(s.cache.line), 0);
      MeasureKnown(s.log);
      MeasuredMore(s.log, Did(Lf, 0));
      MeasuredMore(s.log + [Did(Lf, 0)], Left(c));
      ModeStays(sc, s.log, Did(Lf, 0));
      ModeStays(sc, s.log + [Did(Lf, 0)], Left(c));
    } else {
      TrueShow(sc, s, ch);
    }
  }

  lemma TrueShow(sc: Screen, s: State, ch: char)
    requires Counts(s) && TrueCache(sc, s) && sc.wrapOnLongLines
    requires ch !in [ESC, BEL, BS, '\r', '\n', '\t', '\U{0C}']
    ensures var t := ShowChar(sc, s, ch);
            TrueCache(sc, t) && t.p == s.p && InsertMode(sc, t.log) == InsertMode(sc, s.log)
  {
    hide InsertMode, MeasureOf, Measured;
    var t := ShowChar(sc, s, ch);
    var d := Shown(ch, t.cache, if t.apart then t.n else 0);
    MeasureKnown(s.log);
    MeasuredMore(s.log, d);
    ModeStays(sc, s.log, d);
    MeasuredMore(s.log, Broken);
    ModeStays(sc, s.log, Broken);
    MeasuredMore(s.log + [Broken], d);
    ModeStays(sc, s.log + [Broken], d);
  }

  lemma MeasureKnown(log: seq<Done>)
    ensures MeasureOf(log).line >= 0 && MeasureOf(log).col >= 0
  {
  }

  // One more thing done moves the end of what is shown by its character.
  lemma MeasuredMore(log: seq<Done>, d: Done)
    ensures var c := MeasureOf(log);
            MeasureOf(log + [d]) ==
            match d
            case Shown(ch, _, _) =>
              if ch == '\n' || ch == '\U{0C}' then Cache(c.line + 1, 0) else Cache(c.line, c.col + T.CharColumns(ch))
            case Broken => Cache(c.line + 1, 0)
            case Did(Lf, _) => Cache(c.line + 1, 0)
            case _ => c
  {
    hide T.Measure;
    assert (log + [d])[..|log|] == log;
    T.MeasureAppend(T.Pos(0, 0), OnScreen(log), TokOf(d));
    MeasureOne(T.Measure(T.Pos(0, 0), OnScreen(log)), TokOf(d));
  }

  lemma MeasureOne(p: T.Pos, ts: seq<T.Tok>)
    ensures |ts| == 0 ==> T.Measure(p, ts) == p
    ensures |ts| == 1 ==> T.Measure(p, ts) == ts[0].Step(p)
  {
  }

  lemma ModeStays(sc: Screen, log: seq<Done>, d: Done)
    requires d.Did? ==> !d.act.Csi?
    ensures InsertMode(sc, log + [d]) == InsertMode(sc, log)
  {
    assert (log + [d])[..|log|] == log;
  }

  // ---- Breaks and what the cache holds aside ----

  function ActsOf(d: Done): seq<Act> {
    match d
    case Shown(c, _, _) => [Chr(c)]
    case Rang => [Bell]
    case Did(act, _) => [act]
    case _ => []
  }

  function Erase(log: seq<Done>): seq<Act> {
    if log == [] then [] else Erase(log[..|log| - 1]) + ActsOf(log[|log| - 1])
  }

  lemma EraseSnoc(log: seq<Done>, d: Done)
    ensures Erase(log + [d]) == Erase(log) + ActsOf(d)
  {
    assert (log + [d])[..|log|] == log;
  }

  lemma EraseTwo(log: seq<Done>, d: Done, e: Done)
    ensures Erase(log + [d, e]) == Erase(log) + (ActsOf(d) + ActsOf(e))
  {
    hide ActsOf, Erase;
    assert log + [d, e] == log + [d] + [e];
    EraseSnoc(log, d);
    EraseSnoc(log + [d], e);
    assert Erase(log) + ActsOf(d) + ActsOf(e) == Erase(log) + (ActsOf(d) + ActsOf(e));
  }

  lemma ShowErased(sc: Screen, s: State, ch: char)
    requires Counts(s)
    ensures Erase(ShowChar(sc, s, ch).log) == Erase(s.log) + [Chr(ch)]
  {
    hide Erase, Begin, NextColumn, Breaks;
    var t := ShowChar(sc, s, ch);
    ShowLog(sc, s, ch);
    var d := Shown(ch, t.cache, if t.apart then t.n else 0);
    assert t.log == s.log + t.log[|s.log|..];
    if Breaks(sc, s.column, ch) {
      EraseTwo(s.log, Broken, d);
    } else {
      EraseSnoc(s.log, d);
    }
  }

  lemma PerformErased(sc: Screen, s: State, act: Act)
    requires Counts(s)
    ensures Erase(Perform(sc, s, act).log) == Erase(s.log) + [act]
  {
    hide Erase, Outcome, Reread;
    var t := Perform(sc, s, act);
    if act.Bell? {
      EraseSnoc(s.log, Rang);
    } else {
      var d := Did(act, Outcome(sc, s, act).0);
      assert s.log + [d] + [Left(t.cache)] == s.log + [d, Left(t.cache)];
      EraseTwo(s.log, d, Left(t.cache));
      assert [act] + [] == [act];
    }
  }

  lemma StepErased(sc: Screen, s: State, ch: char)
    requires Counts(s)
    ensures var (q, acts) := Feed(s.p, ch);
            Step(sc, s, ch).p == q && Erase(Step(sc, s, ch).log) == Erase(s.log) + acts
  {
    hide Erase, Begin, NextColumn, Breaks, Outcome, Reread, AddDigit;
    var (q, acts) := Feed(s.p, ch);
    if acts == [] {
      assert Erase(s.log) + [] == Erase(s.log);
    } else if acts[0].Chr? {
      ShowErased(sc, s, ch);
    } else {
      PerformErased(sc, s.(p := q), acts[0]);
    }
  }

  // Without carriage returns, the machine on the screen is the one-character machine, breaks
  // aside.
  lemma {:induction false} RunErased(sc: Screen, s: State, str: string)
    requires Counts(s) && Without('\r', str)
    ensures var (q, acts) := FeedAll(s.p, str);
            Run(sc, s, str).p == q && Erase(Run(sc, s, str).log) == Erase(s.log) + acts
    decreases |str|
  {
    hide Erase, Step;
    if str != [] {
      StepErased(sc, s, str[0]);
      RunErased(sc, Step(sc, s, str[0]), str[1..]);
      var (q, acts) := Feed(s.p, str[0]);
      var (r, more) := FeedAll(q, str[1..]);
      assert Erase(s.log) + acts + more == Erase(s.log) + (acts + more);
    }
  }

  // For every cutting of every input without carriage returns, what is shown and done is
  // what the one-character machine says of the whole input.
  lemma {:induction false} ChunksErased(sc: Screen, s: State, chunks: seq<string>)
    requires Counts(s) && Without('\r', Concat(chunks))
    ensures var (q, acts) := FeedAll(s.p, Concat(chunks));
            var t := RunChunks(sc, s, chunks);
            t.p == q && Erase(t.log) == Erase(s.log) + acts
    decreases |chunks|
  {
    hide Erase, Run, FeedAll, Refresh;
    if chunks == [] {
      FeedNothing(s.p, Erase(s.log));
    } else {
      var a, b := chunks[0], Concat(chunks[1..]);
      WithoutParts('\r', a, b);
      RefreshKeeps(sc, s);
      var s1 := Refresh(sc, s);
      RunErased(sc, s1, a);
      ChunksErased(sc, Run(sc, s1, a), chunks[1..]);
      FeedAppend(s.p, a, b);
      var (q, acts) := FeedAll(s.p, a);
      var (r, more) := FeedAll(q, b);
      assert Erase(s.log) + acts + more == Erase(s.log) + (acts + more);
    }
  }

  lemma FeedNothing(p: Parser, log: seq<Act>)
    ensures FeedAll(p, "") == (p, []) && log + [] == log
  {
  }

  lemma RefreshKeeps(sc: Screen, s: State)
    ensures Refresh(sc, s).p == s.p && Refresh(sc, s).log == s.log
    ensures Counts(s) ==> Counts(Refresh(sc, s))
  {
  }

  // ---- Numbers ----

  function Digits(n: nat): (s: string)
    ensures |s| >= 1 && forall i :: 0 <= i < |s| ==> IsDigit(s[i])
  {
    var last := ['0' + (n % 10) as char];
    if n < 10 then last else Digits(n / 10) + last
  }

  // -1 is a number left out.
  function PrintNumber(n: int32): string {
    if n < 0 then "" else Digits(n)
  }

  function PrintNumbers(ns: seq<int32>): string {
    if |ns| == 0 then ""
    else if |ns| == 1 then PrintNumber(ns[0])
    else PrintNumbers(ns[..|ns| - 1]) + ";" + PrintNumber(ns[|ns| - 1])
  }

  lemma {:induction false} FeedDigits(p: Parser, n: nat)
    requires n < 0x8000_0000 && p.cur == -1
    requires p.ctl == SeenEscLbracket || p.ctl == SeenEscLbracketQuestion || p.ctl == SeenEscRbracket
    ensures FeedAll(p, Digits(n)) == (p.(cur := n), [])
    decreases n
  {
    hide FeedAll, AddDigit;
    var ch := '0' + (n % 10) as char;
    if n < 10 {
      FeedOne(p, ch);
      LastDigit(-1, n);
    } else {
      FeedDigits(p, n / 10);
      FeedOne(p.(cur := n / 10), ch);
      LastDigit(n / 10, n);
      FeedThen(p, Digits(n / 10), p.(cur := n / 10), [ch], p.(cur := n), []);
    }
  }

  // Longer numbers are right modulo 2^32.
  lemma DigitWraps(cur: int32, ch: char)
    requires '0' <= ch <= '9' && cur >= 0
    ensures (10 * cur + (ch as int - '0' as int) - AddDigit(cur, ch)) % 0x1_0000_0000 == 0
  {
    Wrapped(10 * cur);
    Wrapped(Wrap32(10 * cur) + (ch as int - '0' as int));
  }

  lemma Wrapped(n: int)
    ensures (n - Wrap32(n)) % 0x1_0000_0000 == 0
  {
  }

  lemma LastDigit(cur: int32, n: int32)
    requires n >= 0 && (if n < 10 then cur == -1 else cur == n / 10)
    ensures AddDigit(cur, '0' + (n % 10) as char) == n
  {
  }

  lemma {:induction false} FeedPrinted(p: Parser, ns: seq<int32>)
    requires p.cur == -1 && p.prev == [] && (p.ctl == SeenEscLbracket || p.ctl == SeenEscLbracketQuestion)
    requires |ns| > 0 && forall i :: 0 <= i < |ns| ==> ns[i] >= -1
    ensures FeedAll(p, PrintNumbers(ns)) == (p.(prev := ns[..|ns| - 1], cur := ns[|ns| - 1]), [])
    decreases |ns|
  {
    hide FeedAll, PrintNumber;
    var k := |ns| - 1;
    if k == 0 {
      FeedNumber(p, ns[0]);
    } else {
      FeedPrinted(p, ns[..k]);
      assert ns[..k][..k - 1] + [ns[k - 1]] == ns[..k];
      var q, r := p.(prev := ns[..k][..k - 1], cur := ns[k - 1]), p.(prev := ns[..k], cur := -1);
      FeedOne(q, ';');
      FeedThen(p, PrintNumbers(ns[..k]), q, ";", r, []);
      FeedNumber(r, ns[k]);
      FeedThen(p, PrintNumbers(ns[..k]) + ";", r, PrintNumber(ns[k]), r.(cur := ns[k]), []);
    }
  }

  lemma FeedNumber(p: Parser, n: int32)
    requires n >= -1 && p.cur == -1
    requires p.ctl == SeenEscLbracket || p.ctl == SeenEscLbracketQuestion || p.ctl == SeenEscRbracket
    ensures FeedAll(p, PrintNumber(n)) == (p.(cur := n), [])
  {
    if n >= 0 {
      FeedDigits(p, n);
    }
  }

  // Printing any list of parameters as a control sequence and parsing it gives the list.
  lemma CsiBack(ns: seq<int32>, last: char)
    requires |ns| > 0 && forall i :: 0 <= i < |ns| ==> ns[i] >= -1
    requires !IsDigit(last) && last != ';' && last != '?'
    ensures FeedAll(READY, [ESC] + "[" + PrintNumbers(ns) + [last]) == (READY, [Csi(ns, false, last)])
    ensures FeedAll(READY, [ESC] + "[" + "?" + PrintNumbers(ns) + [last]) == (READY, [Csi(ns, true, last)])
  {
    hide PrintNumbers, FeedAll;
    var p0, p1 := READY.(ctl := SeenEsc), Parser(SeenEscLbracket, [], -1, "");
    FeedOne(READY, ESC);
    FeedOne(p0, '[');
    FeedThen(READY, [ESC], p0, "[", p1, []);
    Closed([ESC] + "[", SeenEscLbracket, ns, last);
    var p2 := p1.(ctl := SeenEscLbracketQuestion);
    FeedOne(p1, '?');
    FeedThen(READY, [ESC] + "[", p1, "?", p2, []);
    Closed([ESC] + "[" + "?", SeenEscLbracketQuestion, ns, last);
  }

  // An operating system control comes back with its number and its text.
  lemma OscBack(code: int32, text: string)
    requires code >= -1 && Without(BEL, text) && Without(NUL, text)
    ensures FeedAll(READY, [ESC] + "]" + PrintNumber(code) + ";" + text + [BEL]) == (READY, [Osc(code, text)])
    ensures FeedAll(READY, [ESC] + "]" + PrintNumber(code) + ";" + text + [NUL]) == (READY, [Osc(code, text)])
  {
    hide PrintNumber, FeedAll, Without;
    var p0, p1 := READY.(ctl := SeenEsc), Parser(SeenEscRbracket, [], -1, "");
    FeedOne(READY, ESC);
    FeedOne(p0, ']');
    FeedThen(READY, [ESC], p0, "]", p1, []);
    var p2 := p1.(cur := code);
    FeedNumber(p1, code);
    FeedThen(READY, [ESC] + "]", p1, PrintNumber(code), p2, []);
    var p3 := p2.(ctl := SeenEscBracketText);
    FeedOne(p2, ';');
    FeedThen(READY, [ESC] + "]" + PrintNumber(code), p2, ";", p3, []);
    var p4 := p3.(text := text);
    FeedText(p3, text);
    assert "" + text == text;
    FeedThen(READY, [ESC] + "]" + PrintNumber(code) + ";", p3, text, p4, []);
    FeedOne(p4, BEL);
    FeedThen(READY, [ESC] + "]" + PrintNumber(code) + ";" + text, p4, [BEL], READY, [Osc(code, text)]);
    FeedOne(p4, NUL);
    FeedThen(READY, [ESC] + "]" + PrintNumber(code) + ";" + text, p4, [NUL], READY, [Osc(code, text)]);
  }

  lemma {:induction false} FeedText(p: Parser, text: string)
    requires p.ctl == SeenEscBracketText && Without(BEL, text) && Without(NUL, text)
    ensures FeedAll(p, text) == (p.(text := p.text + text), [])
    decreases |text|
  {
    hide FeedAll;
    if text == [] {
      FeedNothing(p, []);
      assert p.text + [] == p.text;
    } else {
      var q, r := p.(text := p.text + [text[0]]), p.(text := p.text + text);
      FeedOne(p, text[0]);
      FeedText(q, text[1..]);
      assert p.text + [text[0]] + text[1..] == p.text + text && [text[0]] + text[1..] == text;
      FeedThen(p, [text[0]], q, text[1..], r, []);
    }
  }

  lemma Closed(start: string, ctl: Control, ns: seq<int32>, last: char)
    requires ctl == SeenEscLbracket || ctl == SeenEscLbracketQuestion
    requires FeedAll(READY, start) == (Parser(ctl, [], -1, ""), [])
    requires |ns| > 0 && forall i :: 0 <= i < |ns| ==> ns[i] >= -1
    requires !IsDigit(last) && last != ';' && last != '?'
    ensures FeedAll(READY, start + PrintNumbers(ns) + [last]) ==
            (READY, [Csi(ns, ctl == SeenEscLbracketQuestion, last)])
  {
    hide PrintNumbers, FeedAll;
    var p, k := Parser(ctl, [], -1, ""), |ns| - 1;
    var q := p.(prev := ns[..k], cur := ns[k]);
    FeedPrinted(p, ns);
    FeedThen(READY, start, p, PrintNumbers(ns), q, []);
    FeedOne(q, last);
    assert ns[..k] + [ns[k]] == ns;
    FeedThen(READY, start + PrintNumbers(ns), q, [last], READY, [Csi(ns, ctl == SeenEscLbracketQuestion, last)]);
  }

  // ---- Every act ----

  // What a host sends for an act.
  function CodeOf(act: Act): string {
    match act
    case Chr(c) => [c]
    case Cr => "\r"
    case CrLf => "\r\n"
    case Lf => "\n"
    case Backspace => "\U{08}"
    case Bell => "\U{07}"
    case Tab => "\t"
    case Save => "\U{1B}" + "7"
    case Restore => "\U{1B}" + "8"
    case ReverseIndex => "\U{1B}" + "M"
    case Csi(args, question, last) =>
      if question then "\U{1B}" + "[" + "?" + PrintNumbers(args) + [last]
      else "\U{1B}" + "[" + PrintNumbers(args) + [last]
    case Osc(code, text) => "\U{1B}" + "]" + PrintNumber(code) + ";" + text + "\U{07}"
  }

  // The acts that have a code of their own; \r\n is that of two.
  predicate Printable(act: Act) {
    match act
    case Chr(c) => c !in ['\U{1B}', '\r', '\n', '\U{08}', '\U{07}', '\t']
    case CrLf => false
    case Csi(args, _, last) =>
      && args != [] && (forall i :: 0 <= i < |args| ==> args[i] >= -1)
      && !('0' <= last <= '9') && last != ';' && last != '?'
    case Osc(code, text) => code >= -1 && Without('\U{07}', text) && Without('\U{00}', text)
    case _ => true
  }

  function CodeAll(acts: seq<Act>): string {
    if acts == [] then "" else CodeOf(acts[0]) + CodeAll(acts[1..])
  }

  lemma CodeBack(act: Act)
    requires Printable(act)
    ensures FeedAll(READY, CodeOf(act)) == (READY, [act])
  {
    hide FeedAll, PrintNumbers, PrintNumber, Without;
    match act
    case Csi(args, question, last) => CsiBack(args, last);
    case Osc(code, text) => OscBack(code, text);
    case Save => TwoCodes('7', act);
    case Restore => TwoCodes('8', act);
    case ReverseIndex => TwoCodes('M', act);
    case CrLf => assert false;
    case _ => FeedOne(READY, CodeOf(act)[0]);
  }

  lemma TwoCodes(ch: char, act: Act)
    requires Feed(READY.(ctl := SeenEsc), ch) == (READY, [act])
    ensures FeedAll(READY, "\U{1B}" + [ch]) == (READY, [act])
  {
    hide FeedAll;
    FeedOne(READY, '\U{1B}');
    FeedOne(READY.(ctl := SeenEsc), ch);
    FeedThen(READY, "\U{1B}", READY.(ctl := SeenEsc), [ch], READY, [act]);
  }

  // Whatever acts a host sends the codes of, the parser finds them, in order, and no others.
  lemma {:induction false} ActsBack(acts: seq<Act>)
    requires forall i :: 0 <= i < |acts| ==> Printable(acts[i])
    ensures FeedAll(READY, CodeAll(acts)) == (READY, acts)
  {
    hide Printable, CodeOf;
    if acts == [] {
      FeedNothing(READY, []);
    } else {
      CodeBack(acts[0]);
      ActsBack(acts[1..]);
      FeedAppend(READY, CodeOf(acts[0]), CodeAll(acts[1..]));
      assert [acts[0]] + acts[1..] == acts;
    }
  }

  // And they are what is done on the screen, in however many calls they come.
  lemma CodesDone(sc: Screen, s: State, acts: seq<Act>, chunks: seq<string>)
    requires Counts(s) && s.p == READY && Concat(chunks) == CodeAll(acts) && Without('\r', CodeAll(acts))
    requires forall i :: 0 <= i < |acts| ==> Printable(acts[i])
    ensures var t := RunChunks(sc, s, chunks);
            t.p == READY && Erase(t.log) == Erase(s.log) + acts
  {
    hide RunChunks, Erase, FeedAll, CodeAll, Printable;
    ActsBack(acts);
    ChunksErased(sc, s, chunks);
  }

  // Any other character behind ESC, or behind ESC ] and a number, ends the sequence and does
  // nothing.
  lemma OtherEscapes(ch: char, code: int32)
    requires code >= -1
    ensures ch !in "[]78M" ==> FeedAll(READY, "\U{1B}" + [ch]) == (READY, [])
    ensures !('0' <= ch <= '9') && ch != ';' ==>
              FeedAll(READY, "\U{1B}" + "]" + PrintNumber(code) + [ch]) == (READY, [])
  {
    hide FeedAll, PrintNumber;
    var p0, p1 := READY.(ctl := SeenEsc), Parser(SeenEscRbracket, [], -1, "");
    FeedOne(READY, '\U{1B}');
    FeedOne(p0, ch);
    if ch !in "[]78M" {
      assert ch != '[' && ch != ']' && ch != '7' && ch != '8' && ch != 'M';
      FeedThen(READY, "\U{1B}", p0, [ch], READY, []);
    }
    FeedOne(p0, ']');
    FeedThen(READY, "\U{1B}", p0, "]", p1, []);
    FeedNumber(p1, code);
    var p2 := p1.(cur := code);
    FeedThen(READY, "\U{1B}" + "]", p1, PrintNumber(code), p2, []);
    FeedOne(p2, ch);
    if !('0' <= ch <= '9') && ch != ';' {
      FeedThen(READY, "\U{1B}" + "]" + PrintNumber(code), p2, [ch], READY, []);
    }
  }

  // ---- insertString ----

  // Between calls the count of columns is gone.
  function Settle(s: State): State {
    s.(column := s.cache.col, n := 0, apart := false)
  }

  lemma RunInSequence(sc: Screen, s: State, str: string)
    requires Counts(s) && s.p.ctl != Initial && str != []
    ensures Run(sc, s, str) == Run(sc, Step(sc, s, str[0]), str[1..])
    ensures Step(sc, s, str[0]).p.ctl == Initial ==> Refresh(sc, Step(sc, s, str[0])) == Step(sc, s, str[0])
  {
    hide Measured, T.UpdateColumn, AddDigit;
  }

  lemma Rest(str: string, i: nat)
    requires i < |str|
    ensures str[i..][0] == str[i] && str[i..][1..] == str[i + 1..]
    ensures |str[i..]| >= 2 ==> str[i..][2..] == str[i + 2..]
  {
  }

  // Where a slice ends that begins at b and is counted so; whether the count has gone back.
  function EndOf(b: Start, columns: seq<known>): known {
    if columns == [] then b.col else columns[|columns| - 1]
  }

  predicate Apart(b: Start, columns: seq<known>) {
    if columns == [] then b.apart
    else
      var before := columns[..|columns| - 1];
      Apart(b, before) || EndOf(b, columns) < EndOf(b, before)
  }

  lemma {:induction false} LowApart(b: Start, columns: seq<known>)
    requires EndOf(b, columns) == -1
    ensures Apart(b, columns)
  {
    if EndOf(b, columns[..|columns| - 1]) == -1 {
      LowApart(b, columns[..|columns| - 1]);
    }
  }

  // The characters of a slice that begins at b, with the columns they are shown at.
  function Slice(text: string, b: Start, columns: seq<known>): (done: seq<Done>)
    requires |columns| == |text|
    ensures |done| == |text|
  {
    if text == "" then []
    else
      var k := |text| - 1;
      Slice(text[..k], b, columns[..k]) + [SliceLast(text, b, columns)]
  }

  function SliceLast(text: string, b: Start, columns: seq<known>): Done
    requires |columns| == |text| > 0
  {
    Shown(text[|text| - 1], Cache(b.line, EndOf(b, columns)), if Apart(b, columns) then |text| else 0)
  }

  lemma SliceSnoc(text: string, b: Start, columns: seq<known>, ch: char, column: known)
    requires |columns| == |text|
    ensures var apart := Apart(b, columns) || column < EndOf(b, columns);
            && Apart(b, columns + [column]) == apart
            && Slice(text + [ch], b, columns + [column]) ==
               Slice(text, b, columns) + [Shown(ch, Cache(b.line, column), if apart then |text| + 1 else 0)]
  {
    var cols := columns + [column];
    assert cols[..|columns|] == columns && (text + [ch])[..|text|] == text;
    assert EndOf(b, cols) == column;
  }

  // The machine when text waits to be shown, at these columns, where the cache is still that
  // of before.
  function Waiting(sc: Screen, p: Parser, cache: Cache, log: seq<Done>, text: string, column: known,
                   columns: seq<known>): State
    requires |columns| == |text|
  {
    if text == "" then State(p, column, cache, 0, false, log)
    else
      var b := Begin(sc, cache, log);
      State(p, column, Cache(b.line, column), |text|, Apart(b, columns), log + Slice(text, b, columns))
  }

  lemma WaitingCounts(sc: Screen, p: Parser, cache: Cache, log: seq<Done>, text: string, column: known,
                      columns: seq<known>)
    requires |columns| == |text|
    requires text != "" ==> column == columns[|columns| - 1]
    ensures var s := Waiting(sc, p, cache, log, text, column, columns);
            Counts(s) && s.p == p && s.column == column
  {
    hide Begin, Slice, Apart;
    if text != "" && column == -1 {
      LowApart(Begin(sc, cache, log), columns);
    }
  }

  // One character more.
  lemma WaitingShow(sc: Screen, p: Parser, cache: Cache, log: seq<Done>, text: string, column: known,
                    columns: seq<known>, ch: char)
    requires |columns| == |text| && !Breaks(sc, column, ch)
    requires text != "" ==> column == columns[|columns| - 1]
    ensures var s, next := Waiting(sc, p, cache, log, text, column, columns), NextColumn(sc, column, ch);
            && Counts(s)
            && ShowChar(sc, s, ch) == Waiting(sc, p, cache, log, text + [ch], next, columns + [next])
  {
    hide Begin, Slice, Apart, Breaks, NextColumn;
    WaitingCounts(sc, p, cache, log, text, column, columns);
    var b, next := Begin(sc, cache, log), NextColumn(sc, column, ch);
    SliceSnoc(text, b, columns, ch, next);
    if text == "" {
      NothingWaits(b, columns);
    } else {
      var d := Shown(ch, Cache(b.line, next), if Apart(b, columns + [next]) then |text| + 1 else 0);
      assert log + Slice(text, b, columns) + [d] == log + (Slice(text, b, columns) + [d]);
    }
  }

  lemma OneMore(str: string, prevEnd: nat, i: nat)
    requires prevEnd <= i < |str|
    ensures str[prevEnd..i + 1] == str[prevEnd..i] + [str[i]]
    ensures prevEnd == i ==> str[prevEnd..i] == "" && str[prevEnd..i + 1] == [str[i]]
  {
  }

  lemma OnlyOne(columns: seq<known>, column: known)
    requires |columns| == 0
    ensures columns + [column] == [column]
  {
  }

  // One behind a break.
  lemma BrokenShow(sc: Screen, s: State, ch: char)
    requires Counts(s) && Breaks(sc, s.column, ch)
    ensures var next := NextColumn(sc, s.column, ch);
            ShowChar(sc, s, ch) ==
            Waiting(sc, s.p, Cache(LineBelow(s.cache.line), 0), s.log + [Broken], [ch], next, [next])
  {
    hide Begin, Breaks, NextColumn;
    var b, next := Begin(sc, Cache(LineBelow(s.cache.line), 0), s.log + [Broken]), NextColumn(sc, s.column, ch);
    SliceSnoc("", b, [], ch, next);
    NothingWaits(b, []);
    assert [] + [next] == [next] && "" + [ch] == [ch];
    var d := Shown(ch, Cache(b.line, next), if Apart(b, [next]) then 1 else 0);
    assert [] + [d] == [d];
  }

  lemma NothingWaits(b: Start, columns: seq<known>)
    requires columns == []
    ensures Apart(b, columns) == b.apart && Slice("", b, columns) == []
  {
  }

  // A control asks for the cache, not for the count.
  lemma SameOutcome(sc: Screen, s: State, s0: State, act: Act)
    requires Counts(s) && Counts(s0) && s0 == s.(column := s0.column) && s.n == 0
    ensures Perform(sc, s0, act) == if act.Bell? then Perform(sc, s, act).(column := s0.column) else Perform(sc, s, act)
  {
    hide Measured, InsertMode;
  }

  // Nor does it ask whether characters wait.
  lemma ClosedAsks(sc: Screen, s: State, str: string)
    requires Counts(s) && str != []
    ensures TakesBoth(sc, s.(n := 0, apart := false), str) == TakesBoth(sc, s, str)
    ensures forall act :: Perform(sc, s.(n := 0, apart := false), act) == Perform(sc, s, act)
  {
    hide Measured, InsertMode;
  }

  // A carriage return asks only for the line.
  lemma ReturnAsks(sc: Screen, s: State, s': State)
    requires Counts(s) && Counts(s') && s'.p == s.p && s'.log == s.log && Lined(sc, s') == Lined(sc, s)
    ensures Perform(sc, s', Cr) == Perform(sc, s, Cr) && Perform(sc, s', CrLf) == Perform(sc, s, CrLf)
  {
    hide Lined;
  }

  // java.util.Arrays.copyOf, to a greater length.
  method CopyOf(original: array<int32>, newLength: nat) returns (copy: array<int32>)
    requires original.Length <= newLength
    ensures fresh(copy) && copy.Length == newLength && copy[..original.Length] == original[..]
  {
    copy := new int32[newLength];
    for i := 0 to original.Length
      invariant forall j :: 0 <= j < i ==> copy[j] == original[j]
    {
      copy[i] := original[i];
    }
  }

  class Terminal {
    const sc: Screen
    var controlSequenceState: Control
    var prevParametersCount: nat
    var curNumParameter: int32
    var prevNumParameters: array?<int32>
    var curTextParameter: string
    var currentCursorLine: known
    var currentCursorColumn: known
    // What has been done to the screen.
    var log: seq<Done>

    constructor (sc: Screen)
      ensures Valid() && fresh(this) && S() == State(READY, -1, RESET, 0, false, [])
    {
      this.sc := sc;
      controlSequenceState := Initial;
      prevParametersCount := 0;
      curNumParameter := -1;
      prevNumParameters := null;
      curTextParameter := "";
      currentCursorLine := -1;
      currentCursorColumn := -1;
      log := [];
    }

    // The parameters before the current one are in the array; outside a control sequence
    // there is no array.
    ghost predicate Valid()
      reads this, prevNumParameters
    {
      && (prevNumParameters != null ==> InNumbers() && prevNumParameters.Length >= 4)
      && (InNumbers() ==> prevParametersCount <= (if prevNumParameters == null then 0 else prevNumParameters.Length))
    }

    predicate InNumbers()
      reads this
    {
      controlSequenceState == SeenEscLbracket || controlSequenceState == SeenEscLbracketQuestion
    }

    ghost function Prev(): seq<int32>
      reads this, prevNumParameters
      requires Valid()
    {
      if InNumbers() && prevNumParameters != null then prevNumParameters[..prevParametersCount] else []
    }

    ghost function P(): Parser
      reads this, prevNumParameters
      requires Valid()
    {
      Parser(controlSequenceState, Prev(),
             if controlSequenceState == Initial || controlSequenceState == SeenEsc then -1 else curNumParameter,
             if controlSequenceState == SeenEscBracketText then curTextParameter else "")
    }

    ghost function S(): State
      reads this, prevNumParameters
      requires Valid()
    {
      State(P(), currentCursorColumn, Cursor(), 0, false, log)
    }

    function Cursor(): Cache
      reads this
    {
      Cache(currentCursorLine, currentCursorColumn)
    }

    method UpdateCursorCache()
      modifies this`currentCursorLine, this`currentCursorColumn
      ensures Cursor() == Measured(sc, log)
    {
      var c := Measured(sc, log);
      currentCursorLine, currentCursorColumn := c.line, c.col;
    }

    method GetCursorLine() returns (line: nat)
      modifies this`currentCursorLine, this`currentCursorColumn
      ensures line == currentCursorLine
      ensures Cursor() == if old(currentCursorLine) < 0 then Measured(sc, log) else old(Cursor())
    {
      if currentCursorLine < 0 {
        UpdateCursorCache();
      }
      line := currentCursorLine;
    }

    method GetCursorColumn() returns (column: nat)
      requires Valid()
      modifies this`currentCursorLine, this`currentCursorColumn
      ensures Valid() && S() == Refresh(sc, old(S())) && column == currentCursorColumn
    {
      if currentCursorColumn < 0 {
        UpdateCursorCache();
      }
      column := currentCursorColumn;
    }

    // insertSimpleOutput: shows a slice of the input, which ends in endColumn; columns are those
    // of its characters. In insert mode, with long lines wrapped, it makes room at the end of
    // the line and moves back to the cached place.
    method InsertSimpleOutput(str: string, beginIndex: nat, endIndex: nat, endColumn: known, columns: seq<known>)
      requires Valid() && beginIndex <= endIndex <= |str| && |columns| == endIndex - beginIndex
      modifies this`currentCursorLine, this`currentCursorColumn, this`log
      ensures Valid() && P() == old(P())
      ensures beginIndex == endIndex ==> Cursor() == old(Cursor()) && log == old(log)
      ensures var b := Begin(sc, old(Cursor()), old(log));
              beginIndex < endIndex ==>
                Cursor() == Cache(b.line, endColumn) &&
                log == old(log) + Slice(str[beginIndex..endIndex], b, columns)
    {
      hide Measured, Slice, InsertMode;
      if endIndex - beginIndex == 0 {
        return;
      }
      var column := GetCursorColumn();
      var apart := sc.tabs(log);
      if InsertMode(sc, log) && sc.wrapOnLongLines {
        var line := GetCursorLine();
        apart := apart || Cache(line, column) != Measured(sc, log);
      }
      log := log + Slice(str[beginIndex..endIndex], Start(currentCursorLine, column, apart), columns);
      currentCursorColumn := endColumn;
    }

    // insertWrapBreak
    method InsertWrapBreak()
      modifies this`currentCursorLine, this`currentCursorColumn, this`log
      ensures Cursor() == Cache(LineBelow(old(currentCursorLine)), 0) && log == old(log) + [Broken]
    {
      log := log + [Broken];
      if currentCursorLine >= 0 {
        currentCursorLine := currentCursorLine + 1;
      }
      currentCursorColumn := 0;
    }

    // What a control does to the screen and to the cache.
    method CarryOut(act: Act) returns (effect: Effect)
      requires !act.Bell?
      modifies this`currentCursorLine, this`currentCursorColumn
      ensures Valid() == old(Valid())
      ensures old(Valid()) ==> (effect, Cursor()) == Outcome(sc, old(S()), act)
    {
      hide Measured, InsertMode;
      effect := 0;
      if act.CrLf? {
        currentCursorLine, currentCursorColumn := -1, -1;
      } else if act.Cr? {
        var line := GetCursorLine();
        var done := sc.moves(log, act, Cursor());
        effect := done.0;
        currentCursorLine, currentCursorColumn := line, done.1.col;
      } else if act.Backspace? && sc.stepsBack(log) {
        if currentCursorColumn > 0 {
          currentCursorColumn := currentCursorColumn - 1;
        }
      } else if act.Lf? && sc.lineEditing {
        if InsertMode(sc, log) {
          currentCursorLine := if currentCursorLine >= 0 then currentCursorLine + 1 else -1;
          currentCursorColumn := 0;
        } else {
          currentCursorLine, currentCursorColumn := -1, -1;
        }
      } else {
        var done := if EndsSequence(act) then sc.does(log, act, Cursor()) else sc.moves(log, act, Cursor());
        effect := done.0;
        currentCursorLine, currentCursorColumn := done.1.line, done.1.col;
      }
    }

    // A control is carried out, and behind a control sequence the column read again.
    method Do(act: Act)
      requires Valid()
      modifies this`currentCursorLine, this`currentCursorColumn, this`log
      ensures Valid() && S() == Settle(Perform(sc, old(S()), act))
    {
      hide Measured, InsertMode, Outcome;
      if act.Bell? {
        log := log + [Rang];
        return;
      }
      var effect := CarryOut(act);
      log := log + [Did(act, effect)];
      if EndsSequence(act) {
        var _ := GetCursorColumn();
      }
      log := log + [Left(Cursor())];
    }

    // A digit of a parameter.
    method Digit(ch: char)
      requires Valid() && IsDigit(ch) && controlSequenceState != Initial && controlSequenceState != SeenEsc
      requires controlSequenceState != SeenEscBracketText
      modifies this`curNumParameter
      ensures Valid() && S() == Step(sc, old(S()), ch) && controlSequenceState == old(controlSequenceState)
    {
      curNumParameter := if curNumParameter >= 0 then Wrap32(10 * curNumParameter) else 0;
      curNumParameter := Wrap32(curNumParameter + (ch as int - '0' as int));
    }

    // A semicolon: the array is made, or doubled when it is full.
    method Semicolon()
      requires Valid() && InNumbers()
      modifies this, prevNumParameters
      ensures Valid() && S() == Step(sc, old(S()), ';') && InNumbers()
      ensures log == old(log) && Cursor() == old(Cursor())
      ensures prevNumParameters == null || prevNumParameters == old(prevNumParameters) || fresh(prevNumParameters)
    {
      ghost var prev := Prev();
      if prevNumParameters == null {
        prevNumParameters := new int32[4];
      } else if prevNumParameters.Length <= prevParametersCount {
        prevNumParameters := CopyOf(prevNumParameters, 2 * prevParametersCount);
      }
      assert prevNumParameters[..prevParametersCount] == prev;
      prevNumParameters[prevParametersCount] := curNumParameter;
      curNumParameter := -1;
      prevParametersCount := prevParametersCount + 1;
      assert Prev() == prev + [old(curNumParameter)];
    }

    // Back to the initial state, where the array is dropped.
    method Ready()
      modifies this`controlSequenceState, this`prevNumParameters, this`curNumParameter
      ensures Valid() && P() == READY && controlSequenceState == Initial && prevNumParameters == null
    {
      controlSequenceState := Initial;
      prevNumParameters := null;
    }

    // A character inside a control sequence, from the state after ESC on.
    method InSequence(ch: char)
      requires Valid() && controlSequenceState != Initial
      modifies this, prevNumParameters
      ensures prevNumParameters == null || prevNumParameters == old(prevNumParameters) || fresh(prevNumParameters)
      ensures Valid() && S() == Step(sc, old(S()), ch)
    {
      hide Measured, InsertMode, Outcome, ShowChar, T.UpdateColumn;
      ghost var s0 := S();
      match controlSequenceState
      case SeenEsc =>
        if ch == '[' {
          controlSequenceState := SeenEscLbracket;
          curNumParameter := -1;
          prevParametersCount := 0;
        } else if ch == ']' {
          controlSequenceState := SeenEscRbracket;
          curNumParameter := -1;
          prevParametersCount := 0;
        } else {
          controlSequenceState := Initial;
          if ch == '7' {
            Do(Save);
          } else if ch == '8' {
            Do(Restore);
          } else if ch == 'M' {
            Do(ReverseIndex);
          } else {
            var _ := GetCursorColumn();
          }
        }
      case SeenEscLbracket => InNumberList(ch);
      case SeenEscLbracketQuestion => InNumberList(ch);
      case SeenEscRbracket =>
        if IsDigit(ch) {
          Digit(ch);
        } else if ch == ';' {
          controlSequenceState := SeenEscBracketText;
          curTextParameter := "";
        } else {
          Ready();
          var _ := GetCursorColumn();
        }
      case SeenEscBracketText =>
        if ch == BEL || ch == NUL {
          var act := Osc(curNumParameter, curTextParameter);
          Ready();
          Do(act);
        } else {
          curTextParameter := curTextParameter + [ch];
        }
    }

    // handleControlSequence sees the list of parameters, with the last one apart.
    method InNumberList(ch: char)
      requires Valid() && InNumbers()
      modifies this, prevNumParameters
      ensures prevNumParameters == null || prevNumParameters == old(prevNumParameters) || fresh(prevNumParameters)
      ensures Valid() && S() == Step(sc, old(S()), ch)
    {
      if IsDigit(ch) {
        Digit(ch);
      } else if ch == ';' {
        Semicolon();
      } else if ch == '?' {
        controlSequenceState := SeenEscLbracketQuestion;
      } else {
        var prev := if prevNumParameters == null then [] else prevNumParameters[..prevParametersCount];
        var act := Csi(prev + [curNumParameter], controlSequenceState == SeenEscLbracketQuestion, ch);
        Ready();
        Do(act);
      }
    }

    // Where the machine is when text waits to be shown, at these columns.
    ghost function Pending(text: string, curColumn: known, columns: seq<known>): State
      reads this, prevNumParameters
      requires Valid() && (controlSequenceState == Initial ==> |columns| == |text|)
    {
      if controlSequenceState != Initial then S()
      else Waiting(sc, P(), Cursor(), log, text, curColumn, columns)
    }

    // The text that waits is the input from prevEnd to i.
    ghost predicate Tracks(str: string, prevEnd: nat, i: nat, curColumn: known, columns: seq<known>)
      reads this, prevNumParameters
    {
      && Valid() && prevEnd <= i <= |str| && |columns| == i - prevEnd
      && (columns != [] ==> curColumn == columns[|columns| - 1])
      && (controlSequenceState != Initial ==> prevEnd == i)
    }

    // Shows what is pending before a control.
    method Flush(str: string, prevEnd: nat, i: nat, curColumn: known, columns: seq<known>)
      requires Tracks(str, prevEnd, i, curColumn, columns) && controlSequenceState == Initial
      modifies this`currentCursorLine, this`currentCursorColumn, this`log
      ensures Valid() && P() == old(P()) && S() == Settle(old(Pending(str[prevEnd..i], curColumn, columns)))
      ensures Pending("", curColumn, []) == old(Pending(str[prevEnd..i], curColumn, columns)).(n := 0, apart := false)
    {
      hide Begin, Slice, Apart;
      assert prevEnd == i ==> str[prevEnd..i] == "";
      InsertSimpleOutput(str, prevEnd, i, curColumn, columns);
    }

    // A control outside control sequences, where nothing is pending.
    method Control(curColumn0: known, act: Act) returns (curColumn: known)
      requires Valid() && Counts(Pending("", curColumn0, [])) && controlSequenceState == Initial
      modifies this`currentCursorLine, this`currentCursorColumn, this`log
      ensures Valid() && P() == old(P())
      ensures Pending("", curColumn, []) == Perform(sc, old(Pending("", curColumn0, [])), act)
    {
      hide Outcome, Reread;
      ghost var s, s0 := S(), Pending("", curColumn0, []);
      Do(act);
      curColumn := if act.Bell? then curColumn0 else if act.Cr? || act.CrLf? then 0 else currentCursorColumn;
      SameOutcome(sc, s, s0, act);
    }

    // A character outside control sequences that is shown, and may overflow the line.
    method Character(str: string, prevEnd0: nat, i: nat, curColumn0: known, columns0: seq<known>)
      returns (prevEnd: nat, curColumn: known, columns: seq<known>)
      requires Tracks(str, prevEnd0, i, curColumn0, columns0) && controlSequenceState == Initial && i < |str|
      requires InitialAct(str[i]).Chr? && str[i] != ESC
      modifies this`currentCursorLine, this`currentCursorColumn, this`log
      ensures Tracks(str, prevEnd, i + 1, curColumn, columns) && controlSequenceState == Initial
      ensures var s := old(Pending(str[prevEnd0..i], curColumn0, columns0));
              Counts(s) && Pending(str[prevEnd..i + 1], curColumn, columns) == Step(sc, s, str[i])
    {
      hide T.UpdateColumn, Slice, Apart, Begin, Waiting;
      var ch := str[i];
      prevEnd, curColumn, columns := prevEnd0, curColumn0, columns0;
      WaitingCounts(sc, P(), Cursor(), log, str[prevEnd..i], curColumn, columns);
      var nextColumn := T.UpdateColumn(ch, curColumn);
      ghost var s := Pending(str[prevEnd0..i], curColumn0, columns0);
      if Breaks(sc, curColumn, ch) {
        BrokenShow(sc, s, ch);
      } else {
        WaitingShow(sc, P(), Cursor(), log, str[prevEnd..i], curColumn, columns, ch);
      }
      if nextColumn > sc.wrapWidth {
        if sc.wrapOnLongLines {
          Flush(str, prevEnd, i, curColumn, columns);
          InsertWrapBreak();
          prevEnd, columns := i, [];
        }
        nextColumn := T.UpdateColumn(ch, 0);
      }
      OneMore(str, prevEnd, i);
      curColumn := nextColumn;
      if prevEnd == i {
        OnlyOne(columns, curColumn);
      }
      columns := columns + [curColumn];
    }

    // A \r, with the \n behind it if the cached line is not the last of the scroll region.
    method Return(str: string, i: nat, curColumn0: known) returns (curColumn: known, read: nat)
      requires Valid() && Counts(Pending("", curColumn0, [])) && controlSequenceState == Initial
      requires i < |str| && str[i] == '\r'
      modifies this`currentCursorLine, this`currentCursorColumn, this`log
      ensures Valid() && P() == old(P()) && i + read <= |str|
      ensures var s := old(Pending("", curColumn0, []));
              if TakesBoth(sc, s, str[i..]) then read == 2 && Pending("", curColumn, []) == Perform(sc, s, CrLf)
              else read == 1 && Pending("", curColumn, []) == Perform(sc, s, Cr)
    {
      hide Measured, Perform;
      ghost var s := Pending("", curColumn0, []);
      var both := false;
      if i + 1 < |str| && str[i + 1] == '\n' {
        var line := GetCursorLine();
        both := line != sc.bottom(log) - 1;
        ReturnAsks(sc, s, Pending("", currentCursorColumn, []));
        curColumn := currentCursorColumn;
      } else {
        curColumn := curColumn0;
      }
      if both {
        curColumn := Control(curColumn, CrLf);
        read := 2;
      } else {
        curColumn := Control(curColumn, Cr);
        read := 1;
      }
    }

    // A character outside control sequences; read is 2 for \r\n.
    method Outside(str: string, prevEnd0: nat, i: nat, curColumn0: known, columns0: seq<known>)
      returns (prevEnd: nat, curColumn: known, columns: seq<known>, read: nat)
      requires Tracks(str, prevEnd0, i, curColumn0, columns0) && controlSequenceState == Initial && i < |str|
      modifies this`currentCursorLine, this`currentCursorColumn, this`log, this`controlSequenceState
      ensures i + read <= |str| && Tracks(str, prevEnd, i + read, curColumn, columns)
      ensures var s0 := old(Pending(str[prevEnd0..i], curColumn0, columns0));
              && Counts(s0)
              && if TakesBoth(sc, s0, str[i..]) then
                   read == 2 && Pending(str[prevEnd..i + 2], curColumn, columns) == Perform(sc, s0, CrLf)
                 else read == 1 && Pending(str[prevEnd..i + 1], curColumn, columns) == Step(sc, s0, str[i])
    {
      hide T.UpdateColumn, Slice, Apart, Begin, ShowChar, Measured, InsertMode, Outcome;
      var ch := str[i];
      read, prevEnd, curColumn, columns := 1, i + 1, curColumn0, [];
      ghost var s0 := Pending(str[prevEnd0..i], curColumn0, columns0);
      WaitingCounts(sc, P(), Cursor(), log, str[prevEnd0..i], curColumn0, columns0);
      ClosedAsks(sc, s0, str[i..]);
      assert str[i..][0] == ch && str[i + 1..i + 1] == "";
      if ch == '\r' {
        Flush(str, prevEnd0, i, curColumn0, columns0);
        curColumn, read := Return(str, i, curColumn0);
        prevEnd := i + read;
        assert str[i + read..i + read] == "";
      } else if ch == '\n' || ch == BS || ch == '\t' || ch == BEL {
        Flush(str, prevEnd0, i, curColumn0, columns0);
        curColumn := Control(curColumn0, InitialAct(ch));
      } else if ch == ESC {
        Flush(str, prevEnd0, i, curColumn0, columns0);
        controlSequenceState := SeenEsc;
      } else {
        prevEnd, curColumn, columns := Character(str, prevEnd0, i, curColumn0, columns0);
      }
    }

    // One turn of the loop. What is left to do stays the same.
    method Turn(str: string, prevEnd0: nat, i0: nat, curColumn0: known, columns0: seq<known>)
      returns (prevEnd: nat, i: nat, curColumn: known, columns: seq<known>)
      requires Tracks(str, prevEnd0, i0, curColumn0, columns0) && i0 < |str|
      modifies this, prevNumParameters
      ensures Tracks(str, prevEnd, i, curColumn, columns) && i0 < i
      ensures Counts(Pending(str[prevEnd..i], curColumn, columns))
      ensures var s := old(Pending(str[prevEnd0..i0], curColumn0, columns0));
              Counts(s) && Run(sc, Pending(str[prevEnd..i], curColumn, columns), str[i..]) == Run(sc, s, str[i0..])
      ensures prevNumParameters == null || prevNumParameters == old(prevNumParameters) || fresh(prevNumParameters)
    {
      hide Run, Step, Perform, TakesBoth, Refresh, Feed, InsertMode, InitialAct, Slice, Measured;
      Rest(str, i0);
      if controlSequenceState == Initial {
        var read;
        ghost var s := Pending(str[prevEnd0..i0], curColumn0, columns0);
        prevEnd, curColumn, columns, read := Outside(str, prevEnd0, i0, curColumn0, columns0);
        RunNext(sc, s, str[i0..]);
        i := i0 + read;
      } else {
        RunInSequence(sc, S(), str[i0..]);
        InSequence(str[i0]);
        prevEnd, i, curColumn, columns := i0 + 1, i0 + 1, curColumn0, [];
        assert str[i..i] == "";
        if controlSequenceState == Initial {
          curColumn := GetCursorColumn();
        }
      }
    }

    // The characters are handled in batches, as the machine handles them one by one. columns
    // are those of the slice of the input from prevEnd to i.
    method InsertString(str: string)
      requires Valid()
      modifies this, prevNumParameters
      ensures Valid() && S() == Settle(Run(sc, Refresh(sc, old(S())), str))
    {
      hide Run, Refresh, Slice, Measured;
      var prevEnd: nat := 0;
      var curColumn: known := GetCursorColumn();
      var columns: seq<known> := [];
      ghost var g := Run(sc, S(), str);
      var i: nat := 0;
      assert str[0..0] == "" && str[0..] == str;
      while i < |str|
        invariant Tracks(str, prevEnd, i, curColumn, columns)
        invariant Counts(Pending(str[prevEnd..i], curColumn, columns))
        invariant Run(sc, Pending(str[prevEnd..i], curColumn, columns), str[i..]) == g
        invariant prevNumParameters == null || prevNumParameters == old(prevNumParameters) || fresh(prevNumParameters)
      {
        prevEnd, i, curColumn, columns := Turn(str, prevEnd, i, curColumn, columns);
      }
      assert str[i..] == "";
      RunNothing(sc, Pending(str[prevEnd..i], curColumn, columns));
      if controlSequenceState == Initial {
        Flush(str, prevEnd, i, curColumn, columns);
      }
    }
  }
}
