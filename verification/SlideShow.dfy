// Files.java and FXSlideShow.java: a list of files walked forward and back, and three slots
// that keep the previous, the current and the next image loading.

module SlideShow {
  import opened Grids

  // ---- Where a step leads ----

  // -1 where there is none.
  function After(n: nat, loop: bool, c: int): (m: int)
    ensures 0 <= c < n ==> -1 <= m < n
  {
    if c + 1 < n then c + 1 else if loop then 0 else -1
  }

  function Before(n: nat, loop: bool, c: int): (m: int)
    ensures 0 <= c < n ==> -1 <= m < n
  {
    if c > 0 then c - 1 else if loop then n - 1 else -1
  }

  // A step that succeeds is undone by the step the other way.
  lemma BackAgain(n: nat, loop: bool, c: int)
    requires 0 <= c < n
    ensures After(n, loop, c) >= 0 ==> Before(n, loop, After(n, loop, c)) == c
    ensures Before(n, loop, c) >= 0 ==> After(n, loop, Before(n, loop, c)) == c
  {
  }

  // n steps forward go once round a loop.
  lemma {:induction false} RoundTheLoop(n: nat, c: int, k: nat)
    requires 0 <= c < n
    ensures Steps(n, true, c, k) == (c + k) % n
    decreases k
  {
    if k > 0 {
      RoundTheLoop(n, c, k - 1);
      Wraps(n, c + k - 1);
    }
  }

  function Steps(n: nat, loop: bool, c: int, k: nat): int {
    if k == 0 then c else After(n, loop, Steps(n, loop, c, k - 1))
  }

  lemma Wraps(n: nat, m: nat)
    requires n > 0
    ensures (m + 1) % n == if m % n + 1 < n then m % n + 1 else 0
  {
    var q, r := m / n, m % n;
    assert m + 1 == q * n + (r + 1);
    if r + 1 < n {
      DivIs(m + 1, n, q, r + 1);
    } else {
      assert m + 1 == (q + 1) * n;
      DivIs(m + 1, n, q + 1, 0);
    }
  }

  // ---- Files.java ----

  class Files {
    const theFiles: seq<string>
    var prev: int
    var current: int
    var next: int
    var loop: bool

    constructor (theFiles: seq<string>)
      ensures this.theFiles == theFiles && current == 0
    {
      this.theFiles := theFiles;
      prev, current, next, loop := -1, 0, 1, false;
    }

    ghost predicate Valid()
      reads this
    {
      && 0 <= current < |theFiles|
      && prev == Before(|theFiles|, loop, current) && next == After(|theFiles|, loop, current)
    }

    function GetPrev(): int
      reads this
    {
      var p := current - 1;
      if p < 0 then (if loop then |theFiles| - 1 else -1) else p
    }

    function GetNext(): int
      reads this
    {
      var n := current + 1;
      if n >= |theFiles| then (if loop then 0 else -1) else n
    }

    method SetLoop(loop: bool)
      requires 0 <= current < |theFiles|
      modifies this
      ensures Valid() && this.loop == loop && current == old(current)
    {
      this.loop := loop;
      prev := GetPrev();
      next := GetNext();
    }

    method Next() returns (moved: bool)
      requires Valid()
      modifies this
      ensures Valid() && loop == old(loop)
      ensures moved <==> After(|theFiles|, loop, old(current)) >= 0
      ensures current == if moved then After(|theFiles|, loop, old(current)) else old(current)
      ensures moved ==> prev == old(current)
    {
      if current + 1 < |theFiles| {
        current := current + 1;
      } else if loop {
        current := 0;
      } else {
        return false;
      }
      next := GetNext();
      prev := GetPrev();
      return true;
    }

    method Previous() returns (moved: bool)
      requires Valid()
      modifies this
      ensures Valid() && loop == old(loop)
      ensures moved <==> Before(|theFiles|, loop, old(current)) >= 0
      ensures current == if moved then Before(|theFiles|, loop, old(current)) else old(current)
      ensures moved ==> next == old(current)
    {
      if current > 0 {
        current := current - 1;
      } else if loop {
        current := |theFiles| - 1;
      } else {
        return false;
      }
      next := GetNext();
      prev := GetPrev();
      return true;
    }
  }

  // ---- FXSlideShow.java ----

  class Task {
    const path: string
    var executed: bool
    // What the executor has made of it so far.
    var running: bool
    var done: bool
    var cancelled: bool

    constructor (path: string)
      ensures this.path == path && !executed && !cancelled
    {
      this.path := path;
      executed, running, done, cancelled := false, false, false, false;
    }

    // executor.execute
    method Execute()
      modifies this`executed
      ensures executed
    {
      executed := true;
    }

    method Cancel()
      modifies this
      ensures cancelled
    {
      running, done, cancelled := false, true, true;
    }
  }

  const CURRENT: nat := 0
  const NEXT: nat := 1
  const PREV: nat := 2

  function Url(file: string): string {
    "file:" + file
  }

  // What happens to the show: a key, or the executor getting on with a slot's task.
  datatype Event = Step(forward: bool) | Status(slot: nat, running: bool, done: bool)

  // The place after a script of events.
  function Position(n: nat, loop: bool, c: int, script: seq<Event>): int {
    if script == [] then c
    else
      var e, before := script[|script| - 1], Position(n, loop, c, script[..|script| - 1]);
      if e.Status? then before
      else
        var to := if e.forward then After(n, loop, before) else Before(n, loop, before);
        if to >= 0 then to else before
  }

  lemma PositionNext(n: nat, loop: bool, c: int, script: seq<Event>, i: nat)
    requires i < |script|
    ensures var before, e := Position(n, loop, c, script[..i]), script[i];
            Position(n, loop, c, script[..i + 1]) ==
            if e.Status? then before
            else
              var to := if e.forward then After(n, loop, before) else Before(n, loop, before);
              if to >= 0 then to else before
  {
    assert script[..i + 1][..i] == script[..i];
  }

  lemma PositionStart(n: nat, loop: bool, c: int)
    ensures Position(n, loop, c, []) == c
  {
  }

  class Show {
    const files: Files
    const image: array<Task?>
    const savePrevious: bool
    var shown: Task?

    // Slot i is empty, or holds a task for the file at index f, given to the executor and not
    // cancelled.
    ghost predicate Holds(i: nat, f: int)
      reads this, files, image, if image.Length == 3 && i < 3 then {image[i]} else {}
      requires image.Length == 3 && i < 3
    {
      image[i] != null ==>
        && 0 <= f < |files.theFiles| && image[i].path == Url(files.theFiles[f])
        && image[i].executed && !image[i].cancelled
    }

    ghost predicate Valid()
      reads this, files, image, if image.Length == 3 then {image[0], image[1], image[2]} else {}
    {
      && image.Length == 3 && files.Valid()
      && image[CURRENT] != null && Holds(CURRENT, files.current)
      && Holds(NEXT, files.next) && Holds(PREV, files.prev)
      && Distinct()
    }

    constructor (theFiles: seq<string>, loop: bool, savePrevious: bool)
      requires |theFiles| > 0
      ensures Valid() && fresh(files) && fresh(image) && fresh(image[CURRENT])
      ensures image[NEXT] != null ==> fresh(image[NEXT])
      ensures files.theFiles == theFiles && files.loop == loop && files.current == 0
      ensures this.savePrevious == savePrevious
      ensures image[PREV] == null && (image[NEXT] != null <==> loop || |theFiles| > 1)
    {
      var fs := new Files(theFiles);
      fs.SetLoop(loop);
      var slots := new Task?[3](_ => null);
      slots[CURRENT] := new Task(Url(theFiles[0]));
      slots[CURRENT].Execute();
      if fs.next >= 0 {
        slots[NEXT] := new Task(Url(theFiles[fs.next]));
        slots[NEXT].Execute();
      }
      files, image := fs, slots;
      this.savePrevious := savePrevious;
      shown := null;
    }

    // A task that is done: the current one is shown.
    method Succeeded(task: Task)
      requires Valid()
      modifies this`shown
      ensures Valid() && shown == if task == image[CURRENT] then task else old(shown)
      ensures task == image[CURRENT] ==> shown.path == Url(files.theFiles[files.current])
    {
      if image[CURRENT] == task {
        shown := image[CURRENT];
      }
    }

    ghost predicate Distinct()
      reads this, image
      requires image.Length == 3
    {
      && image[CURRENT] != image[NEXT] && image[CURRENT] != image[PREV]
      && (image[NEXT] != null ==> image[NEXT] != image[PREV])
    }

    // The task behind is dropped, and the current one takes its place or is to be dropped too.
    method DropBehind(ahead: nat, behind: nat, ghost left: int)
      requires image.Length == 3 && {ahead, behind} == {NEXT, PREV} && Distinct()
      requires image[CURRENT] != null && Holds(CURRENT, left) && Holds(ahead, files.current)
      modifies image, image[CURRENT], image[behind]
      ensures image[behind] == if savePrevious then old(image[CURRENT]) else null
      ensures image[CURRENT] == old(image[CURRENT]) && image[ahead] == old(image[ahead])
      ensures Holds(behind, left) && Holds(ahead, files.current)
      ensures old(image[behind]) != null ==>
                old(image[behind]).cancelled == old(image[behind].cancelled || image[behind].running)
      ensures old(image[CURRENT]).cancelled == old(!savePrevious && image[CURRENT].running)
    {
      if image[behind] != null {
        if image[behind].running {
          image[behind].Cancel();
        }
        image[behind] := null;
      }
      if savePrevious {
        image[behind] := image[CURRENT];
      } else if image[CURRENT].running {
        image[CURRENT].Cancel();
      }
    }

    // The task ahead becomes the current one, and the next one ahead is started.
    method TakeAhead(ahead: nat, behind: nat, nextPath: int, ghost left: int)
      requires image.Length == 3 && {ahead, behind} == {NEXT, PREV}
      requires 0 <= files.current < |files.theFiles| && nextPath < |files.theFiles|
      requires Holds(behind, left) && Holds(ahead, files.current)
      requires image[ahead] != null ==> image[ahead] != image[behind]
      modifies this`shown, image
      ensures Distinct() && image[CURRENT] != null && Holds(CURRENT, files.current)
      ensures Holds(behind, left) && Holds(ahead, nextPath) && (image[ahead] != null <==> nextPath >= 0)
      ensures image[behind] == old(image[behind])
      ensures if old(image[ahead]) != null then image[CURRENT] == old(image[ahead]) else fresh(image[CURRENT])
      ensures image[ahead] != null ==> fresh(image[ahead])
      ensures shown ==
              if old(image[ahead]) != null && old(image[ahead].done) then old(image[ahead]) else old(shown)
    {
      image[CURRENT] := image[ahead];
      image[ahead] := null;
      if image[CURRENT] == null {
        image[CURRENT] := new Task(Url(files.theFiles[files.current]));
        image[CURRENT].Execute();
      } else if image[CURRENT].done {
        shown := image[CURRENT];
      }
      if nextPath >= 0 {
        image[ahead] := new Task(Url(files.theFiles[nextPath]));
        image[ahead].Execute();
      }
    }

    // The slots move by one.
    method Shift(ahead: nat, behind: nat, nextPath: int, ghost left: int)
      requires image.Length == 3 && {ahead, behind} == {NEXT, PREV} && Distinct()
      requires 0 <= files.current < |files.theFiles| && nextPath < |files.theFiles|
      requires image[CURRENT] != null && Holds(CURRENT, left) && Holds(ahead, files.current)
      modifies this`shown, image, image[0], image[1], image[2]
      ensures Distinct() && image[CURRENT] != null && Holds(CURRENT, files.current)
      ensures Holds(behind, left) && Holds(ahead, nextPath) && (image[ahead] != null <==> nextPath >= 0)
      ensures image[behind] == if savePrevious then old(image[CURRENT]) else null
      ensures if old(image[ahead]) != null then image[CURRENT] == old(image[ahead]) else fresh(image[CURRENT])
      ensures image[ahead] != null ==> fresh(image[ahead])
      ensures shown ==
              if old(image[ahead]) != null && old(image[ahead].done) then old(image[ahead]) else old(shown)
      ensures old(image[behind]) != null ==>
                old(image[behind]).cancelled == old(image[behind].cancelled || image[behind].running)
      ensures old(image[CURRENT]).cancelled == old(!savePrevious && image[CURRENT].running)
    {
      assert {ahead, behind} == {1, 2} ==> (ahead == 1 && behind == 2) || (ahead == 2 && behind == 1);
      DropBehind(ahead, behind, left);
      TakeAhead(ahead, behind, nextPath, left);
    }

    method NextImage(forward: bool) returns (moved: bool)
      requires Valid()
      modifies this`shown, files, image, image[0], image[1], image[2]
      ensures Valid() && files.loop == old(files.loop)
      ensures var n := |files.theFiles|;
              var to := if forward then After(n, files.loop, old(files.current))
                        else Before(n, files.loop, old(files.current));
              moved == (to >= 0) && files.current == if moved then to else old(files.current)
      ensures forall i :: 0 <= i < 3 && image[i] != null ==> image[i] in old(image[..]) || fresh(image[i])
      ensures !moved ==> image[..] == old(image[..])
      ensures var ahead := if forward then NEXT else PREV;
              shown ==
              if moved && old(image[ahead]) != null && old(image[ahead].done) then old(image[ahead]) else old(shown)
      ensures var ahead, behind := if forward then NEXT else PREV, if forward then PREV else NEXT;
              moved ==>
                && image[behind] == (if savePrevious then old(image[CURRENT]) else null)
                && (old(image[ahead]) != null ==> image[CURRENT] == old(image[ahead]))
                && (image[ahead] != null <==> (if forward then files.next else files.prev) >= 0)
                && (old(image[behind]) != null ==> old(image[behind]).cancelled == old(image[behind].running))
                && old(image[CURRENT]).cancelled == old(!savePrevious && image[CURRENT].running)
    {
      ghost var left := files.current;
      if forward {
        moved := files.Next();
        if moved {
          Shift(NEXT, PREV, files.next, left);
        }
      } else {
        moved := files.Previous();
        if moved {
          Shift(PREV, NEXT, files.prev, left);
        }
      }
    }

    // With previous images saved, a step and the step back leave the same task current.
    method ThereAndBack(forward: bool) returns (moved: bool)
      requires Valid() && savePrevious
      modifies this`shown, files, image, image[0], image[1], image[2]
      ensures Valid() && files.current == old(files.current) && image[CURRENT] == old(image[CURRENT])
    {
      moved := NextImage(forward);
      BackAgain(|files.theFiles|, files.loop, old(files.current));
      if moved {
        var _ := NextImage(!forward);
      }
    }

    // The executor gets on with a task.
    method SetStatus(slot: nat, running: bool, done: bool)
      requires Valid()
      modifies image[0], image[1], image[2]
      ensures Valid()
      ensures slot < 3 && image[slot] != null ==> image[slot].running == running && image[slot].done == done
      ensures forall i :: 0 <= i < 3 && i != slot && image[i] != null ==>
                image[i].running == old(image[i].running) && image[i].done == old(image[i].done)
    {
      if slot < 3 && image[slot] != null {
        image[slot].running, image[slot].done := running, done;
      }
    }

    // Every run of keys, with the executor at work between them.
    method Play(script: seq<Event>)
      requires Valid()
      modifies this`shown, files, image, image[0], image[1], image[2]
      ensures Valid()
      ensures files.current == Position(|files.theFiles|, files.loop, old(files.current), script)
    {
      hide Position, After, Before;
      PositionStart(|files.theFiles|, files.loop, files.current);
      for i := 0 to |script|
        invariant Valid() && files.loop == old(files.loop)
        invariant files.current == Position(|files.theFiles|, files.loop, old(files.current), script[..i])
        invariant forall j :: 0 <= j < 3 && image[j] != null ==> image[j] in old(image[..]) || fresh(image[j])
      {
        PositionNext(|files.theFiles|, files.loop, old(files.current), script, i);
        match script[i]
        case Step(forward) =>
          var _ := NextImage(forward);
        case Status(slot, running, done) =>
          SetStatus(slot, running, done);
      }
      assert script[..|script|] == script;
    }
  }
}
