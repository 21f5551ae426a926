/** Publishing two artifacts or none, `write_jsonl_pair_atomic` of `agent/charter_contracts.py`: names
    bound to inodes, exclusive hard links, and other processes between any two steps. */
module PairPublication {
  import opened Basics

  datatype Inode = Inode(number: nat)

  type Names = map<Path, Inode>

  /** One transaction: two destinations, and the private staging names with their fresh inodes. */
  datatype Pair = Pair(first: Path, second: Path, stage1: Path, stage2: Path, inode1: Inode, inode2: Inode)

  predicate PairOk(p: Pair) {
    && p.inode1 != p.inode2 && p.stage1 != p.stage2
    && {p.first, p.second} !! {p.stage1, p.stage2}
  }

  // ---------------------------------------------------------------- steps

  datatype Pc =
    | Staging1 | Staging2 | Linking1 | Linking2 | Comparing | Unlinking
    | Cleaning1(ok: bool) | Cleaning2(ok: bool) | Done(ok: bool)

  datatype State = State(names: Names, pc: Pc)

  /** Other processes bind or unbind one name at a time. */
  datatype Step = Ours | Theirs(name: Path, to: Option<Inode>)

  function Without(names: Names, name: Path): Names {
    map x | x in names && x != name :: names[x]
  }

  function Next(p: Pair, s: State): State {
    match s.pc
    case Staging1 => State(s.names[p.stage1 := p.inode1], Staging2)
    case Staging2 => State(s.names[p.stage2 := p.inode2], Linking1)
    case Linking1 => if p.first in s.names then s.(pc := Cleaning1(false))
                     else State(s.names[p.first := p.inode1], Linking2)
    case Linking2 => if p.second in s.names then s.(pc := Comparing)
                     else State(s.names[p.second := p.inode2], Cleaning1(true))
    case Comparing =>
      s.(pc := if p.first in s.names && s.names[p.first] == p.inode1 then Unlinking else Cleaning1(false))
    case Unlinking => State(Without(s.names, p.first), Cleaning1(false))
    case Cleaning1(ok) => State(Without(s.names, p.stage1), Cleaning2(ok))
    case Cleaning2(ok) => State(Without(s.names, p.stage2), Done(ok))
    case Done(_) => s
  }

  function After(p: Pair, s: State, step: Step): State {
    match step
    case Ours => Next(p, s)
    case Theirs(name, to) => s.(names := if to.Some? then s.names[name := to.value] else Without(s.names, name))
  }

  function Run(p: Pair, start: Names, steps: seq<Step>, n: nat): State
    requires n <= |steps|
  {
    if n == 0 then State(start, Staging1) else After(p, Run(p, start, steps, n - 1), steps[n - 1])
  }

  /** Staging names are unguessable: nobody else touches them. */
  predicate Private(p: Pair, step: Step) {
    step.Theirs? ==> step.name != p.stage1 && step.name != p.stage2
  }

  predicate Same(a: Names, b: Names, name: Path) {
    (name in a <==> name in b) && (name in a && name in b ==> a[name] == b[name])
  }

  // ---------------------------------------------------------------- nothing of others is overwritten

  /** The names a step of the transaction may change: its staging names, an absent destination it
      links, and the first destination it unlinks. */
  lemma StepTouchesOwn(p: Pair, s: State, name: Path)
    requires PairOk(p) && name != p.stage1 && name != p.stage2 && !Same(s.names, Next(p, s).names, name)
    ensures (name !in s.names && name in Next(p, s).names && (name == p.first || name == p.second))
         || (s.pc == Unlinking && name == p.first && name !in Next(p, s).names)
  {
  }

  /** A file somebody else bound is lost to this transaction exactly if it took the first destination
      between the comparison and the unlink. */
  lemma ForeignLostExactly(p: Pair, s: State, name: Path)
    requires PairOk(p) && name != p.stage1 && name != p.stage2 && name in s.names && s.names[name] != p.inode1
    ensures !Same(s.names, Next(p, s).names, name) <==> s.pc == Unlinking && name == p.first
  {
  }

  // ---------------------------------------------------------------- what others may do

  /** Others may bind or unbind any name but the private staging names, at any time, but they do not
      have this transaction's files to bind. */
  predicate Foreign(p: Pair, step: Step) {
    Private(p, step) && (step.Theirs? ==> step.to != Some(p.inode1) && step.to != Some(p.inode2))
  }

  /** The two staged files are new. */
  predicate NewFiles(p: Pair, start: Names) {
    forall x :: x in start ==> start[x] != p.inode1 && start[x] != p.inode2
  }

  ghost predicate Transaction(p: Pair, start: Names, steps: seq<Step>, n: nat) {
    && PairOk(p) && p.first != p.second && NewFiles(p, start)
    && n <= |steps| && forall k :: 0 <= k < n ==> Foreign(p, steps[k])
  }

  predicate Holds(names: Names, name: Path, inode: Inode) {
    name in names && names[name] == inode
  }

  /** The first link was made and not yet taken back. */
  predicate FirstLinked(pc: Pc) {
    pc == Linking2 || pc == Comparing || pc == Unlinking || BothLinked(pc)
  }

  predicate BothLinked(pc: Pc) {
    pc == Cleaning1(true) || pc == Cleaning2(true) || pc == Done(true)
  }

  predicate GivenUp(pc: Pc) {
    pc == Cleaning1(false) || pc == Cleaning2(false) || pc == Done(false)
  }

  // ---------------------------------------------------------------- nothing of ours stays by accident

  /** Our files are bound nowhere but at their staging names and, while linked, at their destinations. */
  predicate OwnPlaces(p: Pair, s: State) {
    forall x :: x in s.names ==>
      && (s.names[x] == p.inode1 ==> x == p.stage1 || (x == p.first && FirstLinked(s.pc)))
      && (s.names[x] == p.inode2 ==> x == p.stage2 || (x == p.second && BothLinked(s.pc)))
  }

  lemma StepKeepsPlaces(p: Pair, s: State, step: Step)
    requires PairOk(p) && p.first != p.second && Foreign(p, step) && OwnPlaces(p, s)
    ensures OwnPlaces(p, After(p, s, step))
  {
  }

  lemma {:induction false} RunKeepsPlaces(p: Pair, start: Names, steps: seq<Step>, n: nat)
    requires Transaction(p, start, steps, n)
    ensures OwnPlaces(p, Run(p, start, steps, n))
  {
    if n > 0 {
      RunKeepsPlaces(p, start, steps, n - 1);
      StepKeepsPlaces(p, Run(p, start, steps, n - 1), steps[n - 1]);
    }
  }

  /** Whatever others do at the destinations: a transaction that gave up has left neither of its files
      at either destination. */
  lemma NothingLeftBehind(p: Pair, start: Names, steps: seq<Step>, n: nat)
    requires Transaction(p, start, steps, n) && GivenUp(Run(p, start, steps, n).pc)
    ensures var names := Run(p, start, steps, n).names;
            && !Holds(names, p.first, p.inode1) && !Holds(names, p.second, p.inode2)
            && !Holds(names, p.first, p.inode2) && !Holds(names, p.second, p.inode1)
  {
    RunKeepsPlaces(p, start, steps, n);
  }

  // ---------------------------------------------------------------- the links

  /** This step links a destination whose name is free. */
  predicate Links(p: Pair, s: State, step: Step, name: Path) {
    && step.Ours? && name !in s.names
    && ((name == p.first && s.pc == Linking1) || (name == p.second && s.pc == Linking2))
  }

  /** The transaction succeeds only by two links, each made while its destination was absent. */
  lemma {:induction false} SuccessIsTwoLinks(p: Pair, start: Names, steps: seq<Step>, n: nat) returns (j: nat, k: nat)
    requires Transaction(p, start, steps, n) && BothLinked(Run(p, start, steps, n).pc)
    ensures j < k < n
    ensures Links(p, Run(p, start, steps, j), steps[j], p.first)
            && Links(p, Run(p, start, steps, k), steps[k], p.second)
  {
    var s := Run(p, start, steps, n - 1);
    if BothLinked(s.pc) {
      j, k := SuccessIsTwoLinks(p, start, steps, n - 1);
    } else {
      j := FirstLink(p, start, steps, n - 1);
      k := n - 1;
    }
  }

  lemma {:induction false} FirstLink(p: Pair, start: Names, steps: seq<Step>, n: nat) returns (j: nat)
    requires Transaction(p, start, steps, n) && Run(p, start, steps, n).pc == Linking2
    ensures j < n && Links(p, Run(p, start, steps, j), steps[j], p.first)
  {
    if Run(p, start, steps, n - 1).pc == Linking2 {
      j := FirstLink(p, start, steps, n - 1);
    } else {
      j := n - 1;
    }
  }

  // ---------------------------------------------------------------- all or nothing, exactly

  /** While this step's place is in the window of the name, the name stands for our link. */
  predicate InWindow(p: Pair, pc: Pc, name: Path) {
    (name == p.first && (pc == Linking2 || BothLinked(pc))) || (name == p.second && BothLinked(pc))
  }

  /** Somebody else touched the destination after we linked it. */
  ghost predicate Touched(p: Pair, start: Names, steps: seq<Step>, n: nat, name: Path)
    requires n <= |steps|
  {
    exists k :: 0 <= k < n && Touches(p, Run(p, start, steps, k).pc, steps[k], name)
  }

  predicate Touches(p: Pair, pc: Pc, step: Step, name: Path) {
    step.Theirs? && step.name == name && InWindow(p, pc, name)
  }

  lemma TouchedStep(p: Pair, start: Names, steps: seq<Step>, n: nat, name: Path)
    requires 0 < n <= |steps|
    ensures Touched(p, start, steps, n, name)
       <==> Touched(p, start, steps, n - 1, name) || Touches(p, Run(p, start, steps, n - 1).pc, steps[n - 1], name)
  {
    hide Run, Touches;
  }

  /** A destination in its window holds our file exactly if nobody else touched it since. */
  predicate WindowsHold(p: Pair, s: State, first: bool, second: bool) {
    && (if InWindow(p, s.pc, p.first) then Holds(s.names, p.first, p.inode1) <==> !first
        else !FirstLinked(s.pc) && !GivenUp(s.pc) ==> !first)
    && (if InWindow(p, s.pc, p.second) then Holds(s.names, p.second, p.inode2) <==> !second else !second)
  }

  lemma StepKeepsWindows(p: Pair, s: State, step: Step, first: bool, second: bool)
    requires PairOk(p) && p.first != p.second && Foreign(p, step) && WindowsHold(p, s, first, second)
    ensures WindowsHold(p, After(p, s, step), first || Touches(p, s.pc, step, p.first),
                        second || Touches(p, s.pc, step, p.second))
  {
  }

  lemma {:induction false} WindowsExactly(p: Pair, start: Names, steps: seq<Step>, n: nat)
    requires Transaction(p, start, steps, n)
    ensures WindowsHold(p, Run(p, start, steps, n), Touched(p, start, steps, n, p.first),
                        Touched(p, start, steps, n, p.second))
  {
    if n > 0 {
      WindowsExactly(p, start, steps, n - 1);
      var s := Run(p, start, steps, n - 1);
      StepKeepsWindows(p, s, steps[n - 1], Touched(p, start, steps, n - 1, p.first),
                       Touched(p, start, steps, n - 1, p.second));
      TouchedStep(p, start, steps, n, p.first);
      TouchedStep(p, start, steps, n, p.second);
      hide Touched, WindowsHold, Touches;
    }
  }

  /** Between the comparison and the unlink, the last of the others to touch the first destination
      bound it. */
  function LastBinds(p: Pair, start: Names, steps: seq<Step>, n: nat): bool
    requires n <= |steps|
  {
    n > 0 &&
    if Run(p, start, steps, n - 1).pc == Unlinking && steps[n - 1].Theirs? && steps[n - 1].name == p.first
    then steps[n - 1].to.Some? else LastBinds(p, start, steps, n - 1)
  }

  /** The step is our unlink, and the name no longer stands for our file. */
  predicate Removes(p: Pair, s: State, step: Step) {
    step.Ours? && s.pc == Unlinking && p.first in s.names && s.names[p.first] != p.inode1
  }

  ghost predicate RemovedForeign(p: Pair, start: Names, steps: seq<Step>, n: nat)
    requires n <= |steps|
  {
    exists k :: 0 <= k < n && Removes(p, Run(p, start, steps, k), steps[k])
  }

  /** What the last of the others left shows in the name until the unlink, and in the loss after it. */
  predicate LossHolds(p: Pair, s: State, binds: bool, lost: bool) {
    if s.pc == Unlinking then !lost && (binds <==> p.first in s.names && s.names[p.first] != p.inode1)
    else if GivenUp(s.pc) then lost <==> binds
    else !binds && !lost
  }

  lemma StepKeepsLoss(p: Pair, s: State, step: Step, binds: bool, lost: bool)
    requires PairOk(p) && p.first != p.second && Foreign(p, step) && LossHolds(p, s, binds, lost)
    ensures var binding := s.pc == Unlinking && step.Theirs? && step.name == p.first;
            LossHolds(p, After(p, s, step), if binding then step.to.Some? else binds, lost || Removes(p, s, step))
  {
  }

  lemma {:induction false} LossExactly(p: Pair, start: Names, steps: seq<Step>, n: nat)
    requires Transaction(p, start, steps, n)
    ensures LossHolds(p, Run(p, start, steps, n), LastBinds(p, start, steps, n), RemovedForeign(p, start, steps, n))
  {
    if n > 0 {
      LossExactly(p, start, steps, n - 1);
      var (s, lost) := (Run(p, start, steps, n - 1), RemovedForeign(p, start, steps, n - 1));
      StepKeepsLoss(p, s, steps[n - 1], LastBinds(p, start, steps, n - 1), lost);
      RemovedStep(p, start, steps, n);
      hide RemovedForeign, LossHolds, Removes;
    }
  }

  lemma RemovedStep(p: Pair, start: Names, steps: seq<Step>, n: nat)
    requires 0 < n <= |steps|
    ensures RemovedForeign(p, start, steps, n)
       <==> RemovedForeign(p, start, steps, n - 1) || Removes(p, Run(p, start, steps, n - 1), steps[n - 1])
  {
    hide Run, Removes;
  }

  /** Both files at their destinations, or neither and nobody else's file removed. */
  ghost predicate AllOrNothing(p: Pair, start: Names, steps: seq<Step>, n: nat, ok: bool)
    requires n <= |steps|
  {
    var names := Run(p, start, steps, n).names;
    if ok then Holds(names, p.first, p.inode1) && Holds(names, p.second, p.inode2)
    else !Holds(names, p.first, p.inode1) && !Holds(names, p.second, p.inode2) && !RemovedForeign(p, start, steps, n)
  }

  /** In every run, whatever others do, the outcome is all or nothing exactly if: after success, nobody
      touched a destination since it was linked; after giving up, nobody bound the first destination
      last between the comparison and the unlink. */
  lemma AllOrNothingExactly(p: Pair, start: Names, steps: seq<Step>, n: nat)
    requires Transaction(p, start, steps, n) && Run(p, start, steps, n).pc.Done?
    ensures var ok := Run(p, start, steps, n).pc.ok;
            AllOrNothing(p, start, steps, n, ok) <==>
              if ok then !Touched(p, start, steps, n, p.first) && !Touched(p, start, steps, n, p.second)
              else !LastBinds(p, start, steps, n)
  {
    WindowsExactly(p, start, steps, n);
    LossExactly(p, start, steps, n);
    RunKeepsPlaces(p, start, steps, n);
    hide Run, Touched, RemovedForeign, LastBinds;
  }

  // ---------------------------------------------------------------- the window

  /** The transaction up to its comparison, one foreign replacement, and the unlink. */
  function WindowSteps(p: Pair, foreign: Inode): seq<Step> {
    [Ours, Ours, Ours, Ours, Ours, Theirs(p.first, Some(foreign)), Ours]
  }

  /** The window exists: from any directory that holds the second destination but not the first, one
      foreign replacement after the comparison loses the foreign file. */
  lemma WindowLosesFile(p: Pair, start: Names, foreign: Inode)
    requires PairOk(p) && p.first != p.second && NewFiles(p, start) && p.first !in start && p.second in start
    requires foreign != p.inode1 && foreign != p.inode2
    ensures var steps := WindowSteps(p, foreign);
            && Transaction(p, start, steps, 7)
            && Holds(Run(p, start, steps, 6).names, p.first, foreign)
            && p.first !in Run(p, start, steps, 7).names && RemovedForeign(p, start, steps, 7)
  {
    var steps := WindowSteps(p, foreign);
    assert Run(p, start, steps, 0) == State(start, Staging1);
    assert Run(p, start, steps, 2).pc == Linking1
           && Run(p, start, steps, 2).names == start[p.stage1 := p.inode1][p.stage2 := p.inode2];
    assert Run(p, start, steps, 4).pc == Comparing && Holds(Run(p, start, steps, 4).names, p.first, p.inode1);
    assert Run(p, start, steps, 5).pc == Unlinking;
    assert Run(p, start, steps, 6).pc == Unlinking && Removes(p, Run(p, start, steps, 6), steps[6]);
  }

  // ---------------------------------------------------------------- left alone

  /** Nobody else touches the two destinations, or the staging names. */
  predicate Quiet(p: Pair, step: Step) {
    Private(p, step) && (step.Theirs? ==> step.name != p.first && step.name != p.second)
  }

  predicate Published(p: Pair, names: Names) {
    p.first in names && names[p.first] == p.inode1 && p.second in names && names[p.second] == p.inode2
  }

  /** Where the destinations stand at each point of an undisturbed transaction. */
  predicate Standing(p: Pair, start: Names, s: State) {
    match s.pc
    case Staging1 | Staging2 | Linking1 => Same(start, s.names, p.first) && Same(start, s.names, p.second)
    case Linking2 =>
      p.first !in start && p.first in s.names && s.names[p.first] == p.inode1 && Same(start, s.names, p.second)
    case Comparing | Unlinking =>
      && p.first !in start && p.first in s.names && s.names[p.first] == p.inode1
      && p.second in start && Same(start, s.names, p.second)
    case Cleaning1(ok) => Settled(p, start, s.names, ok)
    case Cleaning2(ok) => Settled(p, start, s.names, ok) && p.stage1 !in s.names
    case Done(ok) => Settled(p, start, s.names, ok) && p.stage1 !in s.names && p.stage2 !in s.names
  }

  /** Both were absent and are published, or one was present and both are as they were. */
  predicate Settled(p: Pair, start: Names, names: Names, ok: bool) {
    if ok then p.first !in start && p.second !in start && Published(p, names)
    else (p.first in start || p.second in start) && Same(start, names, p.first) && Same(start, names, p.second)
  }

  lemma StepKeepsStanding(p: Pair, start: Names, s: State, step: Step)
    requires PairOk(p) && p.first != p.second && Quiet(p, step) && Standing(p, start, s)
    ensures Standing(p, start, After(p, s, step))
  {
  }

  /** Undisturbed at its destinations, the transaction ends with both files or with what was there,
      and with both exactly if neither name was taken. */
  lemma {:induction false} QuietOutcome(p: Pair, start: Names, steps: seq<Step>, n: nat)
    requires PairOk(p) && p.first != p.second && n <= |steps| && forall k :: 0 <= k < n ==> Quiet(p, steps[k])
    ensures Standing(p, start, Run(p, start, steps, n))
    ensures var s := Run(p, start, steps, n);
            s.pc.Done? ==>
              && (s.pc.ok <==> p.first !in start && p.second !in start)
              && (if s.pc.ok then Published(p, s.names)
                  else Same(start, s.names, p.first) && Same(start, s.names, p.second))
              && p.stage1 !in s.names && p.stage2 !in s.names
  {
    if n > 0 {
      QuietOutcome(p, start, steps, n - 1);
      StepKeepsStanding(p, start, Run(p, start, steps, n - 1), steps[n - 1]);
    }
  }

  // ---------------------------------------------------------------- the call

  /** What another process does to one name. */
  datatype Touch = Touch(name: Path, to: Option<Inode>)

  /** A directory shared with others; `others` says what they do before this process's next call. */
  class Directory {
    var names: Names
    const others: nat -> seq<Touch>
    var tick: nat

    constructor (names: Names, others: nat -> seq<Touch>)
      ensures this.names == names
    {
      this.names, this.others, tick := names, others, 0;
    }

    /** The others act; what would touch a private staging name or bind a private file is not theirs
        to do. */
    method LetOthers(p: Pair, ghost start: Names, ghost steps: seq<Step>, ghost pc: Pc) returns (ghost more: seq<Step>)
      requires Reached(p, start, steps, State(names, pc))
      modifies this
      ensures Reached(p, start, more, State(names, pc))
    {
      var touches := others(tick);
      tick, more := tick + 1, steps;
      for i := 0 to |touches|
        invariant Reached(p, start, more, State(names, pc))
      {
        ghost var step := Theirs(touches[i].name, touches[i].to);
        var private := touches[i].name == p.stage1 || touches[i].name == p.stage2
                       || touches[i].to == Some(p.inode1) || touches[i].to == Some(p.inode2);
        if !private {
          OneMoreStep(p, start, more, step);
          more := more + [step];
          names := if touches[i].to.Some? then names[touches[i].name := touches[i].to.value]
                   else Without(names, touches[i].name);
        }
      }
    }

    /** `link(2)` creates the name or fails. */
    method Link(name: Path, inode: Inode) returns (ok: bool)
      modifies this`names
      ensures ok <==> name !in old(names)
      ensures names == if ok then old(names)[name := inode] else old(names)
    {
      ok := name !in names;
      if ok {
        names := names[name := inode];
      }
    }

    method Unlink(name: Path)
      modifies this`names
      ensures names == Without(old(names), name)
    {
      names := map x | x in names && x != name :: names[x];
    }

    /** The two links, and the first one taken back when the second fails. */
    method LinkPair(p: Pair, ghost start: Names, ghost before: seq<Step>) returns (ok: bool, ghost steps: seq<Step>)
      requires Reached(p, start, before, State(names, Linking1))
      modifies this
      ensures Reached(p, start, steps, State(names, Cleaning1(ok)))
    {
      hide Reached, Without;
      steps := LetOthers(p, start, before, Linking1);
      ghost var was := names;
      ok := Link(p.first, p.inode1);
      if !ok {
        steps := Moved(p, start, steps, State(was, Linking1), State(names, Cleaning1(false)));
        return;
      }
      steps := Moved(p, start, steps, State(was, Linking1), State(names, Linking2));
      steps := LetOthers(p, start, steps, Linking2);
      was := names;
      ok := Link(p.second, p.inode2);
      if ok {
        steps := Moved(p, start, steps, State(was, Linking2), State(names, Cleaning1(true)));
      } else {
        steps := Moved(p, start, steps, State(was, Linking2), State(names, Comparing));
        steps := TakeBack(p, start, steps);
      }
    }

    /** Removes the first link if it still is the staged file; others may act after the comparison. */
    method TakeBack(p: Pair, ghost start: Names, ghost before: seq<Step>) returns (ghost steps: seq<Step>)
      requires Reached(p, start, before, State(names, Comparing))
      modifies this
      ensures Reached(p, start, steps, State(names, Cleaning1(false)))
    {
      hide Reached, Without;
      steps := LetOthers(p, start, before, Comparing);
      if p.first in names && names[p.first] == p.inode1 {
        steps := Moved(p, start, steps, State(names, Comparing), State(names, Unlinking));
        steps := LetOthers(p, start, steps, Unlinking);
        ghost var was := names;
        Unlink(p.first);
        steps := Moved(p, start, steps, State(was, Unlinking), State(names, Cleaning1(false)));
      } else {
        steps := Moved(p, start, steps, State(names, Comparing), State(names, Cleaning1(false)));
      }
    }

    /** `write_jsonl_pair_atomic`, with others between any two of its calls. */
    method WritePair(p: Pair) returns (ok: bool, ghost steps: seq<Step>)
      requires PairOk(p) && NewFiles(p, names)
      modifies this
      ensures p.first == p.second ==> !ok && names == old(names)
      ensures p.first != p.second ==> Reached(p, old(names), steps, State(names, Done(ok)))
    {
      steps := [];
      if p.first == p.second {
        return false, steps;
      }
      ghost var start := names;
      StartOfRun(p, start);
      hide Reached, Without;
      steps := LetOthers(p, start, steps, Staging1);
      ghost var was := names;
      names := names[p.stage1 := p.inode1];
      steps := Moved(p, start, steps, State(was, Staging1), State(names, Staging2));
      steps := LetOthers(p, start, steps, Staging2);
      was := names;
      names := names[p.stage2 := p.inode2];
      steps := Moved(p, start, steps, State(was, Staging2), State(names, Linking1));
      ok, steps := LinkPair(p, start, steps);
      steps := LetOthers(p, start, steps, Cleaning1(ok));
      was := names;
      Unlink(p.stage1);
      steps := Moved(p, start, steps, State(was, Cleaning1(ok)), State(names, Cleaning2(ok)));
      steps := LetOthers(p, start, steps, Cleaning2(ok));
      was := names;
      Unlink(p.stage2);
      steps := Moved(p, start, steps, State(was, Cleaning2(ok)), State(names, Done(ok)));
    }
  }

  /** These steps are a run of the transaction that ends in the state. */
  ghost predicate Reached(p: Pair, start: Names, steps: seq<Step>, s: State) {
    Transaction(p, start, steps, |steps|) && Run(p, start, steps, |steps|) == s
  }

  lemma StartOfRun(p: Pair, start: Names)
    requires PairOk(p) && p.first != p.second && NewFiles(p, start)
    ensures Reached(p, start, [], State(start, Staging1))
  {
  }

  lemma OneMoreStep(p: Pair, start: Names, steps: seq<Step>, step: Step)
    requires Transaction(p, start, steps, |steps|) && Foreign(p, step)
    ensures Reached(p, start, steps + [step], After(p, Run(p, start, steps, |steps|), step))
  {
    RunOfPrefix(p, start, steps, steps + [step], |steps|);
  }

  lemma {:induction false} RunOfPrefix(p: Pair, start: Names, a: seq<Step>, b: seq<Step>, n: nat)
    requires n <= |a| <= |b| && b[..|a|] == a
    ensures Run(p, start, a, n) == Run(p, start, b, n)
  {
    if n > 0 {
      RunOfPrefix(p, start, a, b, n - 1);
    }
  }

  /** A step of the transaction itself, from the state before it to the one it must lead to. */
  lemma Moved(p: Pair, start: Names, steps: seq<Step>, from: State, to: State) returns (more: seq<Step>)
    requires Reached(p, start, steps, from) && Next(p, from) == to
    ensures Reached(p, start, more, to)
  {
    OneMoreStep(p, start, steps, Ours);
    more := steps + [Ours];
  }
}
