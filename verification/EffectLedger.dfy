/** The effect ledger of `scripts/sentinel-manifest.py`: which sequences of remote-effect events a
    run manifest may hold. */
module EffectLedger {
  import opened Basics

  /** The two remote effects a run may have, and anything else an event might name. */
  datatype Pair = Import | Executor | Foreign(stage: nat, effect: nat)

  datatype EffectState = Prepared | Observed | Unknown | Recovered

  /** `shape` says that all paths are safe and all digests well-formed. */
  datatype Event = Event(pair: Pair, state: EffectState, intent: FileRef, observation: Option<FileRef>, shape: bool)

  predicate WellFormed(e: Event) {
    && !e.pair.Foreign? && e.shape
    && (e.observation.Some? <==> e.state == Observed || e.state == Recovered)
  }

  // ---------------------------------------------------------------- the histories of one pair

  /** The states of the first `n` events that belong to `pair`, in order. */
  function Project(events: seq<Event>, n: nat, pair: Pair): seq<EffectState>
    requires n <= |events|
  {
    if n == 0 then [] else
    var h := Project(events, n - 1, pair);
    if events[n - 1].pair == pair then h + [events[n - 1].state] else h
  }

  function HistoryOf(events: seq<Event>, pair: Pair): seq<EffectState> {
    Project(events, |events|, pair)
  }

  /** The histories the ledger is designed for. */
  predicate History(pair: Pair, h: seq<EffectState>) {
    || h == [] || h == [Prepared] || h == [Prepared, Observed] || h == [Prepared, Unknown]
    || (pair == Executor &&
        (|| h == [Prepared, Recovered]
         || h == [Prepared, Unknown, Recovered]
         || h == [Prepared, Recovered, Observed]
         || h == [Prepared, Recovered, Unknown]
         || h == [Prepared, Recovered, Unknown, Recovered]))
  }

  /** Outcomes name the intent that was prepared; a recovery is matched elsewhere. */
  predicate IntentsMatch(events: seq<Event>, n: nat)
    requires n <= |events|
  {
    forall i, j :: 0 <= i < n && 0 <= j < n && events[i].pair == events[j].pair
                   && events[i].state == Prepared && (events[j].state == Observed || events[j].state == Unknown)
                   ==> events[i].intent == events[j].intent
  }

  predicate HasOutcome(h: seq<EffectState>) {
    Observed in h || Recovered in h
  }

  ghost predicate Admissible(events: seq<Event>, ci: bool, passed: set<Pair>) {
    && (ci ==> events == [])
    && (forall e :: e in events ==> WellFormed(e))
    && (forall pair :: History(pair, HistoryOf(events, pair)))
    && IntentsMatch(events, |events|)
    && (forall pair :: pair in passed && (pair == Import || pair == Executor) ==> HasOutcome(HistoryOf(events, pair)))
  }

  // ---------------------------------------------------------------- the automaton of one pair

  /** What the loop remembers about one pair in `pending`, `complete` and `last_state`. */
  datatype Memory = Memory(pending: bool, complete: bool, last: Option<EffectState>)

  function Step(pair: Pair, m: Memory, x: EffectState): Option<Memory> {
    match x
    case Prepared => if m.pending || m.complete then None else Some(Memory(true, false, Some(x)))
    case Recovered =>
      if pair == Executor && (m.last == Some(Prepared) || m.last == Some(Unknown)) then Some(m.(last := Some(x)))
      else None
    case _ => if m.pending then Some(Memory(false, true, Some(x))) else None
  }

  function MemoryOf(pair: Pair, h: seq<EffectState>): Option<Memory> {
    if h == [] then Some(Memory(false, false, None)) else
    var m := MemoryOf(pair, h[..|h| - 1]);
    if m.None? then None else Step(pair, m.value, h[|h| - 1])
  }

  lemma MemorySnoc(pair: Pair, h: seq<EffectState>, x: EffectState)
    ensures MemoryOf(pair, h + [x]) == (var m := MemoryOf(pair, h); if m.None? then None else Step(pair, m.value, x))
  {
    assert (h + [x])[..|h|] == h;
  }

  /** The automaton reads exactly the designed histories. */
  lemma {:induction false} MemoryReadsHistories(pair: Pair, h: seq<EffectState>)
    ensures MemoryOf(pair, h).Some? <==> History(pair, h)
  {
    if h != [] {
      var (p, x) := (h[..|h| - 1], h[|h| - 1]);
      assert h == p + [x];
      MemoryReadsHistories(pair, p);
      MemorySnoc(pair, p, x);
      hide History, MemoryOf, Step;
      if History(pair, p) {
        HistoryExtends(pair, p, x);
      } else {
        HistoriesPrefixClosed(pair, p, x);
      }
    }
  }

  /** One more state is accepted exactly if the history with it is a designed one. */
  lemma HistoryExtends(pair: Pair, p: seq<EffectState>, x: EffectState)
    requires History(pair, p) && MemoryOf(pair, p).Some?
    ensures Step(pair, MemoryOf(pair, p).value, x).Some? <==> History(pair, p + [x])
  {
    HistoryMemory(pair, p);
    hide MemoryOf;
    var h := p + [x];
    if p == [] {
      assert h == [x];
    } else if |p| == 1 {
      assert h == [p[0], x];
    } else if |p| == 2 {
      assert h == [p[0], p[1], x];
    } else {
      assert h == [p[0], p[1], p[2], x] || |p| == 4;
    }
  }

  /** The memory after each designed history, spelled out. */
  lemma HistoryMemory(pair: Pair, h: seq<EffectState>)
    requires History(pair, h)
    ensures MemoryOf(pair, h) ==
      (if h == [] then Some(Memory(false, false, None))
       else if h == [Prepared] || h == [Prepared, Recovered] then Some(Memory(true, false, Some(h[|h| - 1])))
       else Some(Memory(false, true, Some(h[|h| - 1]))))
  {
    if h != [] {
      var p := h[..|h| - 1];
      assert h == p + [h[|h| - 1]];
      assert p == [] || p == [Prepared] || p == [Prepared, Recovered] || p == [Prepared, Unknown]
             || p == [Prepared, Recovered, Unknown];
      HistoryMemory(pair, p);
    }
  }

  lemma HistoriesPrefixClosed(pair: Pair, p: seq<EffectState>, x: EffectState)
    requires !History(pair, p)
    ensures !History(pair, p + [x])
  {
    assert p == (p + [x])[..|p|];
  }

  // ---------------------------------------------------------------- the loop

  /** Once a prefix is not admissible, no continuation is. */
  lemma {:induction false} HistoryOfPrefix(events: seq<Event>, n: nat, m: nat, pair: Pair)
    requires n <= m <= |events| && History(pair, Project(events, m, pair))
    ensures History(pair, Project(events, n, pair))
  {
    if n < m {
      if events[m - 1].pair == pair && !History(pair, Project(events, m - 1, pair)) {
        HistoriesPrefixClosed(pair, Project(events, m - 1, pair), events[m - 1].state);
      }
      HistoryOfPrefix(events, n, m - 1, pair);
    }
  }

  /** What the dictionaries and sets remember of one pair after `n` events ... */
  ghost predicate Remembers(events: seq<Event>, n: nat, pair: Pair, pending: map<Pair, Event>, complete: set<Pair>,
                            observed: set<Pair>, last: map<Pair, EffectState>)
    requires n <= |events|
  {
    && MemoryOf(pair, Project(events, n, pair))
       == Some(Memory(pair in pending, pair in complete, if pair in last then Some(last[pair]) else None))
    && (pair in observed <==> HasOutcome(Project(events, n, pair)))
  }

  /** ... and how the stored events answer for the intents. */
  ghost predicate Holds(events: seq<Event>, n: nat, pending: map<Pair, Event>, complete: set<Pair>)
    requires n <= |events|
  {
    && (forall pair :: pair in pending ==> pending[pair].pair == pair && pending[pair].state == Prepared
                                           && exists k :: 0 <= k < n && events[k] == pending[pair])
    && (forall k :: 0 <= k < n ==>
          && WellFormed(events[k])
          && (events[k].state == Prepared ==>
                if events[k].pair in pending then events[k] == pending[events[k].pair] else events[k].pair in complete)
          && (events[k].state == Observed || events[k].state == Unknown ==> events[k].pair in complete))
    && IntentsMatch(events, n)
  }

  /** `valid_effect_ledger` without the file contents: the dict-and-set loop decides admissibility. */
  method ValidEffectLedger(events: seq<Event>, ci: bool, passed: set<Pair>) returns (ok: bool)
    ensures ok <==> Admissible(events, ci, passed)
  {
    if ci && events != [] {
      return false;
    }
    var pending: map<Pair, Event> := map[];
    var complete: set<Pair> := {};
    var observed: set<Pair> := {};
    var last: map<Pair, EffectState> := map[];
    for i := 0 to |events|
      invariant forall pair :: Remembers(events, i, pair, pending, complete, observed, last)
      invariant Holds(events, i, pending, complete)
    {
      var e := events[i];
      if !WellFormed(e) {
        return false;
      }
      hide Remembers, Holds, Admissible;
      assert Remembers(events, i, e.pair, pending, complete, observed, last);
      if !Fits(e, pending, complete, last) {
        Stuck(events, i, pending, complete, observed, last, ci, passed);
        return false;
      }
      ghost var (pending', complete', observed') :=
        (PendingAfter(e, pending), CompleteAfter(e, complete), ObservedAfter(e, observed));
      ghost var (next, last') := (i + 1, last[e.pair := e.state]);
      forall pair ensures Remembers(events, next, pair, pending', complete', observed', last')
      {
        NextMemory(events, i, pair, pending, complete, observed, last);
      }
      NextContents(events, i, pending, complete, last);
      var pair := e.pair;
      if e.state == Prepared {
        pending := pending[pair := e];
      } else if e.state == Observed || e.state == Unknown {
        pending := pending - {pair};
        complete := complete + {pair};
        if e.state == Observed {
          observed := observed + {pair};
        }
      } else {
        observed := observed + {pair};
      }
      last := last[pair := e.state];
    }
    forall pair
      ensures History(pair, HistoryOf(events, pair)) && (pair in observed <==> HasOutcome(HistoryOf(events, pair)))
    {
      assert Remembers(events, |events|, pair, pending, complete, observed, last);
      MemoryReadsHistories(pair, HistoryOf(events, pair));
    }
    ok := (Import in passed ==> Import in observed) && (Executor in passed ==> Executor in observed);
  }

  /** The checks the loop makes on a well-formed event. */
  predicate Fits(e: Event, pending: map<Pair, Event>, complete: set<Pair>, last: map<Pair, EffectState>) {
    match e.state
    case Prepared => e.pair !in pending && e.pair !in complete
    case Recovered => e.pair == Executor && e.pair in last && (last[e.pair] == Prepared || last[e.pair] == Unknown)
    case _ => e.pair in pending && pending[e.pair].intent == e.intent
  }

  function PendingAfter(e: Event, pending: map<Pair, Event>): map<Pair, Event> {
    if e.state == Prepared then pending[e.pair := e] else if e.state == Recovered then pending else pending - {e.pair}
  }

  function CompleteAfter(e: Event, complete: set<Pair>): set<Pair> {
    if e.state == Observed || e.state == Unknown then complete + {e.pair} else complete
  }

  function ObservedAfter(e: Event, observed: set<Pair>): set<Pair> {
    if e.state == Observed || e.state == Recovered then observed + {e.pair} else observed
  }

  /** What one fitting event does to the memory of a pair. */
  lemma NextMemory(events: seq<Event>, n: nat, pair: Pair, pending: map<Pair, Event>, complete: set<Pair>,
                   observed: set<Pair>, last: map<Pair, EffectState>)
    requires n < |events| && Remembers(events, n, pair, pending, complete, observed, last)
    requires Fits(events[n], pending, complete, last)
    ensures var e := events[n];
            Remembers(events, n + 1, pair, PendingAfter(e, pending), CompleteAfter(e, complete),
                      ObservedAfter(e, observed), last[e.pair := e.state])
  {
    var e := events[n];
    if e.pair == pair {
      var h := Project(events, n, pair);
      MemorySnoc(pair, h, e.state);
      assert forall x :: x in h + [e.state] <==> x in h || x == e.state;
    }
  }

  lemma NextContents(events: seq<Event>, n: nat, pending: map<Pair, Event>, complete: set<Pair>,
                     last: map<Pair, EffectState>)
    requires n < |events| && Holds(events, n, pending, complete)
    requires WellFormed(events[n]) && Fits(events[n], pending, complete, last)
    ensures Holds(events, n + 1, PendingAfter(events[n], pending), CompleteAfter(events[n], complete))
  {
  }

  /** An event that does not fit makes the whole ledger inadmissible. */
  lemma Stuck(events: seq<Event>, n: nat, pending: map<Pair, Event>, complete: set<Pair>, observed: set<Pair>,
              last: map<Pair, EffectState>, ci: bool, passed: set<Pair>)
    requires n < |events| && Holds(events, n, pending, complete)
    requires Remembers(events, n, events[n].pair, pending, complete, observed, last)
    requires !Fits(events[n], pending, complete, last)
    ensures !Admissible(events, ci, passed)
  {
    var e := events[n];
    if (e.state == Observed || e.state == Unknown) && e.pair in pending {
      var k :| 0 <= k < n && events[k] == pending[e.pair];
      assert events[k].intent != e.intent;
    } else {
      StuckHistory(events, n);
    }
  }

  lemma StuckHistory(events: seq<Event>, n: nat)
    requires n < |events|
    requires var m := MemoryOf(events[n].pair, Project(events, n, events[n].pair));
             m.Some? && Step(events[n].pair, m.value, events[n].state).None?
    ensures !History(events[n].pair, HistoryOf(events, events[n].pair))
  {
    var e := events[n];
    var h := Project(events, n, e.pair);
    MemorySnoc(e.pair, h, e.state);
    MemoryReadsHistories(e.pair, h + [e.state]);
    if History(e.pair, HistoryOf(events, e.pair)) {
      HistoryOfPrefix(events, n + 1, |events|, e.pair);
    }
  }

  // ---------------------------------------------------------------- what a resume asks of the ledger

  /** The last thing that happened to the pair is an open question. */
  predicate Hanging(h: seq<EffectState>) {
    h != [] && (h[|h| - 1] == Prepared || h[|h| - 1] == Unknown)
  }

  method UnresolvedEffect(events: seq<Event>) returns (r: bool)
    ensures r <==> exists pair :: Hanging(HistoryOf(events, pair))
  {
    var last: map<Pair, EffectState> := map[];
    for i := 0 to |events|
      invariant forall pair :: LastOf(events, i, pair, last)
    {
      var after := last[events[i].pair := events[i].state];
      ghost var next := i + 1;
      forall pair ensures LastOf(events, next, pair, after) {
        assert LastOf(events, i, pair, last);
      }
      last := after;
    }
    r := exists pair :: pair in last && (last[pair] == Prepared || last[pair] == Unknown);
    forall pair
      ensures Hanging(HistoryOf(events, pair)) <==> pair in last && (last[pair] == Prepared || last[pair] == Unknown)
    {
      assert LastOf(events, |events|, pair, last);
    }
  }

  ghost predicate LastOf(events: seq<Event>, n: nat, pair: Pair, last: map<Pair, EffectState>)
    requires n <= |events|
  {
    var h := Project(events, n, pair);
    (pair in last <==> h != []) && (h != [] ==> last[pair] == h[|h| - 1])
  }

  /** In an admissible ledger with nothing hanging, every history ends observed or recovered. */
  lemma ResolvedHistories(events: seq<Event>, ci: bool, passed: set<Pair>, pair: Pair)
    requires Admissible(events, ci, passed) && !Hanging(HistoryOf(events, pair))
    ensures var h := HistoryOf(events, pair);
            h == [] || h == [Prepared, Observed]
            || (pair == Executor && (h == [Prepared, Recovered] || h == [Prepared, Unknown, Recovered]
            || h == [Prepared, Recovered, Observed] || h == [Prepared, Recovered, Unknown, Recovered]))
  {
    assert History(pair, HistoryOf(events, pair));
  }

  // ---------------------------------------------------------------- one more event

  lemma {:induction false} ProjectOfPrefix(a: seq<Event>, b: seq<Event>, n: nat, pair: Pair)
    requires n <= |a| <= |b| && b[..|a|] == a
    ensures Project(a, n, pair) == Project(b, n, pair)
  {
    if n > 0 {
      ProjectOfPrefix(a, b, n - 1, pair);
      assert b[n - 1] == b[..|a|][n - 1];
    }
  }

  lemma HistorySnoc(events: seq<Event>, e: Event, pair: Pair)
    ensures HistoryOf(events + [e], pair) == HistoryOf(events, pair) + if e.pair == pair then [e.state] else []
  {
    ProjectOfPrefix(events, events + [e], |events|, pair);
  }

  lemma {:induction false} NothingOfPair(events: seq<Event>, n: nat, pair: Pair)
    requires n <= |events|
    ensures Project(events, n, pair) == [] <==> forall i :: 0 <= i < n ==> events[i].pair != pair
  {
    if n > 0 {
      NothingOfPair(events, n - 1, pair);
    }
  }

  /** The first event of a pair. */
  lemma {:induction false} FirstOf(events: seq<Event>, n: nat, pair: Pair) returns (i: nat)
    requires n <= |events| && Project(events, n, pair) != []
    ensures i < n && events[i].pair == pair && events[i].state == Project(events, n, pair)[0]
  {
    i := n - 1;
    if Project(events, n - 1, pair) != [] {
      i := FirstOf(events, n - 1, pair);
    }
  }

  /** Where a state of the history comes from. */
  lemma {:induction false} Projected(events: seq<Event>, n: nat, pair: Pair, k: nat) returns (i: nat)
    requires n <= |events| && k < |Project(events, n, pair)|
    ensures i < n && events[i].pair == pair && events[i].state == Project(events, n, pair)[k]
  {
    i := n - 1;
    if k < |Project(events, n - 1, pair)| {
      i := Projected(events, n - 1, pair, k);
    }
  }

  /** In an admissible ledger every outcome and every recovery answers an earlier prepared event of its
      own pair, an outcome one with the very same intent; and just observations and recoveries carry
      an observation. */
  lemma {:induction false} OutcomesAnswerIntents(events: seq<Event>, ci: bool, passed: set<Pair>, j: nat)
    returns (i: nat)
    requires Admissible(events, ci, passed) && j < |events| && events[j].state != Prepared
    ensures i < j && events[i].pair == events[j].pair && events[i].state == Prepared
    ensures events[j].state == Observed || events[j].state == Unknown ==> events[i].intent == events[j].intent
    ensures events[j].observation.Some? <==> events[j].state == Observed || events[j].state == Recovered
    ensures events[j].shape && (events[j].pair == Import || (events[j].pair == Executor && !ci))
  {
    var pair := events[j].pair;
    assert History(pair, HistoryOf(events, pair));
    HistoryOfPrefix(events, j + 1, |events|, pair);
    OutcomeFollows(pair, Project(events, j, pair), events[j].state);
    i := FirstOf(events, j, pair);
    assert events[j] in events;
  }

  /** Only the first state of a designed history is prepared. */
  lemma OutcomeFollows(pair: Pair, p: seq<EffectState>, x: EffectState)
    requires History(pair, p + [x])
    ensures x == Prepared <==> p == []
    ensures p != [] ==> p[0] == Prepared
  {
    assert (p + [x])[|p|] == x && (p != [] ==> (p + [x])[0] == p[0]);
  }

  /** A stranded executor effect may be recovered, whatever else the ledger holds. */
  lemma RecoveryAdmissible(events: seq<Event>, passed: set<Pair>, e: Event)
    requires Admissible(events, false, passed) && WellFormed(e) && e.pair == Executor && e.state == Recovered
    requires Hanging(HistoryOf(events, Executor))
    ensures Admissible(events + [e], false, passed + {Executor})
    ensures var h := HistoryOf(events + [e], Executor);
            h == [Prepared, Recovered] || h == [Prepared, Unknown, Recovered]
            || h == [Prepared, Recovered, Unknown, Recovered]
  {
    forall pair
      ensures History(pair, HistoryOf(events + [e], pair))
      ensures HasOutcome(HistoryOf(events, pair)) ==> HasOutcome(HistoryOf(events + [e], pair))
    {
      HistorySnoc(events, e, pair);
      assert History(pair, HistoryOf(events, pair));
    }
    HistorySnoc(events, e, Executor);
    assert Recovered in HistoryOf(events + [e], Executor) by {
      assert (HistoryOf(events, Executor) + [Recovered])[|HistoryOf(events, Executor)|] == Recovered;
    }
    IntentsMatchSnoc(events, e);
  }

  lemma IntentsMatchSnoc(events: seq<Event>, e: Event)
    requires IntentsMatch(events, |events|) && e.state == Recovered
    ensures IntentsMatch(events + [e], |events| + 1)
  {
  }

  /** The last event hangs its own pair. */
  lemma LastEventHangs(events: seq<Event>, pair: Pair)
    requires events != [] && events[|events| - 1].pair == pair
    requires events[|events| - 1].state == Prepared || events[|events| - 1].state == Unknown
    ensures Hanging(HistoryOf(events, pair))
  {
    HistorySnoc(events[..|events| - 1], events[|events| - 1], pair);
    assert events == events[..|events| - 1] + [events[|events| - 1]];
  }
}
