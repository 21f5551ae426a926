/** The bounded fuzz run of `agent/fuzz.py` and the thread budget of `agent/supervisor.py`. */
module FuzzBudget {
  import opened Basics

  const MAX_REQUESTS_PER_TARGET: nat := 40
  const MAX_TOTAL_REQUESTS: nat := 500
  const KILL_SWITCH_FAILURES: nat := 3

  datatype Endpoint = Endpoint(path: string)
  datatype Target = Target(endpoint: Endpoint, param: string)
  datatype Class = Class(name: string)
  datatype Kind = Kind(name: string)
  datatype Payload = Payload(cls: Class, value: string)

  /** The gateway: whether the baseline of a visit answers, and the signals of each of its probes, or
      none if the probe raises.  Visits and probes are numbered, so it may answer alike or not. */
  datatype World = World(baseline: nat -> bool, probe: (nat, nat) -> Option<seq<Kind>>, injection: Target -> bool)

  // ---------------------------------------------------------------- the corpus

  const INJECTION_CLASSES := {Class("sqli"), Class("xss"), Class("template"), Class("traversal")}

  function Select(corpus: seq<Payload>, n: nat, injection: bool): seq<Payload>
    requires n <= |corpus|
  {
    if n == 0 then [] else
    Select(corpus, n - 1, injection)
    + if (corpus[n - 1].cls in INJECTION_CLASSES) == injection then [corpus[n - 1]] else []
  }

  /** `_prioritized_corpus`: the injection classes first. */
  function Prioritized(corpus: seq<Payload>): seq<Payload> {
    Select(corpus, |corpus|, true) + Select(corpus, |corpus|, false)
  }

  lemma {:induction false} SelectSplits(corpus: seq<Payload>, n: nat)
    requires n <= |corpus|
    ensures |Select(corpus, n, true)| + |Select(corpus, n, false)| == n
  {
    if n > 0 {
      SelectSplits(corpus, n - 1);
    }
  }

  lemma {:induction false} SelectKeepsAll(corpus: seq<Payload>, n: nat)
    requires n <= |corpus|
    ensures multiset(Select(corpus, n, true)) + multiset(Select(corpus, n, false)) == multiset(corpus[..n])
  {
    if n == 0 {
      assert corpus[..0] == [] && Select(corpus, 0, true) == [] && Select(corpus, 0, false) == [];
    } else {
      SelectKeepsAll(corpus, n - 1);
      SelectStep(corpus, n);
      hide Select;
      assert corpus[..n] == corpus[..n - 1] + [corpus[n - 1]];
    }
  }

  lemma SelectStep(corpus: seq<Payload>, n: nat)
    requires 0 < n <= |corpus|
    ensures var (x, inj) := (corpus[n - 1], corpus[n - 1].cls in INJECTION_CLASSES);
            && Select(corpus, n, inj) == Select(corpus, n - 1, inj) + [x]
            && Select(corpus, n, !inj) == Select(corpus, n - 1, !inj)
  {
  }

  lemma {:induction false} SelectClasses(corpus: seq<Payload>, n: nat, injection: bool)
    requires n <= |corpus|
    ensures forall i :: 0 <= i < |Select(corpus, n, injection)| ==>
              (Select(corpus, n, injection)[i].cls in INJECTION_CLASSES <==> injection)
  {
    if n > 0 {
      SelectClasses(corpus, n - 1, injection);
    }
  }

  /** Prioritizing loses no payload and puts every injection payload before every other. */
  lemma PrioritizedIsReordering(corpus: seq<Payload>)
    ensures multiset(Prioritized(corpus)) == multiset(corpus)
    ensures forall i, j :: 0 <= i < j < |Prioritized(corpus)| && Prioritized(corpus)[j].cls in INJECTION_CLASSES
              ==> Prioritized(corpus)[i].cls in INJECTION_CLASSES
  {
    hide Select;
    SelectClasses(corpus, |corpus|, true);
    SelectClasses(corpus, |corpus|, false);
    SelectKeepsAll(corpus, |corpus|);
    assert corpus[..|corpus|] == corpus;
  }

  /** Payloads of one kind keep their order. */
  lemma {:induction false} SelectInOrder(corpus: seq<Payload>, n: nat, injection: bool, i: nat, j: nat)
    returns (p: nat, q: nat)
    requires n <= |corpus| && i < j < |Select(corpus, n, injection)|
    ensures p < q < n && corpus[p] == Select(corpus, n, injection)[i] && corpus[q] == Select(corpus, n, injection)[j]
  {
    var before := Select(corpus, n - 1, injection);
    if j < |before| {
      p, q := SelectInOrder(corpus, n - 1, injection, i, j);
    } else {
      p := SelectedFrom(corpus, n - 1, injection, i);
      q := n - 1;
    }
  }

  lemma {:induction false} SelectedFrom(corpus: seq<Payload>, n: nat, injection: bool, i: nat) returns (p: nat)
    requires n <= |corpus| && i < |Select(corpus, n, injection)|
    ensures p < n && corpus[p] == Select(corpus, n, injection)[i]
  {
    p := n - 1;
    if i < |Select(corpus, n - 1, injection)| {
      p := SelectedFrom(corpus, n - 1, injection, i);
    }
  }

  /** A reordering in which the injection payloads come first and each kind keeps its order. */
  ghost predicate InjectionFirst(corpus: seq<Payload>, order: seq<Payload>) {
    && multiset(order) == multiset(corpus)
    && forall i, j :: 0 <= i < j < |order| ==>
         if order[i].cls in INJECTION_CLASSES <==> order[j].cls in INJECTION_CLASSES
         then InOrder(corpus, order[i], order[j]) else order[i].cls in INJECTION_CLASSES
  }

  ghost predicate InOrder(corpus: seq<Payload>, a: Payload, b: Payload) {
    exists p, q :: 0 <= p < q < |corpus| && corpus[p] == a && corpus[q] == b
  }

  lemma PrioritizedIsInjectionFirst(corpus: seq<Payload>)
    ensures InjectionFirst(corpus, Prioritized(corpus))
  {
    hide Select, InOrder;
    PrioritizedIsReordering(corpus);
    SelectClasses(corpus, |corpus|, true);
    SelectClasses(corpus, |corpus|, false);
    var (order, m) := (Prioritized(corpus), |Select(corpus, |corpus|, true)|);
    forall i, j | 0 <= i < j < |order| && (j < m || m <= i) ensures InOrder(corpus, order[i], order[j]) {
      var p, q := SelectInOrder(corpus, |corpus|, j < m, if j < m then i else i - m, if j < m then j else j - m);
      assert InOrder(corpus, corpus[p], corpus[q]) by { ShowInOrder(corpus, p, q); }
    }
  }

  lemma ShowInOrder(corpus: seq<Payload>, p: nat, q: nat)
    requires p < q < |corpus|
    ensures InOrder(corpus, corpus[p], corpus[q])
  {
  }

  // ---------------------------------------------------------------- one target

  datatype Outcome = Raised | Answered(cls: Class, kinds: seq<Kind>)

  function OutcomeOf(w: World, at: nat, payloads: seq<Payload>, i: nat): Outcome
    requires i < |payloads|
  {
    if w.probe(at, i).Some? then Answered(payloads[i].cls, w.probe(at, i).value) else Raised
  }

  /** The outcomes of probing from payload `i` on, with the failures in a row so far. */
  function Probes(w: World, at: nat, payloads: seq<Payload>, i: nat, failures: nat): seq<Outcome>
    requires i <= |payloads|
    decreases |payloads| - i
  {
    if i == |payloads| then [] else
    match w.probe(at, i)
    case Some(kinds) => [Answered(payloads[i].cls, kinds)] + Probes(w, at, payloads, i + 1, 0)
    case None =>
      if failures + 1 >= KILL_SWITCH_FAILURES then [Raised]
      else [Raised] + Probes(w, at, payloads, i + 1, failures + 1)
  }

  /** Answers among the first `n` outcomes. */
  function Answers(outcomes: seq<Outcome>, n: nat): nat
    requires n <= |outcomes|
  {
    if n == 0 then 0 else Answers(outcomes, n - 1) + if outcomes[n - 1].Answered? then 1 else 0
  }

  /** Failures in a row just before position `n`, counting from `failures`. */
  function InARow(outcomes: seq<Outcome>, n: nat, failures: nat): nat
    requires n <= |outcomes|
  {
    if n == 0 then failures else if outcomes[n - 1].Raised? then InARow(outcomes, n - 1, failures) + 1 else 0
  }

  lemma {:induction false} InARowShift(first: Outcome, rest: seq<Outcome>, n: nat, failures: nat)
    requires n <= |rest|
    ensures InARow([first] + rest, n + 1, failures) == InARow(rest, n, if first.Raised? then failures + 1 else 0)
  {
    if n > 0 {
      InARowShift(first, rest, n - 1, failures);
    }
  }

  /** The kill switch: no probe follows three failures in a row ... */
  lemma {:induction false} KillSwitchStops(w: World, at: nat, payloads: seq<Payload>, i: nat, failures: nat)
    requires i <= |payloads| && failures < KILL_SWITCH_FAILURES
    ensures forall n :: 0 <= n < |Probes(w, at, payloads, i, failures)| ==>
              InARow(Probes(w, at, payloads, i, failures), n, failures) < KILL_SWITCH_FAILURES
    decreases |payloads| - i
  {
    var outcomes := Probes(w, at, payloads, i, failures);
    if i < |payloads| && !StopsAt(w, at, payloads, i, failures) {
      var next := if outcomes[0].Raised? then failures + 1 else 0;
      KillSwitchStops(w, at, payloads, i + 1, next);
      var rest := Probes(w, at, payloads, i + 1, next);
      forall n | 0 < n < |outcomes| ensures InARow(outcomes, n, failures) < KILL_SWITCH_FAILURES {
        InARowShift(outcomes[0], rest, n - 1, failures);
      }
    }
  }

  /** ... nothing else stops the payloads ... */
  lemma {:induction false} OnlyKillSwitchStops(w: World, at: nat, payloads: seq<Payload>, i: nat, failures: nat)
    requires i <= |payloads| && failures < KILL_SWITCH_FAILURES
    ensures var p := Probes(w, at, payloads, i, failures);
            && |p| <= |payloads| - i
            && (|p| < |payloads| - i ==> InARow(p, |p|, failures) == KILL_SWITCH_FAILURES)
    decreases |payloads| - i
  {
    var outcomes := Probes(w, at, payloads, i, failures);
    if i < |payloads| {
      if StopsAt(w, at, payloads, i, failures) {
        assert InARow(outcomes, 0, failures) == failures;
      } else {
        var next := if outcomes[0].Raised? then failures + 1 else 0;
        OnlyKillSwitchStops(w, at, payloads, i + 1, next);
        var rest := Probes(w, at, payloads, i + 1, next);
        InARowShift(outcomes[0], rest, |rest|, failures);
      }
    }
  }

  /** ... and they are sent in order. */
  lemma {:induction false} SentInOrder(w: World, at: nat, payloads: seq<Payload>, i: nat, failures: nat, n: nat)
    requires i <= |payloads| && n < |Probes(w, at, payloads, i, failures)|
    ensures i + n < |payloads| && Probes(w, at, payloads, i, failures)[n] == OutcomeOf(w, at, payloads, i + n)
    decreases n
  {
    if n > 0 {
      SentInOrder(w, at, payloads, i + 1, if w.probe(at, i).None? then failures + 1 else 0, n - 1);
    }
  }

  predicate StopsAt(w: World, at: nat, payloads: seq<Payload>, i: nat, failures: nat)
    requires i < |payloads|
  {
    w.probe(at, i).None? && failures + 1 >= KILL_SWITCH_FAILURES
  }

  lemma {:induction false} AnswersAtMost(outcomes: seq<Outcome>, n: nat)
    requires n <= |outcomes|
    ensures Answers(outcomes, n) <= n
  {
    if n > 0 {
      AnswersAtMost(outcomes, n - 1);
    }
  }

  // ---------------------------------------------------------------- one run

  /** What happens to one target: nothing counts unless its baseline answers. */
  datatype Visit = Visit(target: Target, baseline: bool, outcomes: seq<Outcome>)

  function VisitOf(w: World, at: nat, t: Target, corpus: seq<Payload>): Visit {
    if !w.baseline(at) then Visit(t, false, []) else
    var ordered := if w.injection(t) then Prioritized(corpus) else corpus;
    Visit(t, true, Probes(w, at, ordered[..Min(MAX_REQUESTS_PER_TARGET, |ordered|)], 0, 0))
  }

  /** `requests_sent` grows with answers only: a probe that raises is not counted. */
  function Sent(v: Visit): nat {
    if v.baseline then 1 + Answers(v.outcomes, |v.outcomes|) else 0
  }

  /** The targets visited from the `i`-th on, until the global budget is reached. */
  function Visits(w: World, targets: seq<Target>, corpus: seq<Payload>, i: nat, sent: nat): seq<Visit>
    requires i <= |targets|
    decreases |targets| - i
  {
    if i == |targets| || sent >= MAX_TOTAL_REQUESTS then [] else
    var v := VisitOf(w, i, targets[i], corpus);
    [v] + Visits(w, targets, corpus, i + 1, sent + Sent(v))
  }

  function TotalSent(visits: seq<Visit>, n: nat): nat
    requires n <= |visits|
  {
    if n == 0 then 0 else TotalSent(visits, n - 1) + Sent(visits[n - 1])
  }

  lemma VisitBounded(w: World, at: nat, t: Target, corpus: seq<Payload>)
    ensures Sent(VisitOf(w, at, t, corpus)) <= 1 + Min(MAX_REQUESTS_PER_TARGET, |corpus|)
    ensures |VisitOf(w, at, t, corpus).outcomes| <= Min(MAX_REQUESTS_PER_TARGET, |corpus|)
  {
    SelectSplits(corpus, |corpus|);
    var ordered := if w.injection(t) then Prioritized(corpus) else corpus;
    assert |ordered| == |corpus|;
    OnlyKillSwitchStops(w, at, ordered[..Min(MAX_REQUESTS_PER_TARGET, |ordered|)], 0, 0);
    var v := VisitOf(w, at, t, corpus);
    AnswersAtMost(v.outcomes, |v.outcomes|);
  }

  /** A visit probes only after an answered baseline, injection payloads first for an injection target,
      in corpus order otherwise, up to forty of them, and stops earlier exactly by the kill switch. */
  lemma VisitExactly(w: World, at: nat, t: Target, corpus: seq<Payload>) returns (order: seq<Payload>)
    ensures if w.injection(t) then InjectionFirst(corpus, order) else order == corpus
    ensures var v := VisitOf(w, at, t, corpus);
            && v.target == t && v.baseline == w.baseline(at) && (!v.baseline ==> v.outcomes == [])
            && |v.outcomes| <= Min(MAX_REQUESTS_PER_TARGET, |order|)
            && (forall n :: 0 <= n < |v.outcomes| ==>
                  v.outcomes[n] == OutcomeOf(w, at, order, n) && InARow(v.outcomes, n, 0) < KILL_SWITCH_FAILURES)
            && (v.baseline && |v.outcomes| < Min(MAX_REQUESTS_PER_TARGET, |order|) ==>
                  InARow(v.outcomes, |v.outcomes|, 0) == KILL_SWITCH_FAILURES)
  {
    PrioritizedIsInjectionFirst(corpus);
    order := if w.injection(t) then Prioritized(corpus) else corpus;
    hide Prioritized, InjectionFirst;
    var payloads := order[..Min(MAX_REQUESTS_PER_TARGET, |order|)];
    OnlyKillSwitchStops(w, at, payloads, 0, 0);
    KillSwitchStops(w, at, payloads, 0, 0);
    var p := Probes(w, at, payloads, 0, 0);
    forall n: nat | n < |p| ensures p[n] == OutcomeOf(w, at, order, n) {
      SentInOrder(w, at, payloads, 0, 0, n);
    }
    hide Probes, InARow, OutcomeOf;
  }

  lemma {:induction false} TotalShift(first: Visit, rest: seq<Visit>, n: nat)
    requires n <= |rest|
    ensures TotalSent([first] + rest, n + 1) == Sent(first) + TotalSent(rest, n)
  {
    if n > 0 {
      TotalShift(first, rest, n - 1);
    } else {
      assert TotalSent([first] + rest, 0) == 0;
    }
  }

  /** The bound the loop gives: the budget is tested before a target, not inside it. */
  lemma {:induction false} RunBounded(w: World, targets: seq<Target>, corpus: seq<Payload>, i: nat, sent: nat)
    requires i <= |targets| && sent <= MAX_TOTAL_REQUESTS + Min(MAX_REQUESTS_PER_TARGET, |corpus|)
    ensures var visits := Visits(w, targets, corpus, i, sent);
            sent + TotalSent(visits, |visits|) <= MAX_TOTAL_REQUESTS + Min(MAX_REQUESTS_PER_TARGET, |corpus|)
    decreases |targets| - i
  {
    if i < |targets| && sent < MAX_TOTAL_REQUESTS {
      var v := VisitOf(w, i, targets[i], corpus);
      VisitBounded(w, i, targets[i], corpus);
      RunBounded(w, targets, corpus, i + 1, sent + Sent(v));
      var rest := Visits(w, targets, corpus, i + 1, sent + Sent(v));
      TotalShift(v, rest, |rest|);
    }
  }

  /** Targets are visited in order, each while the budget is not reached ... */
  lemma {:induction false} VisitedInOrder(w: World, targets: seq<Target>, corpus: seq<Payload>, i: nat, sent: nat,
                                          k: nat)
    requires i <= |targets| && k < |Visits(w, targets, corpus, i, sent)|
    ensures var visits := Visits(w, targets, corpus, i, sent);
            && i + k < |targets| && visits[k] == VisitOf(w, i + k, targets[i + k], corpus)
            && sent + TotalSent(visits, k) < MAX_TOTAL_REQUESTS
    decreases k
  {
    hide VisitOf, Sent;
    if k > 0 {
      var (v, m) := (VisitOf(w, i, targets[i], corpus), k - 1);
      VisitedInOrder(w, targets, corpus, i + 1, sent + Sent(v), m);
      TotalShift(v, Visits(w, targets, corpus, i + 1, sent + Sent(v)), m);
    } else {
      assert TotalSent(Visits(w, targets, corpus, i, sent), 0) == 0;
    }
  }

  /** ... and the run ends only at the last target or with the budget reached. */
  lemma {:induction false} EndsByBudget(w: World, targets: seq<Target>, corpus: seq<Payload>, i: nat, sent: nat)
    requires i <= |targets|
    ensures var visits := Visits(w, targets, corpus, i, sent);
            && |visits| <= |targets| - i
            && (|visits| < |targets| - i ==> sent + TotalSent(visits, |visits|) >= MAX_TOTAL_REQUESTS)
    decreases |targets| - i
  {
    hide VisitOf, Sent;
    if i < |targets| && sent < MAX_TOTAL_REQUESTS {
      var v := VisitOf(w, i, targets[i], corpus);
      EndsByBudget(w, targets, corpus, i + 1, sent + Sent(v));
      var rest := Visits(w, targets, corpus, i + 1, sent + Sent(v));
      TotalShift(v, rest, |rest|);
    }
  }

  // ---------------------------------------------------------------- findings

  /** What makes a finding new. */
  datatype Key = Key(endpoint: Endpoint, cls: Class, kind: Kind)

  /** The signals of the first `n` kinds of one answer. */
  function KindKeys(t: Target, cls: Class, kinds: seq<Kind>, n: nat): seq<Key>
    requires n <= |kinds|
  {
    if n == 0 then [] else KindKeys(t, cls, kinds, n - 1) + [Key(t.endpoint, cls, kinds[n - 1])]
  }

  function OutcomeKeys(t: Target, outcomes: seq<Outcome>, n: nat): seq<Key>
    requires n <= |outcomes|
  {
    if n == 0 then [] else
    OutcomeKeys(t, outcomes, n - 1)
    + match outcomes[n - 1]
      case Raised => []
      case Answered(cls, kinds) => KindKeys(t, cls, kinds, |kinds|)
  }

  /** Every signal detected in the first `n` visits, in order. */
  function Signals(visits: seq<Visit>, n: nat): seq<Key>
    requires n <= |visits|
  {
    if n == 0 then [] else
    Signals(visits, n - 1) + OutcomeKeys(visits[n - 1].target, visits[n - 1].outcomes, |visits[n - 1].outcomes|)
  }

  lemma {:induction false} KindKeysExactly(t: Target, cls: Class, kinds: seq<Kind>, n: nat, key: Key)
    requires n <= |kinds|
    ensures key in KindKeys(t, cls, kinds, n)
       <==> key.endpoint == t.endpoint && key.cls == cls && key.kind in kinds[..n]
  {
    if n > 0 {
      KindKeysExactly(t, cls, kinds, n - 1, key);
      assert kinds[..n] == kinds[..n - 1] + [kinds[n - 1]];
    }
  }

  predicate OutcomeSignals(t: Target, o: Outcome, key: Key) {
    o.Answered? && key.endpoint == t.endpoint && key.cls == o.cls && key.kind in o.kinds
  }

  lemma {:induction false} OutcomeKeysExactly(t: Target, outcomes: seq<Outcome>, n: nat, key: Key)
    requires n <= |outcomes|
    ensures key in OutcomeKeys(t, outcomes, n) <==> exists o :: 0 <= o < n && OutcomeSignals(t, outcomes[o], key)
  {
    hide KindKeys, OutcomeSignals;
    if n > 0 {
      OutcomeKeysExactly(t, outcomes, n - 1, key);
      OneOutcome(t, outcomes[n - 1], key);
    }
  }

  lemma OneOutcome(t: Target, o: Outcome, key: Key)
    ensures o.Answered? ==> (key in KindKeys(t, o.cls, o.kinds, |o.kinds|) <==> OutcomeSignals(t, o, key))
    ensures o.Raised? ==> !OutcomeSignals(t, o, key)
  {
    if o.Answered? {
      KindKeysExactly(t, o.cls, o.kinds, |o.kinds|, key);
      assert o.kinds[..|o.kinds|] == o.kinds;
    }
  }

  predicate VisitSignals(v: Visit, key: Key) {
    exists o :: 0 <= o < |v.outcomes| && OutcomeSignals(v.target, v.outcomes[o], key)
  }

  /** A key is among the signals exactly if some answer of some visited target showed its kind under
      its payload class. */
  lemma {:induction false} SignalsExactly(visits: seq<Visit>, n: nat, key: Key)
    requires n <= |visits|
    ensures key in Signals(visits, n) <==> exists v :: 0 <= v < n && VisitSignals(visits[v], key)
  {
    hide OutcomeKeys, VisitSignals;
    if n > 0 {
      SignalsExactly(visits, n - 1, key);
      SignalsOfVisit(visits[n - 1], key);
    }
  }

  lemma SignalsOfVisit(v: Visit, key: Key)
    ensures key in OutcomeKeys(v.target, v.outcomes, |v.outcomes|) <==> VisitSignals(v, key)
  {
    OutcomeKeysExactly(v.target, v.outcomes, |v.outcomes|, key);
  }

  function CountKind(signals: seq<Key>, n: nat, kind: Kind): nat
    requires n <= |signals|
  {
    if n == 0 then 0 else CountKind(signals, n - 1, kind) + if signals[n - 1].kind == kind then 1 else 0
  }

  function OfKind(signals: seq<Key>, n: nat, kind: Kind): set<nat>
    requires n <= |signals|
  {
    set k: nat | k < n && signals[k].kind == kind
  }

  /** Each signal of a kind counts once. */
  lemma {:induction false} CountsExactly(signals: seq<Key>, n: nat, kind: Kind)
    requires n <= |signals|
    ensures CountKind(signals, n, kind) == |OfKind(signals, n, kind)|
  {
    if n == 0 {
      assert OfKind(signals, 0, kind) == {};
    } else {
      var before := OfKind(signals, n - 1, kind);
      CountsExactly(signals, n - 1, kind);
      assert OfKind(signals, n, kind) == if signals[n - 1].kind == kind then before + {n - 1} else before;
    }
  }

  datatype Report = Report(requestsSent: nat, visited: seq<Target>, findings: seq<Key>, signalCounts: map<Kind, nat>)

  ghost predicate Describes(r: Report, signals: seq<Key>) {
    && (forall i, j :: 0 <= i < j < |r.findings| ==> r.findings[i] != r.findings[j])
    && (forall key :: key in r.findings <==> key in signals)
    && (forall kind :: (if kind in r.signalCounts then r.signalCounts[kind] else 0)
         == CountKind(signals, |signals|, kind))
  }

  lemma {:induction false} CountOfPrefix(a: seq<Key>, b: seq<Key>, n: nat, kind: Kind)
    requires n <= |a|
    ensures CountKind(a + b, n, kind) == CountKind(a, n, kind)
  {
    if n > 0 {
      CountOfPrefix(a, b, n - 1, kind);
    }
  }

  /** The innermost loop: count every signal, report a key once. */
  method Note(r: Report, seen: set<Key>, t: Target, cls: Class, kinds: seq<Kind>, ghost signals: seq<Key>)
    returns (more: Report, known: set<Key>)
    requires Describes(r, signals) && forall key :: key in seen <==> key in r.findings
    ensures Describes(more, signals + KindKeys(t, cls, kinds, |kinds|))
    ensures forall key :: key in known <==> key in more.findings
    ensures more.requestsSent == r.requestsSent && more.visited == r.visited
  {
    more, known := r, seen;
    assert signals + KindKeys(t, cls, kinds, 0) == signals;
    for n := 0 to |kinds|
      invariant Describes(more, signals + KindKeys(t, cls, kinds, n))
      invariant forall key :: key in known <==> key in more.findings
      invariant more.requestsSent == r.requestsSent && more.visited == r.visited
    {
      var key := Key(t.endpoint, cls, kinds[n]);
      ghost var before := signals + KindKeys(t, cls, kinds, n);
      assert signals + KindKeys(t, cls, kinds, n + 1) == before + [key];
      forall kind ensures CountKind(before + [key], |before|, kind) == CountKind(before, |before|, kind) {
        CountOfPrefix(before, [key], |before|, kind);
      }
      var count := if key.kind in more.signalCounts then more.signalCounts[key.kind] else 0;
      more := more.(signalCounts := more.signalCounts[key.kind := count + 1]);
      if key !in known {
        known := known + {key};
        more := more.(findings := more.findings + [key]);
      }
    }
  }

  lemma SameFindings(a: Report, b: Report, signals: seq<Key>)
    requires Describes(a, signals) && b.findings == a.findings && b.signalCounts == a.signalCounts
    ensures Describes(b, signals)
  {
  }

  lemma {:induction false} OutcomesOfPrefix(t: Target, a: seq<Outcome>, b: seq<Outcome>, n: nat)
    requires n <= |a|
    ensures OutcomeKeys(t, a + b, n) == OutcomeKeys(t, a, n) && Answers(a + b, n) == Answers(a, n)
  {
    if n > 0 {
      OutcomesOfPrefix(t, a, b, n - 1);
    }
  }

  lemma OneMoreOutcome(t: Target, before: seq<Outcome>, o: Outcome, signals: seq<Key>)
    ensures signals + OutcomeKeys(t, before + [o], |before| + 1) ==
      signals + OutcomeKeys(t, before, |before|)
      + match o
        case Raised => []
        case Answered(cls, kinds) => KindKeys(t, cls, kinds, |kinds|)
    ensures Answers(before + [o], |before| + 1) == Answers(before, |before|) + if o.Answered? then 1 else 0
  {
    OutcomesOfPrefix(t, before, [o], |before|);
  }

  /** Where the payload loop stands: what is reported is what was detected and counted. */
  ghost predicate Tracked(start: Report, more: Report, known: set<Key>, t: Target, outcomes: seq<Outcome>,
                          signals: seq<Key>)
  {
    && Describes(more, signals + OutcomeKeys(t, outcomes, |outcomes|))
    && (forall key :: key in known <==> key in more.findings)
    && more.requestsSent == start.requestsSent + Answers(outcomes, |outcomes|) && more.visited == start.visited
  }

  lemma NothingTracked(start: Report, known: set<Key>, t: Target, signals: seq<Key>)
    requires Describes(start, signals) && forall key :: key in known <==> key in start.findings
    ensures Tracked(start, start, known, t, [], signals)
  {
    assert signals + OutcomeKeys(t, [], 0) == signals;
  }

  /** One answer: counted, and its signals reported. */
  method NoteAnswer(r: Report, known: set<Key>, t: Target, cls: Class, kinds: seq<Kind>,
                    ghost start: Report, ghost outcomes: seq<Outcome>, ghost signals: seq<Key>)
    returns (more: Report, after: set<Key>)
    requires Tracked(start, r, known, t, outcomes, signals)
    ensures Tracked(start, more, after, t, outcomes + [Answered(cls, kinds)], signals)
  {
    hide Describes, OutcomeKeys, KindKeys, Answers;
    OneMoreOutcome(t, outcomes, Answered(cls, kinds), signals);
    more := r.(requestsSent := r.requestsSent + 1);
    SameFindings(r, more, signals + OutcomeKeys(t, outcomes, |outcomes|));
    more, after := Note(more, known, t, cls, kinds, signals + OutcomeKeys(t, outcomes, |outcomes|));
  }

  lemma NoteFailure(r: Report, known: set<Key>, t: Target, start: Report, outcomes: seq<Outcome>, signals: seq<Key>)
    requires Tracked(start, r, known, t, outcomes, signals)
    ensures Tracked(start, r, known, t, outcomes + [Raised], signals)
  {
    hide Describes, OutcomeKeys, Answers;
    OneMoreOutcome(t, outcomes, Raised, signals);
    assert signals + OutcomeKeys(t, outcomes, |outcomes|) + [] == signals + OutcomeKeys(t, outcomes, |outcomes|);
  }

  /** The payload loop of one target. */
  method ProbeTarget(w: World, at: nat, t: Target, payloads: seq<Payload>, r: Report, seen: set<Key>,
                     ghost signals: seq<Key>)
    returns (more: Report, known: set<Key>)
    requires Describes(r, signals) && forall key :: key in seen <==> key in r.findings
    ensures Tracked(r, more, known, t, Probes(w, at, payloads, 0, 0), signals)
  {
    NothingTracked(r, seen, t, signals);
    hide Tracked, Probes;
    more, known := r, seen;
    ghost var outcomes: seq<Outcome> := [];
    ghost var whole := Probes(w, at, payloads, 0, 0);
    var i, failures := 0, 0;
    while i < |payloads|
      invariant i <= |payloads| && failures < KILL_SWITCH_FAILURES
      invariant whole == outcomes + Probes(w, at, payloads, i, failures)
      invariant Tracked(r, more, known, t, outcomes, signals)
    {
      ProbesStep(w, at, payloads, i, failures, outcomes);
      match w.probe(at, i) {
        case Some(kinds) =>
          more, known := NoteAnswer(more, known, t, payloads[i].cls, kinds, r, outcomes, signals);
          outcomes := outcomes + [Answered(payloads[i].cls, kinds)];
          failures := 0;
        case None =>
          NoteFailure(more, known, t, r, outcomes, signals);
          outcomes := outcomes + [Raised];
          failures := failures + 1;
          if failures >= KILL_SWITCH_FAILURES {
            return;
          }
      }
      i := i + 1;
    }
    ProbesEnd(w, at, payloads, failures, outcomes);
  }

  lemma ProbesStep(w: World, at: nat, payloads: seq<Payload>, i: nat, failures: nat, before: seq<Outcome>)
    requires i < |payloads|
    ensures before + Probes(w, at, payloads, i, failures) ==
      match w.probe(at, i)
      case Some(kinds) => (before + [Answered(payloads[i].cls, kinds)]) + Probes(w, at, payloads, i + 1, 0)
      case None =>
        if failures + 1 >= KILL_SWITCH_FAILURES then before + [Raised]
        else (before + [Raised]) + Probes(w, at, payloads, i + 1, failures + 1)
  {
  }

  lemma ProbesEnd(w: World, at: nat, payloads: seq<Payload>, failures: nat, outcomes: seq<Outcome>)
    ensures outcomes + Probes(w, at, payloads, |payloads|, failures) == outcomes
  {
  }

  lemma {:induction false} VisitsOfPrefix(a: seq<Visit>, b: seq<Visit>, n: nat)
    requires n <= |a|
    ensures Signals(a + b, n) == Signals(a, n) && TotalSent(a + b, n) == TotalSent(a, n)
  {
    if n > 0 {
      VisitsOfPrefix(a, b, n - 1);
    }
  }

  lemma OneMoreVisit(before: seq<Visit>, v: Visit)
    ensures Signals(before + [v], |before| + 1)
            == Signals(before, |before|) + OutcomeKeys(v.target, v.outcomes, |v.outcomes|)
    ensures TotalSent(before + [v], |before| + 1) == TotalSent(before, |before|) + Sent(v)
  {
    VisitsOfPrefix(before, [v], |before|);
  }

  /** Where the target loop stands. */
  ghost predicate Reported(r: Report, seen: set<Key>, visits: seq<Visit>) {
    && r.requestsSent == TotalSent(visits, |visits|)
    && Describes(r, Signals(visits, |visits|)) && forall key :: key in seen <==> key in r.findings
  }

  /** The body of the target loop. */
  method VisitTarget(w: World, at: nat, t: Target, corpus: seq<Payload>, r: Report, seen: set<Key>,
                     ghost visits: seq<Visit>)
    returns (more: Report, known: set<Key>)
    requires Reported(r, seen, visits)
    ensures Reported(more, known, visits + [VisitOf(w, at, t, corpus)])
    ensures more.requestsSent == r.requestsSent + Sent(VisitOf(w, at, t, corpus)) && more.visited == r.visited + [t]
  {
    hide Describes, Probes, Signals, TotalSent;
    OneMoreVisit(visits, VisitOf(w, at, t, corpus));
    more, known := r.(visited := r.visited + [t]), seen;
    if w.baseline(at) {
      more := more.(requestsSent := more.requestsSent + 1);
      SameFindings(r, more, Signals(visits, |visits|));
      var ordered := if w.injection(t) then Prioritized(corpus) else corpus;
      more, known := ProbeTarget(w, at, t, ordered[..Min(MAX_REQUESTS_PER_TARGET, |ordered|)], more, seen,
                                 Signals(visits, |visits|));
    } else {
      SameFindings(r, more, Signals(visits, |visits|));
      assert OutcomeKeys(t, [], 0) == [];
      assert Signals(visits, |visits|) + [] == Signals(visits, |visits|);
    }
  }

  /** `run`: visits targets until the budget is reached; reports each (path, class, kind) once, and
      nothing else. */
  method Run(w: World, targets: seq<Target>, corpus: seq<Payload>) returns (r: Report)
    ensures var visits := Visits(w, targets, corpus, 0, 0);
            && r.requestsSent == TotalSent(visits, |visits|)
            && r.requestsSent <= MAX_TOTAL_REQUESTS + Min(MAX_REQUESTS_PER_TARGET, |corpus|)
            && |visits| <= |targets| && r.visited == targets[..|visits|]
            && Describes(r, Signals(visits, |visits|))
  {
    hide Reported, VisitOf, Sent, Visits, TotalSent, Signals, Describes;
    r := Report(0, [], [], map[]);
    ghost var visits: seq<Visit> := [];
    var seen: set<Key> := {};
    ghost var whole := Visits(w, targets, corpus, 0, 0);
    NothingReported();
    RunBounded(w, targets, corpus, 0, 0);
    for i := 0 to |targets|
      invariant |visits| == i && r.visited == targets[..i]
      invariant Reported(r, seen, visits) && whole == visits + Visits(w, targets, corpus, i, r.requestsSent)
    {
      VisitsStep(w, targets, corpus, i, r.requestsSent, visits);
      if r.requestsSent >= MAX_TOTAL_REQUESTS {
        ReportedMeans(r, seen, visits);
        return;
      }
      ghost var v := VisitOf(w, i, targets[i], corpus);
      r, seen := VisitTarget(w, i, targets[i], corpus, r, seen, visits);
      visits := visits + [v];
    }
    VisitsEnd(w, targets, corpus, r.requestsSent, visits);
    ReportedMeans(r, seen, visits);
  }

  lemma VisitsStep(w: World, targets: seq<Target>, corpus: seq<Payload>, i: nat, sent: nat, before: seq<Visit>)
    requires i < |targets|
    ensures before + Visits(w, targets, corpus, i, sent) ==
      if sent >= MAX_TOTAL_REQUESTS then before
      else var v := VisitOf(w, i, targets[i], corpus);
           (before + [v]) + Visits(w, targets, corpus, i + 1, sent + Sent(v))
  {
    hide VisitOf, Sent;
  }

  lemma VisitsEnd(w: World, targets: seq<Target>, corpus: seq<Payload>, sent: nat, visits: seq<Visit>)
    ensures visits + Visits(w, targets, corpus, |targets|, sent) == visits
  {
  }

  lemma NothingReported()
    ensures Reported(Report(0, [], [], map[]), {}, [])
  {
  }

  lemma ReportedMeans(r: Report, seen: set<Key>, visits: seq<Visit>)
    requires Reported(r, seen, visits)
    ensures r.requestsSent == TotalSent(visits, |visits|) && Describes(r, Signals(visits, |visits|))
  {
  }

  // ---------------------------------------------------------------- the thread budget

  /** The checkpointed budget of one thread. */
  datatype Budget = Budget(totalRequestsSent: nat, targetMax: nat)

  const FRESH := Budget(0, MAX_TOTAL_REQUESTS)

  /** `fuzz_node`: a thread that has reached the ceiling is not fuzzed again. */
  function Charged(budget: Budget, sent: nat): Budget {
    if budget.totalRequestsSent >= budget.targetMax then budget
    else budget.(totalRequestsSent := budget.totalRequestsSent + sent)
  }

  /** One invocation of a thread: the gateway as it then is, and the targets its map leaves. */
  datatype Round = Round(world: World, targets: seq<Target>)

  /** Successive invocations of one thread.  `run_syndicate` seeds the budget only for a thread that
      has none. */
  function Resumed(rounds: seq<Round>, corpus: seq<Payload>, n: nat): Budget
    requires n <= |rounds|
  {
    if n == 0 then FRESH else
    var visits := Visits(rounds[n - 1].world, rounds[n - 1].targets, corpus, 0, 0);
    Charged(Resumed(rounds, corpus, n - 1), TotalSent(visits, |visits|))
  }

  method FuzzNode(budget: Option<Budget>, w: World, targets: seq<Target>, corpus: seq<Payload>)
    returns (after: Budget, r: Option<Report>)
    ensures var start := if budget.Some? then budget.value else FRESH;
            var visits := Visits(w, targets, corpus, 0, 0);
            && after == Charged(start, TotalSent(visits, |visits|))
            && (r.None? <==> start.totalRequestsSent >= start.targetMax)
  {
    var start := if budget.Some? then budget.value else FRESH;
    if start.totalRequestsSent >= start.targetMax {
      return start, None;
    }
    var report := Run(w, targets, corpus);
    after := start.(totalRequestsSent := start.totalRequestsSent + report.requestsSent);
    r := Some(report);
  }

  /** However often a thread is resumed, its total stays below twice the nominal budget plus one
      target, and once the ceiling is reached it never grows again. */
  lemma {:induction false} ThreadBounded(rounds: seq<Round>, corpus: seq<Payload>, n: nat)
    requires n <= |rounds|
    ensures Resumed(rounds, corpus, n).targetMax == MAX_TOTAL_REQUESTS
    ensures Resumed(rounds, corpus, n).totalRequestsSent
         <= 2 * MAX_TOTAL_REQUESTS - 1 + Min(MAX_REQUESTS_PER_TARGET, |corpus|)
    ensures n > 0 && Resumed(rounds, corpus, n - 1).totalRequestsSent >= MAX_TOTAL_REQUESTS ==>
              Resumed(rounds, corpus, n) == Resumed(rounds, corpus, n - 1)
  {
    if n > 0 {
      ThreadBounded(rounds, corpus, n - 1);
      RunBounded(rounds[n - 1].world, rounds[n - 1].targets, corpus, 0, 0);
    }
  }

  // ---------------------------------------------------------------- the nominal budget

  /** What one target may cost at most. */
  function PerTarget(corpus: seq<Payload>): (m: nat)
    ensures m >= 1
  {
    1 + Min(MAX_REQUESTS_PER_TARGET, |corpus|)
  }

  function Total(w: World, targets: seq<Target>, corpus: seq<Payload>, i: nat, sent: nat): nat
    requires i <= |targets|
  {
    var visits := Visits(w, targets, corpus, i, sent); TotalSent(visits, |visits|)
  }

  lemma TotalUnfolds(w: World, targets: seq<Target>, corpus: seq<Payload>, i: nat, sent: nat)
    requires i <= |targets|
    ensures Total(w, targets, corpus, i, sent) ==
      if i == |targets| || sent >= MAX_TOTAL_REQUESTS then 0
      else var n := Sent(VisitOf(w, i, targets[i], corpus)); n + Total(w, targets, corpus, i + 1, sent + n)
  {
    if i < |targets| && sent < MAX_TOTAL_REQUESTS {
      var v := VisitOf(w, i, targets[i], corpus);
      var rest := Visits(w, targets, corpus, i + 1, sent + Sent(v));
      hide VisitOf, Sent;
      TotalShift(v, rest, |rest|);
    }
  }

  lemma {:induction false} CostsAtMost(w: World, targets: seq<Target>, corpus: seq<Payload>, i: nat, sent: nat)
    requires i <= |targets|
    ensures Total(w, targets, corpus, i, sent) <= (|targets| - i) * PerTarget(corpus)
    decreases |targets| - i
  {
    TotalUnfolds(w, targets, corpus, i, sent);
    if i < |targets| && sent < MAX_TOTAL_REQUESTS {
      VisitBounded(w, i, targets[i], corpus);
      CostsAtMost(w, targets, corpus, i + 1, sent + Sent(VisitOf(w, i, targets[i], corpus)));
      OneTimesMore(|targets| - i - 1, PerTarget(corpus));
      hide Total, VisitOf, Sent;
    }
  }

  lemma OneTimesMore(n: nat, m: nat)
    ensures (n + 1) * m == n * m + m
  {
  }

  lemma {:induction false} TimesMonotone(a: nat, b: nat, m: nat)
    requires a <= b
    ensures a * m <= b * m
  {
  }

  // ---------------------------------------------------------------- gateways that exhaust it

  /** A gateway that answers the first `quota(i)` requests of visit `i` and no more. */
  function Answering(quota: nat -> nat): World {
    World((i: nat) => quota(i) > 0, (i: nat, j: nat) => if j + 1 < quota(i) then Some([]) else None, t => false)
  }

  lemma {:induction false} AnsweredProbes(quota: nat -> nat, at: nat, payloads: seq<Payload>, i: nat, failures: nat)
    requires i <= |payloads| && failures < KILL_SWITCH_FAILURES && (failures > 0 ==> quota(at) <= i)
    ensures var p := Probes(Answering(quota), at, payloads, i, failures);
            Answers(p, |p|) == if quota(at) <= i + 1 then 0 else Min(quota(at) - 1, |payloads|) - i
    decreases |payloads| - i
  {
    var w := Answering(quota);
    if i < |payloads| && !StopsAt(w, at, payloads, i, failures) {
      var next := if w.probe(at, i).None? then failures + 1 else 0;
      AnsweredProbes(quota, at, payloads, i + 1, next);
      var rest := Probes(w, at, payloads, i + 1, next);
      AnswersShift(OutcomeOf(w, at, payloads, i), rest, |rest|);
    }
  }

  lemma {:induction false} AnswersShift(first: Outcome, rest: seq<Outcome>, n: nat)
    requires n <= |rest|
    ensures Answers([first] + rest, n + 1) == (if first.Answered? then 1 else 0) + Answers(rest, n)
  {
    if n > 0 {
      AnswersShift(first, rest, n - 1);
    } else {
      assert Answers([first] + rest, 0) == 0;
    }
  }

  lemma AnsweredVisit(quota: nat -> nat, at: nat, t: Target, corpus: seq<Payload>)
    ensures Sent(VisitOf(Answering(quota), at, t, corpus)) == Min(quota(at), PerTarget(corpus))
  {
    AnsweredProbes(quota, at, corpus[..Min(MAX_REQUESTS_PER_TARGET, |corpus|)], 0, 0);
  }

  /** While every visit is answered in full, the total grows by the same amount. */
  lemma {:induction false} FullVisits(quota: nat -> nat, targets: seq<Target>, corpus: seq<Payload>, i: nat, k: nat)
    requires i <= k <= |targets| && (k > 0 ==> (k - 1) * PerTarget(corpus) < MAX_TOTAL_REQUESTS)
    requires forall j :: i <= j < k ==> quota(j) >= PerTarget(corpus)
    ensures Total(Answering(quota), targets, corpus, i, i * PerTarget(corpus))
         == (k - i) * PerTarget(corpus) + Total(Answering(quota), targets, corpus, k, k * PerTarget(corpus))
    decreases k - i
  {
    if i < k {
      var m := PerTarget(corpus);
      OneTimesMore(i, m);
      OneTimesMore(k - i - 1, m);
      TimesMonotone(i, k - 1, m);
      TotalUnfolds(Answering(quota), targets, corpus, i, i * m);
      AnsweredVisit(quota, i, targets[i], corpus);
      FullVisits(quota, targets, corpus, i + 1, k);
      hide PerTarget, Total, Answering, VisitOf, Sent;
    }
  }

  /** Full visits up to the last one the budget cannot refuse, then one more with the rest of 499. */
  function FullBefore(corpus: seq<Payload>): nat {
    (MAX_TOTAL_REQUESTS - 1) / PerTarget(corpus)
  }

  function Brim(corpus: seq<Payload>, after: nat): nat -> nat {
    var k, m, rest: nat := FullBefore(corpus), PerTarget(corpus), (MAX_TOTAL_REQUESTS - 1) % PerTarget(corpus);
    (i: nat) => if i < k then m else if i == k then rest else after
  }

  /** That gateway leaves 499 counted requests and lets one more target be visited. */
  lemma ReachesBrim(targets: seq<Target>, corpus: seq<Payload>, after: nat)
    requires |targets| > FullBefore(corpus)
    ensures var (k, w) := (FullBefore(corpus), Answering(Brim(corpus, after)));
            var rest := Total(w, targets, corpus, k + 1, MAX_TOTAL_REQUESTS - 1);
            Total(w, targets, corpus, 0, 0) == MAX_TOTAL_REQUESTS - 1 + rest
  {
    var (k, m, quota) := (FullBefore(corpus), PerTarget(corpus), Brim(corpus, after));
    BrimFits(corpus, after);
    hide PerTarget, FullBefore, Brim, Total, Answering, VisitOf, Sent;
    FullVisits(quota, targets, corpus, 0, k);
    TotalUnfolds(Answering(quota), targets, corpus, k, k * m);
    AnsweredVisit(quota, k, targets[k], corpus);
  }

  lemma BrimFits(corpus: seq<Payload>, after: nat)
    ensures var (k, m, quota) := (FullBefore(corpus), PerTarget(corpus), Brim(corpus, after));
            && k * m + quota(k) == MAX_TOTAL_REQUESTS - 1 && quota(k) < m
            && (k > 0 ==> (k - 1) * m < MAX_TOTAL_REQUESTS)
            && forall i :: 0 <= i < k ==> quota(i) == m
  {
    var (k, m) := (FullBefore(corpus), PerTarget(corpus));
    assert k * m + (MAX_TOTAL_REQUESTS - 1) % m == MAX_TOTAL_REQUESTS - 1;
    if k > 0 {
      TimesMonotone(k - 1, k, m);
    }
  }

  /** The bound on one run is met: 540 for a corpus of forty payloads or more. */
  lemma RunBoundTight(targets: seq<Target>, corpus: seq<Payload>)
    requires |targets| >= FullBefore(corpus) + 2
    ensures Total(Answering(Brim(corpus, PerTarget(corpus))), targets, corpus, 0, 0)
         == MAX_TOTAL_REQUESTS + Min(MAX_REQUESTS_PER_TARGET, |corpus|)
  {
    var (k, m) := (FullBefore(corpus), PerTarget(corpus));
    var quota := Brim(corpus, m);
    ReachesBrim(targets, corpus, m);
    TotalUnfolds(Answering(quota), targets, corpus, k + 1, MAX_TOTAL_REQUESTS - 1);
    AnsweredVisit(quota, k + 1, targets[k + 1], corpus);
    TotalUnfolds(Answering(quota), targets, corpus, k + 2, MAX_TOTAL_REQUESTS - 1 + m);
  }

  /** The nominal budget holds for every gateway exactly if there is no payload at all, or the targets
      cannot cost more than the budget together. */
  lemma NominalBudgetExactly(targets: seq<Target>, corpus: seq<Payload>)
    ensures (forall w: World :: Total(w, targets, corpus, 0, 0) <= MAX_TOTAL_REQUESTS)
       <==> corpus == [] || |targets| * PerTarget(corpus) <= MAX_TOTAL_REQUESTS
  {
    if corpus == [] || |targets| * PerTarget(corpus) <= MAX_TOTAL_REQUESTS {
      forall w: World ensures Total(w, targets, corpus, 0, 0) <= MAX_TOTAL_REQUESTS {
        CostsAtMost(w, targets, corpus, 0, 0);
        RunBounded(w, targets, corpus, 0, 0);
      }
    } else {
      NominalBudgetExceeded(targets, corpus);
    }
  }

  /** In every other case some gateway overruns the budget. */
  lemma NominalBudgetExceeded(targets: seq<Target>, corpus: seq<Payload>)
    requires corpus != [] && |targets| * PerTarget(corpus) > MAX_TOTAL_REQUESTS
    ensures exists w: World :: Total(w, targets, corpus, 0, 0) > MAX_TOTAL_REQUESTS
  {
    var (k, m) := (FullBefore(corpus), PerTarget(corpus));
    assert k * m + (MAX_TOTAL_REQUESTS - 1) % m == MAX_TOTAL_REQUESTS - 1;
    if |targets| <= k {
      TimesMonotone(|targets|, k, m);
      assert false;
    } else if |targets| == k + 1 {
      var quota := (i: nat) => m;
      FullVisits(quota, targets, corpus, 0, k + 1);
    } else {
      RunBoundTight(targets, corpus);
    }
  }

  /** The bound on a thread is met too: one run to 499, and the next to the bound on a run. */
  lemma ThreadBoundTight(targets: seq<Target>, corpus: seq<Payload>)
    requires |targets| >= FullBefore(corpus) + 2
    ensures var k := FullBefore(corpus);
            var first := Round(Answering(Brim(corpus, 0)), targets[..k + 1]);
            var second := Round(Answering(Brim(corpus, PerTarget(corpus))), targets);
            var most := 2 * MAX_TOTAL_REQUESTS - 1 + Min(MAX_REQUESTS_PER_TARGET, |corpus|);
            Resumed([first, second], corpus, 2).totalRequestsSent == most
  {
    var k := FullBefore(corpus);
    var first := Round(Answering(Brim(corpus, 0)), targets[..k + 1]);
    var second := Round(Answering(Brim(corpus, PerTarget(corpus))), targets);
    ReachesBrim(targets[..k + 1], corpus, 0);
    TotalUnfolds(first.world, first.targets, corpus, k + 1, MAX_TOTAL_REQUESTS - 1);
    RunBoundTight(targets, corpus);
    hide Brim, Answering, FullBefore;
    TwoRounds(first, second, corpus);
  }

  lemma TwoRounds(first: Round, second: Round, corpus: seq<Payload>)
    requires Total(first.world, first.targets, corpus, 0, 0) < MAX_TOTAL_REQUESTS
    ensures Resumed([first, second], corpus, 2).totalRequestsSent
         == Total(first.world, first.targets, corpus, 0, 0) + Total(second.world, second.targets, corpus, 0, 0)
  {
    var rounds := [first, second];
    assert Resumed(rounds, corpus, 0) == FRESH;
    assert Resumed(rounds, corpus, 1).totalRequestsSent == Total(first.world, first.targets, corpus, 0, 0);
    hide Visits, TotalSent;
  }
}
