/** The workflow runner's step, retry, abort and failure-handler machine (pipeline_runner.py). */
module Workflow {
  import opened Prelude

  datatype Step = Step(name: string, onFailure: bool)

  datatype Policy = Policy(maxAttempts: nat, abortOnFailure: bool)

  /** Step results by name; an exhausted step records None. */
  type Results<V> = map<string, Option<V>>

  /** What executing a step does, given the results recorded so far: `attempt(i, k, r)` is the outcome
      of the k-th try of step i, None when it raises; `handler(i, r)` likewise for a failure handler. */
  datatype World<!V> = World(attempt: (nat, nat, Results<V>) -> Option<V>, handler: (nat, Results<V>) -> Option<V>)

  datatype Event = Tried(step: nat, attempt: nat, ok: bool) | Handled(step: nat, ok: bool)

  // ---------------------------------------------------------------- specification

  /** The outcomes of one step's tries, by attempt number. */
  type Tryout<V> = nat -> Option<V>

  function AtStep<V>(w: World<V>, i: nat, r: Results<V>): Tryout<V> {
    (k: nat) => w.attempt(i, k, r)
  }

  /** The attempt a step ends on, counting from k: the first success, or the last one allowed. */
  function EndsAt<V>(t: Tryout<V>, k: nat, max: nat): (n: nat)
    requires 1 <= k <= max
    ensures k <= n <= max
    ensures forall j :: k <= j < n ==> t(j).None?
    ensures n < max ==> t(n).Some?
    decreases max - k
  {
    if t(k).Some? || k == max then k else EndsAt(t, k + 1, max)
  }

  function Tries<V>(t: Tryout<V>, p: Policy): nat {
    if p.maxAttempts == 0 then 0 else EndsAt(t, 1, p.maxAttempts)
  }

  predicate Exhausted<V>(t: Tryout<V>, p: Policy) {
    p.maxAttempts > 0 && t(Tries(t, p)).None?
  }

  function TriedUpTo<V>(t: Tryout<V>, i: nat, n: nat): seq<Event> {
    if n == 0 then [] else TriedUpTo(t, i, n - 1) + [Tried(i, n, t(n).Some?)]
  }

  /** One main step: its consecutive attempts. */
  function StepEvents<V>(t: Tryout<V>, i: nat, p: Policy): seq<Event> {
    TriedUpTo(t, i, Tries(t, p))
  }

  function StepResults<V>(t: Tryout<V>, name: string, p: Policy, r: Results<V>): Results<V> {
    if p.maxAttempts == 0 then r else r[name := t(Tries(t, p))]
  }

  /** The results recorded by the main steps before `cut`. */
  function MainResults<V>(w: World<V>, steps: seq<Step>, p: Policy, cut: nat): Results<V>
    requires cut <= |steps|
  {
    if cut == 0 then map[]
    else
      var before := MainResults(w, steps, p, cut - 1);
      if steps[cut - 1].onFailure then before
      else StepResults(AtStep(w, cut - 1, before), steps[cut - 1].name, p, before)
  }

  /** What main step i meets: its own tries, run against the results of the steps before it. */
  function TryoutOf<V>(w: World<V>, steps: seq<Step>, p: Policy, i: nat): Tryout<V>
    requires i <= |steps|
  {
    AtStep(w, i, MainResults(w, steps, p, i))
  }

  /** The first n pieces of a trace, one after the other. */
  function Joined(piece: nat -> seq<Event>, n: nat): seq<Event> {
    if n == 0 then [] else Joined(piece, n - 1) + piece(n - 1)
  }

  /** What each step contributes to the main part: its tries, or nothing for a failure handler. */
  function MainPiece<V>(w: World<V>, steps: seq<Step>, p: Policy): nat -> seq<Event> {
    (i: nat) =>
      if i < |steps| && !steps[i].onFailure then StepEvents(TryoutOf(w, steps, p, i), i, p) else []
  }

  function MainEvents<V>(w: World<V>, steps: seq<Step>, p: Policy, cut: nat): seq<Event>
    requires cut <= |steps|
  {
    Joined(MainPiece(w, steps, p), cut)
  }

  predicate Fails<V>(w: World<V>, steps: seq<Step>, p: Policy, i: nat) {
    i < |steps| && !steps[i].onFailure && Exhausted(TryoutOf(w, steps, p, i), p)
  }

  predicate AnyFails<V>(w: World<V>, steps: seq<Step>, p: Policy, cut: nat) {
    exists i :: 0 <= i < cut && Fails(w, steps, p, i)
  }

  /** Where the main loop stops: just after the first exhausted step when aborting, else at the end. */
  function Cut<V>(w: World<V>, steps: seq<Step>, p: Policy, from: nat): (n: nat)
    requires from <= |steps|
    ensures from <= n <= |steps|
    ensures p.abortOnFailure ==> forall i :: from <= i < n - 1 ==> !Fails(w, steps, p, i)
    ensures n < |steps| ==> p.abortOnFailure && n > from && Fails(w, steps, p, n - 1)
    decreases |steps| - from
  {
    if from == |steps| then from
    else if p.abortOnFailure && Fails(w, steps, p, from) then from + 1
    else Cut(w, steps, p, from + 1)
  }

  function HandlerResults<V>(w: World<V>, steps: seq<Step>, n: nat, r: Results<V>): Results<V>
    requires n <= |steps|
  {
    if n == 0 then r
    else
      var before := HandlerResults(w, steps, n - 1, r);
      var out := w.handler(n - 1, before);
      if steps[n - 1].onFailure && out.Some? then before[steps[n - 1].name := out] else before
  }

  /** What each step contributes to the handlers' part, run against the results in r. */
  function HandlerPiece<V>(w: World<V>, steps: seq<Step>, r: Results<V>): nat -> seq<Event> {
    (i: nat) =>
      if i < |steps| && steps[i].onFailure then
        [Handled(i, w.handler(i, HandlerResults(w, steps, i, r)).Some?)]
      else []
  }

  function HandlerEvents<V>(w: World<V>, steps: seq<Step>, n: nat, r: Results<V>): seq<Event>
    requires n <= |steps|
  {
    Joined(HandlerPiece(w, steps, r), n)
  }

  /** The whole run as a trace. */
  function WorkflowTrace<V>(w: World<V>, steps: seq<Step>, p: Policy): seq<Event> {
    var cut := Cut(w, steps, p, 0);
    MainEvents(w, steps, p, cut)
    + if AnyFails(w, steps, p, cut) then HandlerEvents(w, steps, |steps|, MainResults(w, steps, p, cut)) else []
  }

  function FinalResults<V>(w: World<V>, steps: seq<Step>, p: Policy): Results<V> {
    var cut := Cut(w, steps, p, 0);
    var main := MainResults(w, steps, p, cut);
    if AnyFails(w, steps, p, cut) then HandlerResults(w, steps, |steps|, main) else main
  }

  // ---------------------------------------------------------------- the runner

  class Runner<V(0)> {
    var trace: seq<Event>
    var results: Results<V>

    constructor ()
      ensures trace == [] && results == map[]
    {
      trace, results := [], map[];
    }

    /** One main step with its retries; reports whether it was exhausted. */
    method RunStep(w: World<V>, steps: seq<Step>, p: Policy, i: nat) returns (exhausted: bool)
      requires i < |steps|
      modifies this
      ensures var t := AtStep(w, i, old(results));
        && trace == old(trace) + StepEvents(t, i, p)
        && results == StepResults(t, steps[i].name, p, old(results))
        && exhausted == Exhausted(t, p)
    {
      ghost var t := AtStep(w, i, results);
      var attempt := 0;
      while attempt < p.maxAttempts
        invariant attempt <= p.maxAttempts
        invariant forall j :: 1 <= j <= attempt ==> t(j) == None
        invariant trace == old(trace) + TriedUpTo(t, i, attempt)
        invariant attempt < p.maxAttempts || attempt == 0 ==> results == old(results)
        invariant attempt == p.maxAttempts > 0 ==> results == old(results)[steps[i].name := None]
      {
        attempt := attempt + 1;
        var r := w.attempt(i, attempt, results);
        assert r == t(attempt);
        assert old(trace) + TriedUpTo(t, i, attempt - 1) + [Tried(i, attempt, r.Some?)]
            == old(trace) + TriedUpTo(t, i, attempt);
        trace := trace + [Tried(i, attempt, r.Some?)];
        if r.Some? {
          results := results[steps[i].name := r];
          EndsAtIs(t, 1, p.maxAttempts, attempt);
          return false;
        }
        if attempt == p.maxAttempts {
          results := results[steps[i].name := None];
        }
      }
      if p.maxAttempts > 0 { EndsAtIs(t, 1, p.maxAttempts, attempt); }
      return p.maxAttempts > 0;
    }

    method RunMain(w: World<V>, steps: seq<Step>, p: Policy) returns (failed: bool)
      requires results == map[]
      modifies this
      ensures var cut := Cut(w, steps, p, 0);
        && trace == old(trace) + MainEvents(w, steps, p, cut)
        && results == MainResults(w, steps, p, cut)
        && failed == AnyFails(w, steps, p, cut)
    {
      failed := false;
      var abort := false;
      var i := 0;
      while i < |steps| && !abort
        invariant i <= |steps|
        invariant trace == old(trace) + MainEvents(w, steps, p, i) && results == MainResults(w, steps, p, i)
        invariant failed == AnyFails(w, steps, p, i)
        invariant Cut(w, steps, p, 0) == if abort then i else Cut(w, steps, p, i)
        decreases |steps| - i
      {
        MainNext(w, steps, p, i, old(trace));
        if !steps[i].onFailure {
          var exhausted := RunStep(w, steps, p, i);
          if exhausted {
            failed := true;
            if p.abortOnFailure { abort := true; }
          }
        }
        i := i + 1;
      }
    }

    method RunHandlers(w: World<V>, steps: seq<Step>)
      modifies this
      ensures trace == old(trace) + HandlerEvents(w, steps, |steps|, old(results))
      ensures results == HandlerResults(w, steps, |steps|, old(results))
    {
      for i := 0 to |steps|
        invariant trace == old(trace) + HandlerEvents(w, steps, i, old(results))
        invariant results == HandlerResults(w, steps, i, old(results))
      {
        if steps[i].onFailure {
          var r := w.handler(i, results);
          trace := trace + [Handled(i, r.Some?)];
          if r.Some? { results := results[steps[i].name := r]; }
        }
      }
    }

    method RunWorkflow(w: World<V>, steps: seq<Step>, p: Policy) returns (failed: bool)
      modifies this
      ensures trace == old(trace) + WorkflowTrace(w, steps, p)
      ensures failed == AnyFails(w, steps, p, Cut(w, steps, p, 0))
      ensures results == FinalResults(w, steps, p)
    {
      results := map[];
      failed := RunMain(w, steps, p);
      ghost var main, r := trace, results;
      if failed { RunHandlers(w, steps); }
      RunComposes(w, steps, p, old(trace), main, r);
    }
  }

  /** The main loop followed, after a failure, by the handlers is the whole run. */
  lemma RunComposes<V>(w: World<V>, steps: seq<Step>, p: Policy, before: seq<Event>, main: seq<Event>, r: Results<V>)
    requires var cut := Cut(w, steps, p, 0);
      main == before + MainEvents(w, steps, p, cut) && r == MainResults(w, steps, p, cut)
    ensures AnyFails(w, steps, p, Cut(w, steps, p, 0)) ==>
      (before + WorkflowTrace(w, steps, p) == main + HandlerEvents(w, steps, |steps|, r)
       && FinalResults(w, steps, p) == HandlerResults(w, steps, |steps|, r))
    ensures !AnyFails(w, steps, p, Cut(w, steps, p, 0)) ==>
      before + WorkflowTrace(w, steps, p) == main && FinalResults(w, steps, p) == r
  {
    var events := MainEvents(w, steps, p, Cut(w, steps, p, 0));
    var handled := HandlerEvents(w, steps, |steps|, r);
    assert (before + events) + handled == before + (events + handled);
    assert events + [] == events;
  }

  /** What one more main step adds. */
  lemma MainNext<V>(w: World<V>, steps: seq<Step>, p: Policy, i: nat, before: seq<Event>)
    requires i < |steps|
    ensures AnyFails(w, steps, p, i + 1) <==> AnyFails(w, steps, p, i) || Fails(w, steps, p, i)
    ensures steps[i].onFailure ==>
      && MainEvents(w, steps, p, i + 1) == MainEvents(w, steps, p, i)
      && MainResults(w, steps, p, i + 1) == MainResults(w, steps, p, i)
    ensures !steps[i].onFailure ==>
      && before + MainEvents(w, steps, p, i + 1)
         == before + MainEvents(w, steps, p, i) + StepEvents(TryoutOf(w, steps, p, i), i, p)
      && MainResults(w, steps, p, i + 1)
         == StepResults(TryoutOf(w, steps, p, i), steps[i].name, p, MainResults(w, steps, p, i))
  {
    if steps[i].onFailure {
      assert MainEvents(w, steps, p, i) + [] == MainEvents(w, steps, p, i);
    }
  }

  lemma {:induction false} EndsAtIs<V>(t: Tryout<V>, k: nat, max: nat, n: nat)
    requires 1 <= k <= n <= max
    requires forall j :: k <= j < n ==> t(j).None?
    requires n == max || t(n).Some?
    ensures EndsAt(t, k, max) == n
    decreases max - k
  {
    if k < n { EndsAtIs(t, k + 1, max, n); }
  }

  // ---------------------------------------------------------------- what every run looks like

  /** The events of a main step's tries are consecutive and numbered from one. */
  lemma {:induction false} AttemptsOfStep<V>(t: Tryout<V>, i: nat, n: nat)
    ensures var es := TriedUpTo(t, i, n);
      && |es| == n
      && forall k :: 0 <= k < n ==> es[k] == Tried(i, k + 1, t(k + 1).Some?)
  {
    if n > 0 { AttemptsOfStep(t, i, n - 1); }
  }

  /** A step is tried at least once and at most maxAttempts times; all tries but the last failed; and
      it is exhausted exactly when all maxAttempts of them failed. */
  lemma RetryMeaning<V>(t: Tryout<V>, i: nat, p: Policy)
    requires p.maxAttempts >= 1
    ensures var es := StepEvents(t, i, p); var n := |es|;
      && 1 <= n <= p.maxAttempts
      && (forall k :: 0 <= k < n - 1 ==> es[k] == Tried(i, k + 1, false))
      && es[n - 1] == Tried(i, n, !Exhausted(t, p))
      && (Exhausted(t, p) <==> forall k :: 1 <= k <= p.maxAttempts ==> t(k).None?)
      && (Exhausted(t, p) ==> n == p.maxAttempts)
  {
    AttemptsOfStep(t, i, Tries(t, p));
  }

  /** Without any try allowed a step does nothing and does not fail. */
  lemma NoTries<V>(t: Tryout<V>, i: nat, p: Policy, name: string, r: Results<V>)
    requires p.maxAttempts == 0
    ensures StepEvents(t, i, p) == [] && !Exhausted(t, p) && StepResults(t, name, p, r) == r
  {}

  predicate IsTryOf(steps: seq<Step>, cut: nat, e: Event) {
    e.Tried? && e.step < cut <= |steps| && !steps[e.step].onFailure
  }

  /** Every event of a joined trace lies in one piece. */
  lemma {:induction false} PieceOf(piece: nat -> seq<Event>, n: nat, a: nat) returns (i: nat, x: nat)
    requires a < |Joined(piece, n)|
    ensures i < n && x < |piece(i)| && a == |Joined(piece, i)| + x && Joined(piece, n)[a] == piece(i)[x]
  {
    var before := Joined(piece, n - 1);
    if a < |before| {
      i, x := PieceOf(piece, n - 1, a);
    } else {
      i, x := n - 1, a - |before|;
    }
  }

  lemma {:induction false} JoinedGrows(piece: nat -> seq<Event>, i: nat, n: nat)
    requires i <= n
    ensures Joined(piece, i) <= Joined(piece, n)
  {
    if i < n { JoinedGrows(piece, i, n - 1); }
  }

  /** ... and a later event in the same piece, further on, or in a later one. */
  lemma PiecesOf(piece: nat -> seq<Event>, n: nat, a: nat, b: nat) returns (i: nat, x: nat, j: nat, y: nat)
    requires a < b < |Joined(piece, n)|
    ensures i <= j < n && x < |piece(i)| && y < |piece(j)| && (i == j ==> x < y)
    ensures Joined(piece, n)[a] == piece(i)[x] && Joined(piece, n)[b] == piece(j)[y]
  {
    i, x := PieceOf(piece, n, a);
    j, y := PieceOf(piece, n, b);
    if j < i { JoinedGrows(piece, j + 1, i); }
  }

  lemma PieceInPlace(piece: nat -> seq<Event>, i: nat, n: nat)
    requires i < n
    ensures |Joined(piece, i)| <= |Joined(piece, i + 1)| <= |Joined(piece, n)|
    ensures Joined(piece, n)[|Joined(piece, i)|..|Joined(piece, i + 1)|] == piece(i)
  {
    JoinedGrows(piece, i + 1, n);
    assert Joined(piece, n)[..|Joined(piece, i + 1)|] == Joined(piece, i) + piece(i);
  }

  /** Events before `cut` are tries of main steps before it, never of a failure handler. */
  lemma MainIsTried<V>(w: World<V>, steps: seq<Step>, p: Policy, cut: nat, a: nat)
    requires cut <= |steps| && a < |MainEvents(w, steps, p, cut)|
    ensures IsTryOf(steps, cut, MainEvents(w, steps, p, cut)[a])
  {
    var i, x := PieceOf(MainPiece(w, steps, p), cut, a);
    StepIsTried(TryoutOf(w, steps, p, i), i, p, x);
  }

  predicate InOrder(x: Event, y: Event)
    requires x.Tried? && y.Tried?
  {
    x.step <= y.step && (x.step == y.step ==> x.attempt < y.attempt && !x.ok)
  }

  /** Main steps run in order, and within a step only the last try may have succeeded. */
  lemma MainIsOrdered<V>(w: World<V>, steps: seq<Step>, p: Policy, cut: nat, a: nat, b: nat)
    requires cut <= |steps| && a < b < |MainEvents(w, steps, p, cut)|
    ensures var es := MainEvents(w, steps, p, cut);
      es[a].Tried? && es[b].Tried? && InOrder(es[a], es[b])
  {
    var i, x, j, y := PiecesOf(MainPiece(w, steps, p), cut, a, b);
    StepIsTried(TryoutOf(w, steps, p, i), i, p, x);
    StepIsTried(TryoutOf(w, steps, p, j), j, p, y);
    if i == j { StepIsOrdered(TryoutOf(w, steps, p, i), i, p, x, y); }
  }

  lemma StepIsTried<V>(t: Tryout<V>, i: nat, p: Policy, a: nat)
    requires a < |StepEvents(t, i, p)|
    ensures StepEvents(t, i, p)[a].Tried? && StepEvents(t, i, p)[a].step == i
  {
    AttemptsOfStep(t, i, Tries(t, p));
  }

  lemma StepIsOrdered<V>(t: Tryout<V>, i: nat, p: Policy, a: nat, b: nat)
    requires a < b < |StepEvents(t, i, p)|
    ensures var es := StepEvents(t, i, p); es[a].Tried? && es[b].Tried? && InOrder(es[a], es[b])
  {
    AttemptsOfStep(t, i, Tries(t, p));
  }

  /** Every main step before `cut` contributes its own tries, in place, made against the results of
      the steps before it; a failure handler contributes nothing here. */
  lemma EveryStepIsTried<V>(w: World<V>, steps: seq<Step>, p: Policy, cut: nat, i: nat)
    requires i < cut <= |steps|
    ensures var main := MainEvents(w, steps, p, cut);
            var from, to := |MainEvents(w, steps, p, i)|, |MainEvents(w, steps, p, i + 1)|;
      && from <= to <= |main|
      && main[from..to] == if steps[i].onFailure then [] else StepEvents(TryoutOf(w, steps, p, i), i, p)
  {
    PieceInPlace(MainPiece(w, steps, p), i, cut);
  }

  /** How often the handler step i ran. */
  function Runs(es: seq<Event>, i: nat): nat {
    multiset(es)[Handled(i, true)] + multiset(es)[Handled(i, false)]
  }

  lemma NothingHandled(es: seq<Event>, i: nat)
    requires forall k :: 0 <= k < |es| ==> es[k].Tried?
    ensures Runs(es, i) == 0
  {
    assert Handled(i, true) !in es && Handled(i, false) !in es;
  }

  lemma RunsConcat(a: seq<Event>, b: seq<Event>, i: nat)
    ensures Runs(a + b, i) == Runs(a, i) + Runs(b, i)
  {}

  lemma {:induction false} RunsOfPieces(piece: nat -> seq<Event>, n: nat, i: nat, handler: bool)
    requires forall k :: 0 <= k < n ==> Runs(piece(k), i) == if handler && k == i then 1 else 0
    ensures Runs(Joined(piece, n), i) == if handler && i < n then 1 else 0
  {
    if n > 0 {
      RunsOfPieces(piece, n - 1, i, handler);
      RunsConcat(Joined(piece, n - 1), piece(n - 1), i);
    }
  }

  lemma HandlersOnce<V>(w: World<V>, steps: seq<Step>, n: nat, r: Results<V>, i: nat)
    requires n <= |steps|
    ensures Runs(HandlerEvents(w, steps, n, r), i) == if i < n && steps[i].onFailure then 1 else 0
  {
    RunsOfPieces(HandlerPiece(w, steps, r), n, i, i < |steps| && steps[i].onFailure);
  }

  lemma AllHandled<V>(w: World<V>, steps: seq<Step>, n: nat, r: Results<V>)
    requires n <= |steps|
    ensures forall a :: 0 <= a < |HandlerEvents(w, steps, n, r)| ==> HandlerEvents(w, steps, n, r)[a].Handled?
  {
    forall a | 0 <= a < |HandlerEvents(w, steps, n, r)| ensures HandlerEvents(w, steps, n, r)[a].Handled? {
      var i, x := PieceOf(HandlerPiece(w, steps, r), n, a);
    }
  }

  /** Main events followed by handler events, the latter only after a failure. */
  lemma TraceShape<V>(w: World<V>, steps: seq<Step>, p: Policy)
    ensures var cut, es := Cut(w, steps, p, 0), WorkflowTrace(w, steps, p);
      var n := |MainEvents(w, steps, p, cut)|;
      && n <= |es| && es[..n] == MainEvents(w, steps, p, cut)
      && (forall a :: 0 <= a < |es| ==> (es[a].Tried? <==> a < n))
  {
    var cut := Cut(w, steps, p, 0);
    var main := MainEvents(w, steps, p, cut);
    forall a | 0 <= a < |main| ensures main[a].Tried? { MainIsTried(w, steps, p, cut, a); }
    AllHandled(w, steps, |steps|, MainResults(w, steps, p, cut));
  }

  /** Over the whole run every failure handler runs exactly once if some executed main step was
      exhausted and not at all otherwise. */
  lemma HandlersRunOnceIffFailed<V>(w: World<V>, steps: seq<Step>, p: Policy, i: nat)
    ensures Runs(WorkflowTrace(w, steps, p), i)
         == if AnyFails(w, steps, p, Cut(w, steps, p, 0)) && i < |steps| && steps[i].onFailure then 1 else 0
  {
    var cut := Cut(w, steps, p, 0);
    var main := MainEvents(w, steps, p, cut);
    forall a | 0 <= a < |main| ensures main[a].Tried? { MainIsTried(w, steps, p, cut, a); }
    NothingHandled(main, i);
    if AnyFails(w, steps, p, cut) {
      var r := MainResults(w, steps, p, cut);
      HandlersOnce(w, steps, |steps|, r, i);
    }
  }

  /** Without abort every main step runs; with it, the run is cut right after its first exhausted
      step, which is then the only one. */
  lemma AbortCutsAtFirstFailure<V>(w: World<V>, steps: seq<Step>, p: Policy)
    ensures var cut := Cut(w, steps, p, 0);
      && (!p.abortOnFailure ==> cut == |steps|)
      && (p.abortOnFailure && AnyFails(w, steps, p, |steps|) ==>
            cut > 0 && Fails(w, steps, p, cut - 1) && forall i :: 0 <= i < cut - 1 ==> !Fails(w, steps, p, i))
      && (p.abortOnFailure && !AnyFails(w, steps, p, |steps|) ==> cut == |steps|)
      && (AnyFails(w, steps, p, cut) <==> AnyFails(w, steps, p, |steps|))
  {
    var cut := Cut(w, steps, p, 0);
    if i :| 0 <= i < |steps| && Fails(w, steps, p, i) {
      if cut == |steps| { assert Fails(w, steps, p, i); } else { assert Fails(w, steps, p, cut - 1); }
    }
  }

  // ---------------------------------------------------------------- what the results hold

  /** Main step j is the last before `cut` with this name; -1 when there is none. */
  ghost predicate LastMain(steps: seq<Step>, cut: nat, name: string, j: int)
    requires cut <= |steps|
  {
    && -1 <= j < cut
    && (j >= 0 ==> steps[j].name == name && !steps[j].onFailure)
    && forall i :: j < i < cut ==> steps[i].name != name || steps[i].onFailure
  }

  /** After the main loop a name holds the outcome of the last try of the last step of that name, made
      against the results before it; a name no main step has is absent. */
  lemma {:induction false} MainValue<V>(w: World<V>, steps: seq<Step>, p: Policy, cut: nat, name: string)
      returns (j: int)
    requires cut <= |steps| && p.maxAttempts >= 1
    ensures LastMain(steps, cut, name, j)
    ensures j < 0 <==> name !in MainResults(w, steps, p, cut)
    ensures j >= 0 ==>
      var tries := |StepEvents(TryoutOf(w, steps, p, j), j, p)|;
      tries >= 1 && MainResults(w, steps, p, cut)[name] == w.attempt(j, tries, MainResults(w, steps, p, j))
  {
    j := -1;
    if cut > 0 {
      var step := steps[cut - 1];
      if step.name == name && !step.onFailure {
        j := cut - 1;
        AttemptsOfStep(TryoutOf(w, steps, p, j), j, Tries(TryoutOf(w, steps, p, j), p));
      } else {
        j := MainValue(w, steps, p, cut - 1, name);
      }
    }
  }

  /** Handler j is the last before n with this name that succeeded; -1 when there is none. */
  ghost predicate LastHandler<V>(w: World<V>, steps: seq<Step>, n: nat, r: Results<V>, name: string, j: int)
    requires n <= |steps|
  {
    && -1 <= j < n
    && (j >= 0 ==> steps[j].name == name && steps[j].onFailure && w.handler(j, HandlerResults(w, steps, j, r)).Some?)
    && forall i :: j < i < n && steps[i].name == name && steps[i].onFailure ==>
         w.handler(i, HandlerResults(w, steps, i, r)).None?
  }

  /** A handler that succeeds overwrites the value of its name; one that fails leaves it. */
  lemma {:induction false} HandlerValue<V>(w: World<V>, steps: seq<Step>, n: nat, r: Results<V>, name: string)
      returns (j: int)
    requires n <= |steps|
    ensures LastHandler(w, steps, n, r, name, j)
    ensures var r' := HandlerResults(w, steps, n, r);
      if j < 0 then (name in r' <==> name in r) && (name in r ==> r'[name] == r[name])
      else name in r' && r'[name] == w.handler(j, HandlerResults(w, steps, j, r))
  {
    j := -1;
    if n > 0 {
      var step := steps[n - 1];
      if step.name == name && step.onFailure && w.handler(n - 1, HandlerResults(w, steps, n - 1, r)).Some? {
        j := n - 1;
      } else {
        j := HandlerValue(w, steps, n - 1, r, name);
      }
    }
  }

  /** At the end of a run each name holds what the last successful handler of that name returned, where
      handlers ran, and otherwise the outcome of the last try of the last main step of that name. */
  lemma FinalValue<V>(w: World<V>, steps: seq<Step>, p: Policy, name: string) returns (j: int, k: int)
    requires p.maxAttempts >= 1
    ensures var cut := Cut(w, steps, p, 0);
            var main, final := MainResults(w, steps, p, cut), FinalResults(w, steps, p);
      && LastMain(steps, cut, name, j)
      && (AnyFails(w, steps, p, cut) ==> LastHandler(w, steps, |steps|, main, name, k))
      && (!AnyFails(w, steps, p, cut) ==> k == -1)
      && (k >= 0 ==> name in final && final[name] == w.handler(k, HandlerResults(w, steps, k, main)))
      && (k < 0 && j < 0 ==> name !in final)
      && (k < 0 && j >= 0 ==>
            var tries := |StepEvents(TryoutOf(w, steps, p, j), j, p)|;
            tries >= 1 && name in final && final[name] == w.attempt(j, tries, MainResults(w, steps, p, j)))
  {
    var cut := Cut(w, steps, p, 0);
    j := MainValue(w, steps, p, cut, name);
    k := -1;
    if AnyFails(w, steps, p, cut) { k := HandlerValue(w, steps, |steps|, MainResults(w, steps, p, cut), name); }
  }
}
