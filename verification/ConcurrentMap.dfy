/** The fan-out that everything else is built on: one goroutine per input, whose appends to the shared
    outputs and defers are one critical section, and a wait that ends before the errors are joined. */
module ConcurrentMap {
  import opened Options

  /** What the callback does for one input: functions it defers, in this order, its output and error. */
  datatype Call<O, D, E> = Call(output: O, deferred: seq<D>, error: Option<E>)

  datatype State<O, D, E> = State(
    steps: seq<nat>,               // how far each goroutine is
    local: seq<seq<D>>,            // localDefers
    order: seq<nat>,               // the goroutines that have called wg.Done
    outputs: seq<O>,
    defers: seq<seq<D>>,
    errs: seq<E>)

  function Start<O, D, E>(calls: seq<Call<O, D, E>>): State<O, D, E> {
    State(seq(|calls|, _ => 0), seq(|calls|, _ => []), [], [], [], [])
  }

  predicate Shaped<O, D, E>(calls: seq<Call<O, D, E>>, s: State<O, D, E>) { |s.steps| == |s.local| == |calls| }

  function Errors<E>(e: Option<E>): seq<E> { if e.Some? then [e.value] else [] }

  /** The next step of goroutine `i`: it registers a function, hands in its output together with its
      defers, or joins its error, and then ends. */
  function Step<O, D, E>(calls: seq<Call<O, D, E>>, s: State<O, D, E>, i: nat): (t: State<O, D, E>)
    requires Shaped(calls, s) && i < |calls|
    ensures Shaped(calls, t)
  {
    var c, k := calls[i], s.steps[i];
    if k < |c.deferred| then
      s.(steps := s.steps[i := k + 1], local := s.local[i := s.local[i] + [c.deferred[k]]])
    else if k == |c.deferred| then
      s.(steps := s.steps[i := k + 1], order := s.order + [i], outputs := s.outputs + [c.output], defers := s.defers + [s.local[i]])
    else if k == |c.deferred| + 1 then
      s.(steps := s.steps[i := k + 1], errs := s.errs + Errors(c.error))
    else s
  }

  predicate Schedules<O, D, E>(calls: seq<Call<O, D, E>>, schedule: seq<nat>) {
    forall k :: 0 <= k < |schedule| ==> schedule[k] < |calls|
  }

  function Run<O, D, E>(calls: seq<Call<O, D, E>>, schedule: seq<nat>): (s: State<O, D, E>)
    requires Schedules(calls, schedule)
    ensures Shaped(calls, s)
  {
    if schedule == [] then Start(calls)
    else Step(calls, Run(calls, schedule[..|schedule| - 1]), schedule[|schedule| - 1])
  }

  /** wg.Wait may return. */
  ghost predicate Returns<O, D, E>(calls: seq<Call<O, D, E>>, s: State<O, D, E>)
    requires Shaped(calls, s)
  {
    forall i :: 0 <= i < |calls| ==> s.steps[i] > |calls[i].deferred|
  }

  ghost predicate Distinct(order: seq<nat>, n: nat) {
    && (forall k :: 0 <= k < |order| ==> order[k] < n)
    && (forall j, k :: 0 <= j < k < |order| ==> order[j] != order[k])
  }

  /** The outputs and the groups of defers stand in the same order, each group complete and in the
      order of registration. */
  ghost predicate Aligned<O, D, E>(calls: seq<Call<O, D, E>>, order: seq<nat>, outputs: seq<O>, defers: seq<seq<D>>) {
    && |outputs| == |defers| == |order| && Distinct(order, |calls|)
    && forall k :: 0 <= k < |order| ==> outputs[k] == calls[order[k]].output && defers[k] == calls[order[k]].deferred
  }

  ghost predicate Ok<O, D, E>(calls: seq<Call<O, D, E>>, s: State<O, D, E>) {
    && Shaped(calls, s)
    && Aligned(calls, s.order, s.outputs, s.defers)
    && (forall i :: 0 <= i < |calls| ==> (i in s.order <==> s.steps[i] > |calls[i].deferred|))
    && (forall i :: 0 <= i < |calls| && s.steps[i] <= |calls[i].deferred| ==> s.local[i] == calls[i].deferred[..s.steps[i]])
  }

  lemma {:induction false} StepOk<O, D, E>(calls: seq<Call<O, D, E>>, s: State<O, D, E>, i: nat)
    requires Ok(calls, s) && i < |calls|
    ensures Ok(calls, Step(calls, s, i))
  {
    var c, k, t := calls[i], s.steps[i], Step(calls, s, i);
    if k < |c.deferred| {
      assert c.deferred[..k + 1] == c.deferred[..k] + [c.deferred[k]];
    } else if k == |c.deferred| {
      assert c.deferred[..k] == c.deferred;
      forall j | 0 <= j < |calls| ensures j in t.order <==> t.steps[j] > |calls[j].deferred| {
        assert j in t.order <==> j in s.order || j == i;
      }
    }
  }

  lemma {:induction false} RunOk<O, D, E>(calls: seq<Call<O, D, E>>, schedule: seq<nat>)
    requires Schedules(calls, schedule)
    ensures Ok(calls, Run(calls, schedule))
  {
    if schedule != [] {
      RunOk(calls, schedule[..|schedule| - 1]);
      StepOk(calls, Run(calls, schedule[..|schedule| - 1]), schedule[|schedule| - 1]);
    }
  }

  /* --------------------------------------------------- outputs and defers */

  function OutputsOf<O, D, E>(calls: seq<Call<O, D, E>>): (r: seq<O>)
    ensures |r| == |calls| && forall i :: 0 <= i < |r| ==> r[i] == calls[i].output
  {
    seq(|calls|, i requires 0 <= i < |calls| => calls[i].output)
  }

  function Upto(n: nat): (r: seq<nat>)
    ensures |r| == n && forall i :: 0 <= i < n ==> r[i] == i
  {
    seq(n, i => i)
  }

  ghost predicate Indices(s: seq<nat>, n: nat) { forall k :: 0 <= k < |s| ==> s[k] < n }

  ghost function Pick<T>(order: seq<nat>, values: seq<T>): (r: seq<T>)
    requires Indices(order, |values|)
    ensures |r| == |order| && forall k :: 0 <= k < |r| ==> r[k] == values[order[k]]
  {
    seq(|order|, k requires 0 <= k < |order| => values[order[k]])
  }

  function Drop<T>(s: seq<T>, k: nat): (r: seq<T>)
    requires k < |s|
    ensures |r| == |s| - 1 && forall j :: 0 <= j < |r| ==> r[j] == s[if j < k then j else j + 1]
  {
    s[..k] + s[k + 1..]
  }

  lemma {:induction false} Without<T>(s: seq<T>, k: nat)
    requires k < |s|
    ensures multiset(s) == multiset(Drop(s, k)) + multiset{s[k]}
  {
    assert s == s[..k] + ([s[k]] + s[k + 1..]);
  }

  lemma {:induction false} PickWithout<T>(s: seq<nat>, k: nat, values: seq<T>)
    requires k < |s| && Indices(s, |values|)
    ensures multiset(Pick(s, values)) == multiset(Pick(Drop(s, k), values)) + multiset{values[s[k]]}
  {
    Without(Pick(s, values), k);
    assert Drop(Pick(s, values), k) == Pick(Drop(s, k), values);
  }

  /** Two sequences with the same indices pick the same values. */
  lemma {:induction false} PickPermutes<T>(a: seq<nat>, b: seq<nat>, values: seq<T>)
    requires multiset(a) == multiset(b)
    requires Indices(a, |values|) && Indices(b, |values|)
    ensures multiset(Pick(a, values)) == multiset(Pick(b, values))
    decreases |a|
  {
    hide Pick, Drop;
    assert |a| == |multiset(a)| == |multiset(b)| == |b|;
    if a != [] {
      var k := Find(b, a[0]) by { assert a[0] in multiset(a); }
      Without(a, 0);
      Without(b, k);
      PickWithout(a, 0, values);
      PickWithout(b, k, values);
      assert multiset(Drop(a, 0)) == multiset(a) - multiset{a[0]};
      assert multiset(Drop(b, k)) == multiset(b) - multiset{a[0]};
      PickPermutes(Drop(a, 0), Drop(b, k), values);
    } else {
      assert b == [];
    }
  }

  lemma {:induction false} Find(b: seq<nat>, x: nat) returns (k: nat)
    requires x in multiset(b)
    ensures k < |b| && b[k] == x
  {
    k :| k < |b| && b[k] == x;
  }

  lemma {:induction false} FullOrder(order: seq<nat>, n: nat)
    requires Distinct(order, n) && forall i :: 0 <= i < n ==> i in order
    ensures multiset(order) == multiset(Upto(n)) && |order| == n
  {
    forall i ensures multiset(order)[i] == multiset(Upto(n))[i] {
      if 0 <= i < n {
        CountDistinct(order, n, i);
        CountDistinct(Upto(n), n, i);
        assert Upto(n)[i] == i;
      } else {
        assert i !in order && i !in Upto(n);
      }
    }
    assert multiset(order) == multiset(Upto(n));
    assert |order| == |multiset(order)| == |multiset(Upto(n))| == |Upto(n)|;
  }

  lemma {:induction false} CountDistinct(order: seq<nat>, n: nat, i: nat)
    requires Distinct(order, n)
    ensures multiset(order)[i] == if i in order then 1 else 0
  {
    if order != [] {
      assert order == [order[0]] + order[1..];
      CountDistinct(order[1..], n, i);
      assert forall k :: 0 <= k < |order[1..]| ==> order[1..][k] == order[k + 1];
    }
  }

  /** Under every schedule, when the wait returns: the outputs are a permutation of the outputs of the
      inputs, and there is one group of defers per input, beside its output. */
  lemma {:induction false} ReturnsPermutation<O, D, E>(calls: seq<Call<O, D, E>>, schedule: seq<nat>)
    requires Schedules(calls, schedule) && Returns(calls, Run(calls, schedule))
    ensures var s := Run(calls, schedule);
      && Aligned(calls, s.order, s.outputs, s.defers) && |s.defers| == |calls|
      && multiset(s.outputs) == multiset(OutputsOf(calls))
  {
    var s := Run(calls, schedule);
    RunOk(calls, schedule);
    FullOrder(s.order, |calls|);
    PickPermutes(s.order, Upto(|calls|), OutputsOf(calls));
    assert s.outputs == Pick(s.order, OutputsOf(calls));
    assert OutputsOf(calls) == Pick(Upto(|calls|), OutputsOf(calls));
  }

  /* --------------------------------------------------------------- errors */

  /** What a goroutine has joined after `k` steps. */
  function Share<O, D, E>(c: Call<O, D, E>, k: nat): multiset<E> {
    if k > |c.deferred| + 1 then multiset(Errors(c.error)) else multiset{}
  }

  /** The errors of the goroutines that came past their last step. */
  function Joined<O, D, E>(calls: seq<Call<O, D, E>>, steps: seq<nat>): multiset<E>
    requires |steps| == |calls|
  {
    if calls == [] then multiset{}
    else Joined(calls[..|calls| - 1], steps[..|calls| - 1]) + Share(calls[|calls| - 1], steps[|calls| - 1])
  }

  lemma {:induction false} JoinedAfter<O, D, E>(calls: seq<Call<O, D, E>>, steps: seq<nat>, i: nat)
    requires |steps| == |calls| && i < |calls| && Share(calls[i], steps[i]) == multiset{}
    ensures Joined(calls, steps[i := steps[i] + 1]) == Joined(calls, steps) + Share(calls[i], steps[i] + 1)
  {
    hide Share;
    var n := |calls| - 1;
    var after := steps[i := steps[i] + 1];
    if i == n {
      assert after[..n] == steps[..n];
    } else {
      JoinedAfter(calls[..n], steps[..n], i);
      assert after[..n] == steps[..n][i := steps[i] + 1] && after[n] == steps[n];
    }
  }

  lemma {:induction false} NothingJoined<O, D, E>(calls: seq<Call<O, D, E>>, steps: seq<nat>)
    requires |steps| == |calls| && forall i :: 0 <= i < |calls| ==> steps[i] <= |calls[i].deferred| + 1
    ensures Joined(calls, steps) == multiset{}
  {
    if calls != [] { NothingJoined(calls[..|calls| - 1], steps[..|calls| - 1]); }
  }

  lemma {:induction false} StepErrors<O, D, E>(calls: seq<Call<O, D, E>>, s: State<O, D, E>, i: nat)
    requires Shaped(calls, s) && i < |calls|
    ensures var t := Step(calls, s, i);
      if s.steps[i] <= |calls[i].deferred| + 1 then
        t.steps == s.steps[i := s.steps[i] + 1] && Share(calls[i], s.steps[i]) == multiset{}
        && multiset(t.errs) == multiset(s.errs) + Share(calls[i], s.steps[i] + 1)
      else t == s
  {
  }

  /** The errors are exactly those of the goroutines that had time to join theirs. */
  lemma {:induction false} ErrorsExactly<O, D, E>(calls: seq<Call<O, D, E>>, schedule: seq<nat>)
    requires Schedules(calls, schedule)
    ensures multiset(Run(calls, schedule).errs) == Joined(calls, Run(calls, schedule).steps)
  {
    hide Step, Share, Joined;
    if schedule == [] {
      NothingJoined(calls, Start(calls).steps);
    } else {
      var s, i := Run(calls, schedule[..|schedule| - 1]), schedule[|schedule| - 1];
      ErrorsExactly(calls, schedule[..|schedule| - 1]);
      StepErrors(calls, s, i);
      if s.steps[i] <= |calls[i].deferred| + 1 { JoinedAfter(calls, s.steps, i); }
    }
  }

  /** Goroutine by goroutine, up to the call of wg.Done. */
  function UpToDone<O, D, E>(calls: seq<Call<O, D, E>>, n: nat): (r: seq<nat>)
    requires n <= |calls|
    ensures Schedules(calls, r)
  {
    if n == 0 then [] else UpToDone(calls, n - 1) + seq(|calls[n - 1].deferred| + 1, _ => n - 1)
  }

  lemma {:induction false} RunOne<O, D, E>(calls: seq<Call<O, D, E>>, schedule: seq<nat>, i: nat, k: nat)
    requires Schedules(calls, schedule) && i < |calls| && k <= |calls[i].deferred| + 1
    requires Run(calls, schedule).steps[i] == 0
    ensures Schedules(calls, schedule + seq(k, _ => i))
    ensures var s, t := Run(calls, schedule), Run(calls, schedule + seq(k, _ => i)); t.steps == s.steps[i := k] && t.errs == s.errs
  {
    var s := Run(calls, schedule);
    if k == 0 {
      assert schedule + seq(k, _ => i) == schedule;
    } else {
      RunOne(calls, schedule, i, k - 1);
      var longer := schedule + seq(k, _ => i);
      assert longer[..|longer| - 1] == schedule + seq(k - 1, _ => i);
    }
  }

  lemma {:induction false} UpToDoneRuns<O, D, E>(calls: seq<Call<O, D, E>>, n: nat)
    requires n <= |calls|
    ensures var s := Run(calls, UpToDone(calls, n));
      && s.errs == []
      && forall i :: 0 <= i < |calls| ==> s.steps[i] == if i < n then |calls[i].deferred| + 1 else 0
  {
    if n > 0 {
      UpToDoneRuns(calls, n - 1);
      RunOne(calls, UpToDone(calls, n - 1), n - 1, |calls[n - 1].deferred| + 1);
    }
  }

  /** The wait ends before the errors are joined, so whatever fails, some schedule reports no error. */
  lemma {:induction false} AllErrorsCanBeMissed<O, D, E>(calls: seq<Call<O, D, E>>) returns (schedule: seq<nat>)
    ensures Schedules(calls, schedule) && Returns(calls, Run(calls, schedule)) && Run(calls, schedule).errs == []
  {
    schedule := UpToDone(calls, |calls|);
    UpToDoneRuns(calls, |calls|);
  }

  /* ----------------------------------------------------------- the program */

  /** How far a schedule takes a goroutine: a step each time it is its turn, up to its end. */
  lemma {:induction false} StepsTaken<O, D, E>(calls: seq<Call<O, D, E>>, schedule: seq<nat>, i: nat)
    requires Schedules(calls, schedule) && i < |calls|
    ensures Run(calls, schedule).steps[i]
         == if multiset(schedule)[i] < |calls[i].deferred| + 2 then multiset(schedule)[i] else |calls[i].deferred| + 2
  {
    if schedule != [] {
      var n := |schedule| - 1;
      StepsTaken(calls, schedule[..n], i);
      assert schedule == schedule[..n] + [schedule[n]];
    }
  }

  /** So it is one after which the wait may return if each goroutine has its turn once for each function
      it defers, and once more. */
  lemma {:induction false} ReturnsExactly<O, D, E>(calls: seq<Call<O, D, E>>, schedule: seq<nat>)
    requires Schedules(calls, schedule)
    ensures Returns(calls, Run(calls, schedule)) <==> forall i :: 0 <= i < |calls| ==> multiset(schedule)[i] > |calls[i].deferred|
  {
    forall i: nat | i < |calls| ensures Run(calls, schedule).steps[i] > |calls[i].deferred| <==> multiset(schedule)[i] > |calls[i].deferred| {
      StepsTaken(calls, schedule, i);
    }
  }

  /** `calls` is what the callback does for each input, and `schedule` which goroutine runs next. The waiter
      returns some time after the last wg.Done, while errors may still be joined. */
  method ConcurrentMap<O, D, E>(calls: seq<Call<O, D, E>>, schedule: seq<nat>) returns (outputs: seq<O>, defers: seq<seq<D>>, errs: seq<E>)
    requires Schedules(calls, schedule) && forall i :: 0 <= i < |calls| ==> multiset(schedule)[i] > |calls[i].deferred|
    ensures var s := Run(calls, schedule); outputs == s.outputs && defers == s.defers && errs == s.errs
    ensures |defers| == |calls| && multiset(outputs) == multiset(OutputsOf(calls))
    ensures exists order: seq<nat> :: Aligned(calls, order, outputs, defers)
    ensures multiset(errs) == Joined(calls, Run(calls, schedule).steps)
  {
    var steps: seq<nat> := seq(|calls|, _ => 0);
    var local: seq<seq<D>> := seq(|calls|, _ => []);
    ghost var order: seq<nat> := [];
    outputs, defers, errs := [], [], [];
    for k := 0 to |schedule|
      invariant Run(calls, schedule[..k]) == State(steps, local, order, outputs, defers, errs)
    {
      assert schedule[..k + 1][..k] == schedule[..k];
      var i := schedule[k];
      if steps[i] < |calls[i].deferred| {
        local := local[i := local[i] + [calls[i].deferred[steps[i]]]];
      } else if steps[i] == |calls[i].deferred| {
        outputs := outputs + [calls[i].output];
        defers := defers + [local[i]];
        order := order + [i];
      } else if steps[i] == |calls[i].deferred| + 1 && calls[i].error.Some? {
        errs := errs + [calls[i].error.value];
      }
      if steps[i] < |calls[i].deferred| + 2 {
        steps := steps[i := steps[i] + 1];
      }
    }
    assert schedule[..|schedule|] == schedule;
    ReturnsExactly(calls, schedule);
    ReturnsPermutation(calls, schedule);
    ErrorsExactly(calls, schedule);
  }
}
