/** An uninterrupted sweep of the timeout checker is the atomic tick. */
module InterleavingSweep {
  import opened Json
  import opened Seqs
  import opened Cdc
  import opened Interleaving

  /** The rest of a sweep over `n` customers: pop and write each, then stop. */
  function SweepActions(t: nat, n: nat): seq<Action> {
    if n == 0 then [SweepEnd(t)] else [SweepPop(t), TimeoutPut(t)] + SweepActions(t, n - 1)
  }

  predicate Ends(s: Sys, actions: seq<Action>, s': Sys) {
    Exec(s, actions) == Some(s')
  }

  lemma EndsAfter(s: Sys, a: Action, rest: seq<Action>, s1: Sys, s': Sys)
    requires Do(s, a) == Some(s1) && Ends(s1, rest, s')
    ensures Ends(s, [a] + rest, s')
  {
    assert ([a] + rest)[1..] == rest;
  }

  lemma EndsAfterTwo(s: Sys, a: Action, b: Action, rest: seq<Action>, s1: Sys, s2: Sys, s': Sys)
    requires Do(s, a) == Some(s1) && Do(s1, b) == Some(s2) && Ends(s2, rest, s')
    ensures Ends(s, [a, b] + rest, s')
  {
    EndsAfter(s1, b, rest, s2, s');
    EndsAfter(s, a, [b] + rest, s1, s');
    assert [a] + ([b] + rest) == [a, b] + rest;
  }

  lemma PopEntry(s: Sys, t: nat, todo: seq<string>, now: int) returns (s1: Sys)
    requires t in s.tasks && s.tasks[t] == Sweeping(todo, now) && todo != [] && todo[0] in s.pending
    ensures Do(s, SweepPop(t)) == Some(s1)
    ensures var entry := s.pending[todo[0]];
            && s1.pending == s.pending - {todo[0]} && s1.cache == s.cache
            && s1.tasks == s.tasks[t := TimingOut(todo[0], entry.corr, TimeoutBody(entry.pa.domains, now), todo[1..], now)]
  {
    s1 := Do(s, SweepPop(t)).value;
  }

  lemma WriteEntry(s: Sys, t: nat, cid: string, corr: nat, body: Dict, todo: seq<string>, now: int) returns (s1: Sys)
    requires t in s.tasks && s.tasks[t] == TimingOut(cid, corr, body, todo, now)
    ensures Do(s, TimeoutPut(t)) == Some(s1)
    ensures s1.pending == s.pending && s1.cache == PutAt(s, cid, body).cache && s1.tasks == s.tasks[t := Sweeping(todo, now)]
  {
    PutFrame(s, cid, body);
    s1 := Do(s, TimeoutPut(t)).value;
  }

  /** The views after a sweep of `todo`. */
  ghost predicate Swept(s: Sys, s': Sys, todo: seq<string>, now: int) {
    forall c :: ViewAt(s', c) == if c in todo then OnTick(ViewAt(s, c), now) else ViewAt(s, c)
  }

  /** One customer of the sweep: popped and written. */
  lemma SweepRound(s: Sys, t: nat, todo: seq<string>, now: int) returns (s1: Sys, s2: Sys)
    requires t in s.tasks && s.tasks[t] == Sweeping(todo, now) && todo != [] && todo[0] in s.pending
    requires now >= s.pending[todo[0]].pa.timeoutAt
    ensures Do(s, SweepPop(t)) == Some(s1) && Do(s1, TimeoutPut(t)) == Some(s2)
    ensures s2.pending == s.pending - {todo[0]} && s2.tasks == s.tasks[t := Sweeping(todo[1..], now)]
    ensures Swept(s, s2, [todo[0]], now)
  {
    var cid, entry := todo[0], s.pending[todo[0]];
    var body := TimeoutBody(entry.pa.domains, now);
    s1 := PopEntry(s, t, todo, now);
    s2 := WriteEntry(s1, t, cid, entry.corr, body, todo[1..], now);
    assert TiersAt(s1, cid) == TiersAt(s, cid);
    forall c
      ensures ViewAt(s2, c) == if c == cid then OnTick(ViewAt(s, c), now) else ViewAt(s, c)
    {
      PutView(s1, cid, body, c);
      assert TiersAt(s2, c) == TiersAt(PutAt(s1, cid, body), c);
    }
  }

  lemma SweptFurther(s: Sys, s1: Sys, s2: Sys, todo: seq<string>, now: int)
    requires todo != [] && NoDuplicates(todo) && Swept(s, s1, [todo[0]], now) && Swept(s1, s2, todo[1..], now)
    ensures Swept(s, s2, todo, now)
  {
    assert todo == [todo[0]] + todo[1..];
  }

  lemma SweepDone(s: Sys, t: nat, now: int)
    requires t in s.tasks && s.tasks[t] == Sweeping([], now)
    ensures Ends(s, SweepActions(t, 0), Finish(s, t)) && Swept(s, Finish(s, t), [], now)
  {
    assert Do(s, SweepEnd(t)) == Some(Finish(s, t));
    EndsAfter(s, SweepEnd(t), [], Finish(s, t), Finish(s, t));
    assert [SweepEnd(t)] + [] == [SweepEnd(t)];
  }

  /** The rest of the sweep goes through, clears the handler and takes the customers through the tick. */
  ghost predicate Completes(s: Sys, t: nat, todo: seq<string>, now: int, s': Sys) {
    Ends(s, SweepActions(t, |todo|), s') && s'.tasks == s.tasks - {t} && Swept(s, s', todo, now)
  }

  ghost predicate Starts(s: Sys, t: nat, todo: seq<string>, now: int) {
    && t in s.tasks && s.tasks[t] == Sweeping(todo, now) && NoDuplicates(todo)
    && forall x :: x in todo ==> x in s.pending && now >= s.pending[x].pa.timeoutAt
  }

  lemma CompletesFurther(s: Sys, t: nat, todo: seq<string>, now: int, s1: Sys, s2: Sys, s': Sys)
    requires todo != [] && NoDuplicates(todo)
    requires Do(s, SweepPop(t)) == Some(s1) && Do(s1, TimeoutPut(t)) == Some(s2)
    requires s2.tasks == s.tasks[t := Sweeping(todo[1..], now)] && Swept(s, s2, [todo[0]], now)
    requires Completes(s2, t, todo[1..], now, s')
    ensures Completes(s, t, todo, now, s')
  {
    EndsAfterTwo(s, SweepPop(t), TimeoutPut(t), SweepActions(t, |todo| - 1), s1, s2, s');
    SweptFurther(s, s2, s', todo, now);
    SameWithout(s.tasks, s2.tasks, t);
  }

  lemma NextRound(s: Sys, t: nat, todo: seq<string>, now: int) returns (s2: Sys)
    requires Starts(s, t, todo, now) && todo != []
    ensures Starts(s2, t, todo[1..], now)
    ensures forall s' :: Completes(s2, t, todo[1..], now, s') ==> Completes(s, t, todo, now, s')
  {
    var s1;
    s1, s2 := SweepRound(s, t, todo, now);
    StillExpired(s, s2, todo, now);
    forall s' | Completes(s2, t, todo[1..], now, s')
      ensures Completes(s, t, todo, now, s')
    {
      CompletesFurther(s, t, todo, now, s1, s2, s');
    }
  }

  lemma {:induction false} SweepRest(s: Sys, t: nat, todo: seq<string>, now: int) returns (s': Sys)
    requires Starts(s, t, todo, now)
    ensures Completes(s, t, todo, now, s')
    decreases |todo|
  {
    if todo == [] {
      SweepDone(s, t, now);
      s' := Finish(s, t);
    } else {
      var s2 := NextRound(s, t, todo, now);
      s' := SweepRest(s2, t, todo[1..], now);
    }
  }

  lemma SameWithout(tasks: map<nat, Task>, others: map<nat, Task>, t: nat)
    requires t in others && others == tasks[t := others[t]]
    ensures others - {t} == tasks - {t}
  {
  }

  lemma StillExpired(s: Sys, s2: Sys, todo: seq<string>, now: int)
    requires todo != [] && NoDuplicates(todo) && s2.pending == s.pending - {todo[0]}
    requires forall x :: x in todo ==> x in s.pending && now >= s.pending[x].pa.timeoutAt
    ensures NoDuplicates(todo[1..])
    ensures forall x :: x in todo[1..] ==> x in s2.pending && now >= s2.pending[x].pa.timeoutAt
  {
  }

  /**
   * A sweep that finds exactly the expired customers, in whatever order, and runs to its end with nothing in between,
   * takes every customer through the atomic tick and leaves the other handlers as they were.
   */
  lemma UninterruptedSweepIsTick(s: Sys, t: nat, todo: seq<string>, now: int)
    requires t !in s.tasks && NoDuplicates(todo)
    requires forall x :: x in todo <==> x in s.pending && now >= s.pending[x].pa.timeoutAt
    ensures Exec(s, [SweepStart(t, todo, now)] + SweepActions(t, |todo|)).Some?
    ensures var s' := Exec(s, [SweepStart(t, todo, now)] + SweepActions(t, |todo|)).value;
            s'.tasks == s.tasks && forall c :: ViewAt(s', c) == OnTick(ViewAt(s, c), now)
  {
    var started := s.(tasks := s.tasks[t := Sweeping(todo, now)]);
    assert Do(s, SweepStart(t, todo, now)) == Some(started);
    var s' := SweepRest(started, t, todo, now);
    EndsAfter(s, SweepStart(t, todo, now), SweepActions(t, |todo|), started, s');
    assert started.tasks - {t} == s.tasks;
    ExpiredOnly(s, started, s', todo, now);
  }

  lemma ExpiredOnly(s: Sys, started: Sys, s': Sys, todo: seq<string>, now: int)
    requires started.pending == s.pending && started.cache == s.cache && Swept(started, s', todo, now)
    requires forall x :: x in todo <==> x in s.pending && now >= s.pending[x].pa.timeoutAt
    ensures forall c :: ViewAt(s', c) == OnTick(ViewAt(s, c), now)
  {
    forall c
      ensures ViewAt(started, c) == ViewAt(s, c)
      ensures c !in todo ==> OnTick(ViewAt(s, c), now) == ViewAt(s, c)
    {
    }
  }
}
