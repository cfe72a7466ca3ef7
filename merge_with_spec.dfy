/** `merge_with_t::subscribe` as a fixed script over the merge strategies:
    `on_subscribe`, then `on_next` for the original observable and for each
    extra observable in tuple order, then the outer `on_completed`. Each source
    may emit synchronously inside its own `subscribe`; those emissions are part
    of the script, in place. */
module MergeWithSpec {
  import opened Rx
  import opened MergeSpec

  /** How a source's synchronous emission ends inside its `subscribe` call. */
  datatype End = Completes | Fails(error: ErrorToken) | Open

  /** What one source emits synchronously while it is being subscribed. */
  datatype Emission<T> = Emission(values: seq<T>, end: End)

  function Nexts<T>(src: SourceId, vs: seq<T>): seq<Action<T>>
    decreases |vs|
  {
    if vs == [] then [] else Nexts(src, vs[..|vs| - 1]) + [InnerNext(src, vs[|vs| - 1])]
  }

  function Ons<T>(vs: seq<T>): seq<Event<T>>
    decreases |vs|
  {
    if vs == [] then [] else Ons(vs[..|vs| - 1]) + [OnNext(vs[|vs| - 1])]
  }

  function Ending<T>(src: SourceId, end: End): seq<Action<T>>
  {
    match end
    case Completes => [InnerCompleted(src)]
    case Fails(e) => [InnerError(src, e)]
    case Open => []
  }

  /** One turn of the subscribe loop: `on_next` counts source n, which is then
      subscribed and emits synchronously. */
  function Turn<T>(n: SourceId, e: Emission<T>): seq<Action<T>>
  {
    [ScriptNext] + Nexts(n, e.values) + Ending(n, e.end)
  }

  /** `on_subscribe`, then the subscribe loop: the k-th observable (k = 1 for the
      original, then the extras in tuple order) is counted and subscribed as source k. */
  function Script<T>(sources: seq<Emission<T>>): seq<Action<T>>
    decreases |sources|
  {
    if sources == [] then [Subscribe]
    else
      var n := |sources|;
      Script(sources[..n - 1]) + Turn(n, sources[n - 1])
  }

  /** The whole of `merge_with_t::subscribe`: the script, then the outer `on_completed`. */
  function MergeWithTrace<T>(sources: seq<Emission<T>>): seq<Action<T>>
  {
    Script(sources) + [ScriptCompleted]
  }

  /** Reference definition: what the downstream observer has received when the
      subscribe loop ends. Each source's values are passed on in order until a
      source fails; its error is passed on and everything later is dropped. */
  function SyncLog<T>(sources: seq<Emission<T>>): seq<Event<T>>
    decreases |sources|
  {
    if sources == [] then []
    else
      var prev := SyncLog(sources[..|sources| - 1]);
      var last := sources[|sources| - 1];
      if Terminated(prev) then prev
      else prev + Ons(last.values) + (if last.end.Fails? then [OnError(last.end.error)] else [])
  }

  /** The sources whose completion reaches the merge: those that complete
      before an earlier source's error has disposed it. */
  function CompletedIds<T>(sources: seq<Emission<T>>): set<SourceId>
    decreases |sources|
  {
    if sources == [] then {}
    else
      var n := |sources|;
      var front := sources[..n - 1];
      CompletedIds(front) + (if sources[n - 1].end.Completes? && !Terminated(SyncLog(front)) then {n} else {})
  }

  predicate AllComplete<T>(sources: seq<Emission<T>>)
  {
    forall i :: 0 <= i < |sources| ==> sources[i].end.Completes?
  }

  /** The ids of the first n inner sources. */
  function Ids(n: nat): (r: set<SourceId>)
    ensures forall i :: i in r <==> 1 <= i <= n
  {
    if n == 0 then {} else Ids(n - 1) + {n}
  }

  lemma AllCompletePrefix<T>(sources: seq<Emission<T>>, k: nat)
    requires AllComplete(sources) && k <= |sources|
    ensures AllComplete(sources[..k])
  {
    var pre := sources[..k];
    forall i | 0 <= i < |pre| ensures pre[i].end.Completes? {
      assert pre[i] == sources[i];
    }
  }

  lemma RunOne<T>(s: State<T>, a: Action<T>)
    ensures Run(s, [a]) == Step(s, a)
    ensures LegalRun(s, [a]) <==> Legal(s, a)
  {
    assert [a][1..] == [];
  }

  /** A run of inner values changes nothing but the log: it appends the values
      when the merge is live and nothing when it is disposed. */
  lemma {:induction false} NextsRun<T>(s: State<T>, src: SourceId, vs: seq<T>)
    requires src != 0 && src in s.counted && src !in s.finished
    ensures LegalRun(s, Nexts(src, vs))
    ensures Run(s, Nexts(src, vs)) == s.(log := s.log + (if IsDisposed(s) then [] else Ons(vs)))
    decreases |vs|
  {
    if vs != [] {
      var n := |vs|;
      var front := Nexts(src, vs[..n - 1]);
      NextsRun(s, src, vs[..n - 1]);
      var p := Run(s, front);
      RunAppend(s, front, [InnerNext(src, vs[n - 1])]);
      LegalRunAppend(s, front, [InnerNext(src, vs[n - 1])]);
      RunOne(p, InnerNext(src, vs[n - 1]));
      if !IsDisposed(s) {
        assert Ons(vs) == Ons(vs[..n - 1]) + [OnNext(vs[n - 1])];
        assert s.log + Ons(vs[..n - 1]) + [OnNext(vs[n - 1])] == s.log + Ons(vs);
      }
    } else {
      assert s.log + [] == s.log;
    }
  }

  lemma {:induction false} SyncLogWellFormed<T>(sources: seq<Emission<T>>)
    ensures WellFormed(SyncLog(sources))
    ensures Terminated(SyncLog(sources)) ==> EndsWithError(SyncLog(sources))
    ensures AllComplete(sources) ==> !Terminated(SyncLog(sources))
    decreases |sources|
  {
    if sources != [] {
      var n := |sources|;
      var prev := SyncLog(sources[..n - 1]);
      SyncLogWellFormed(sources[..n - 1]);
      if AllComplete(sources) {
        AllCompletePrefix(sources, n - 1);
      }
      if !Terminated(prev) {
        var last := sources[n - 1];
        OnsWellFormed(prev, last.values);
        if last.end.Fails? {
          AppendKeepsWellFormed(prev + Ons(last.values), OnError(last.end.error));
        } else {
          assert SyncLog(sources) == prev + Ons(last.values);
        }
      }
    }
  }

  lemma {:induction false} OnsWellFormed<T>(log: seq<Event<T>>, vs: seq<T>)
    requires WellFormed(log) && !Terminated(log)
    ensures WellFormed(log + Ons(vs)) && !Terminated(log + Ons(vs))
    decreases |vs|
  {
    if vs != [] {
      OnsWellFormed(log, vs[..|vs| - 1]);
      AppendKeepsWellFormed(log + Ons(vs[..|vs| - 1]), OnNext(vs[|vs| - 1]));
      assert log + Ons(vs) == log + Ons(vs[..|vs| - 1]) + [OnNext(vs[|vs| - 1])];
    }
  }

  /** What holds of a merge_with subscription after the subscribe loop has
      subscribed the first n sources, whose synchronous emissions left `log`. */
  ghost predicate AfterScript<T>(r: State<T>, n: nat, log: seq<Event<T>>)
  {
    && Inv(r)
    && r.log == log
    && r.disposed == Terminated(log)
    && !r.observerDisposed
    && r.sources == n
    && r.counted == {0} + Ids(n)
    && 0 !in r.finished
    && (forall i :: i in r.finished ==> 1 <= i <= n)
  }

  /** The first half of a turn of the subscribe loop: `on_next` counts source
      n, whose synchronous values then reach the log unless the merge is disposed. */
  lemma {:induction false} CountThenValues<T>(p: State<T>, n: nat, vs: seq<T>)
    requires n >= 1 && AfterScript(p, n - 1, p.log)
    ensures LegalRun(p, [ScriptNext] + Nexts(n, vs))
    ensures var u := Run(p, [ScriptNext] + Nexts(n, vs));
      && Inv(u)
      && u.log == p.log + (if Terminated(p.log) then [] else Ons(vs))
      && u.disposed == p.disposed && u.observerDisposed == p.observerDisposed
      && u.sources == n && u.counted == {0} + Ids(n)
      && u.completed == p.completed && u.finished == p.finished
  {
    RunOne(p, ScriptNext);
    var q := Step(p, ScriptNext);
    StepKeepsInv(p, ScriptNext);
    assert n !in q.finished;
    NextsRun(q, n, vs);
    RunKeepsInv(q, Nexts(n, vs));
    RunAppend(p, [ScriptNext], Nexts(n, vs));
    LegalRunAppend(p, [ScriptNext], Nexts(n, vs));
  }

  /** A synchronous completion of source n while the outer context is still
      owed is counted but never the last one. */
  lemma InnerCompletesEarly<T>(u: State<T>, n: nat)
    requires Inv(u) && n != 0 && n in u.counted && n !in u.finished
    requires 0 in u.counted && 0 !in u.finished
    ensures var r := Step(u, InnerCompleted(n));
      && r.completed == u.completed + (if !IsDisposed(u) then {n} else {})
      && r.log == u.log && r.disposed == u.disposed
  {
    if !IsDisposed(u) {
      assert 0 !in u.completed && n !in u.completed;
      ProperSubsetCard(u.completed, u.counted - {0}, n);
      assert u.pending >= 2;
    }
  }

  /** The second half of a turn: how source n's synchronous emission ends. */
  lemma {:induction false} EndOfEmission<T>(u: State<T>, n: nat, end: End)
    requires Inv(u) && n != 0 && n in u.counted && n !in u.finished
    requires 0 in u.counted && 0 !in u.finished
    ensures LegalRun(u, Ending(n, end))
    ensures var r := Run(u, Ending(n, end));
      && r.counted == u.counted && r.sources == u.sources
      && r.observerDisposed == u.observerDisposed
      && r.finished == u.finished + (if end.Open? then {} else {n})
      && r.completed == u.completed + (if end.Completes? && !IsDisposed(u) then {n} else {})
      && r.log == u.log + (if end.Fails? && !IsDisposed(u) then [OnError(end.error)] else [])
      && r.disposed == (u.disposed || (end.Fails? && !IsDisposed(u)))
  {
    match end {
      case Completes =>
        RunOne(u, InnerCompleted(n));
        InnerCompletesEarly(u, n);
      case Fails(err) =>
        RunOne(u, InnerError(n, err));
      case Open =>
        assert Ending<T>(n, end) == [];
    }
  }

  /** The end of source n's synchronous emission keeps the invariant. */
  lemma EndOfEmissionInv<T>(u: State<T>, n: nat, end: End)
    requires Inv(u) && n != 0 && n in u.counted && n !in u.finished
    requires 0 in u.counted && 0 !in u.finished
    ensures Inv(Run(u, Ending(n, end)))
  {
    match end {
      case Completes =>
        RunOne(u, InnerCompleted(n));
        StepKeepsInv(u, InnerCompleted(n));
      case Fails(err) =>
        RunOne(u, InnerError(n, err));
        StepKeepsInv(u, InnerError(n, err));
      case Open =>
        assert Ending<T>(n, end) == [];
    }
  }

  /** One turn of the subscribe loop: count source n, then let it emit. */
  lemma {:induction false} ScriptTurn<T>(p: State<T>, n: nat, e: Emission<T>)
    requires n >= 1 && AfterScript(p, n - 1, p.log)
    ensures LegalRun(p, Turn(n, e))
    ensures var r := Run(p, Turn(n, e));
      && AfterScript(r, n, if Terminated(p.log) then p.log
                           else p.log + Ons(e.values) + (if e.end.Fails? then [OnError(e.end.error)] else []))
      && r.completed == p.completed + (if e.end.Completes? && !Terminated(p.log) then {n} else {})
  {
    var t := [ScriptNext] + Nexts(n, e.values);
    CountThenValues(p, n, e.values);
    var u := Run(p, t);
    assert n !in u.finished;
    EndOfEmission(u, n, e.end);
    EndOfEmissionInv(u, n, e.end);
    RunAppend(p, t, Ending(n, e.end));
    LegalRunAppend(p, t, Ending(n, e.end));
    var r := Run(u, Ending(n, e.end));
    assert r.disposed == Terminated(r.log) by {
      if !Terminated(p.log) {
        OnsWellFormed(p.log, e.values);
      }
    }
  }

  /** The state of a merge_with subscription once the subscribe loop has
      subscribed every source, before the outer `on_completed`. */
  lemma {:induction false} ScriptRun<T>(sources: seq<Emission<T>>)
    ensures LegalRun(Start<T>(false), Script(sources))
    ensures var r := Run(Start<T>(false), Script(sources));
      && AfterScript(r, |sources|, SyncLog(sources))
      && r.completed == CompletedIds(sources)
    decreases |sources|
  {
    var s0 := Start<T>(false);
    if sources == [] {
      RunOne(s0, Subscribe);
    } else {
      var n := |sources|;
      var front := sources[..n - 1];
      ScriptRun(front);
      var p := Run(s0, Script(front));
      ScriptTurn(p, n, sources[n - 1]);
      RunAppend(s0, Script(front), Turn(n, sources[n - 1]));
      LegalRunAppend(s0, Script(front), Turn(n, sources[n - 1]));
    }
  }

  lemma AllCompleteOpen<T>(sources: seq<Emission<T>>)
    requires AllComplete(sources)
    ensures !Terminated(SyncLog(sources))
  {
    SyncLogWellFormed(sources);
  }

  /** Only a source that completes can have its completion counted, and every
      source's completion is counted when all of them complete. */
  lemma {:induction false} CompletedIdsAll<T>(sources: seq<Emission<T>>)
    ensures CompletedIds(sources) <= Ids(|sources|)
    ensures CompletedIds(sources) == Ids(|sources|) <==> AllComplete(sources)
    decreases |sources|
  {
    if sources != [] {
      var n := |sources|;
      var front := sources[..n - 1];
      CompletedIdsAll(front);
      if AllComplete(front) {
        AllCompleteOpen(front);
      }
      if AllComplete(sources) {
        AllCompletePrefix(sources, n - 1);
      } else if AllComplete(front) {
        assert n !in CompletedIds(sources);
      } else {
        var k :| k in Ids(n - 1) && k !in CompletedIds(front);
        assert k !in CompletedIds(sources);
      }
    }
  }

  /** The outer `on_completed` at the end of the script: it forwards
      `on_completed` exactly when every inner source has completed. */
  lemma FinalCompletion<T>(p: State<T>, n: nat, log: seq<Event<T>>)
    requires AfterScript(p, n, log) && p.completed <= Ids(n)
    ensures Legal(p, ScriptCompleted)
    ensures Step(p, ScriptCompleted).log == log + (if p.completed == Ids(n) then [OnCompleted] else [])
  {
    assert 0 !in p.completed;
    if p.completed == Ids(n) {
      assert p.counted == p.completed + {0};
    } else {
      var k :| k in Ids(n) && k !in p.completed;
      ProperSubsetCard(p.completed, p.counted - {0}, k);
    }
  }

  /** merge_with over sources that emit synchronously while subscribed: the
      downstream observer receives every source's values, source by source in
      tuple order, up to the first failing source, whose error ends the stream;
      it receives `on_completed` exactly when every source completed, and then
      only after the last of them. Every step of the script is legal: each
      source is counted before it is subscribed. */
  lemma {:induction false} MergeWithSynchronous<T>(sources: seq<Emission<T>>)
    ensures LegalRun(Start<T>(false), MergeWithTrace(sources))
    ensures Run(Start<T>(false), MergeWithTrace(sources)).log
         == SyncLog(sources) + (if AllComplete(sources) then [OnCompleted] else [])
  {
    var s0 := Start<T>(false);
    ScriptRun(sources);
    var p := Run(s0, Script(sources));
    RunAppend(s0, Script(sources), [ScriptCompleted]);
    LegalRunAppend(s0, Script(sources), [ScriptCompleted]);
    RunOne(p, ScriptCompleted);
    CompletedIdsAll(sources);
    FinalCompletion(p, |sources|, SyncLog(sources));
  }

  /** A run is its first step followed by the rest of the run. */
  lemma RunCons<T>(s: State<T>, t: seq<Action<T>>)
    requires t != []
    ensures Run(s, t) == Run(Step(s, t[0]), t[1..])
    ensures LegalRun(s, t) <==> Legal(s, t[0]) && LegalRun(Step(s, t[0]), t[1..])
  {
  }

  /** The marble of `merge_with`, first half: two observables that emit nothing
      while subscribed; after the script only the two sources are owed. */
  lemma MarbleScript()
    ensures LegalRun(Start<int>(false), MergeWithTrace([Emission([], Open), Emission([], Open)]))
    ensures Run(Start<int>(false), MergeWithTrace([Emission([], Open), Emission([], Open)]))
         == MarbleAfterScript()
  {
    var sources: seq<Emission<int>> := [Emission([], Open), Emission([], Open)];
    assert sources[..1] == [Emission([], Open)];
    assert Script(sources[..1][..0]) == [Subscribe];
    var t: seq<Action<int>> := [Subscribe, ScriptNext, ScriptNext, ScriptCompleted];
    assert MergeWithTrace(sources) == t;
    var s0 := Start<int>(false);
    RunCons(s0, t[0..]);
    assert t[0..][1..] == t[1..];
    var s1 := Step(s0, t[0]);
    RunCons(s1, t[1..]);
    assert t[1..][1..] == t[2..];
    var s2 := Step(s1, t[1]);
    RunCons(s2, t[2..]);
    assert t[2..][1..] == t[3..];
    var s3 := Step(s2, t[2]);
    RunCons(s3, t[3..]);
    assert t[3..][1..] == t[4..];
    var s4 := Step(s3, t[3]);
    assert t[4..] == [];
  }

  function MarbleAfterScript(): State<int>
  {
    State(2, false, {}, [], false, 2, {0, 1, 2}, {0}, {0})
  }

  /** The marble of `merge_with`, second half: the original observable emits
      1, 2, 3 and completes, the second one emits 4 and 6 and completes; the
      result is 1, 2, 4, 3, 6 and then one `on_completed`. */
  lemma MarbleEmissions()
    ensures var t := [InnerNext(1, 1), InnerNext(1, 2), InnerNext(2, 4), InnerNext(1, 3), InnerCompleted(1), InnerNext(2, 6), InnerCompleted(2)];
      && LegalRun(MarbleAfterScript(), t)
      && Run(MarbleAfterScript(), t).log
         == [OnNext(1), OnNext(2), OnNext(4), OnNext(3), OnNext(6), OnCompleted]
  {
    var t: seq<Action<int>> := [InnerNext(1, 1), InnerNext(1, 2), InnerNext(2, 4), InnerNext(1, 3), InnerCompleted(1), InnerNext(2, 6), InnerCompleted(2)];
    var s0 := MarbleAfterScript();
    RunCons(s0, t[0..]);
    assert t[0..][1..] == t[1..];
    var s1 := Step(s0, t[0]);
    RunCons(s1, t[1..]);
    assert t[1..][1..] == t[2..];
    var s2 := Step(s1, t[1]);
    RunCons(s2, t[2..]);
    assert t[2..][1..] == t[3..];
    var s3 := Step(s2, t[2]);
    RunCons(s3, t[3..]);
    assert t[3..][1..] == t[4..];
    var s4 := Step(s3, t[3]);
    RunCons(s4, t[4..]);
    assert t[4..][1..] == t[5..];
    var s5 := Step(s4, t[4]);
    RunCons(s5, t[5..]);
    assert t[5..][1..] == t[6..];
    var s6 := Step(s5, t[5]);
    RunCons(s6, t[6..]);
    assert t[6..][1..] == t[7..];
    var s7 := Step(s6, t[6]);
    assert t[7..] == [];
  }
}
