/** What the flags of a `jQuery.Callbacks` list promise, over every run: `unique` lists hold a handler once, `once` lists
    fire once, `memory` lists replay the last fire to late handlers, `stopOnFalse` ends a round, and disabled lists do
    nothing any more. */
module JQueryCallbackLaws {
  import opened Wrappers
  import opened JQueryCallbacks

  // ---- What `add` adds ----

  ghost predicate Distinct(entries: seq<Entry>) {
    forall i, j | 0 <= i < j < |entries| :: entries[i].fn != entries[j].fn
  }

  lemma HasMore(entries: seq<Entry>, e: Entry, fn: nat)
    ensures Has(entries + [e], fn) <==> Has(entries, fn) || e.fn == fn
  {
    var more := entries + [e];
    assert more[|entries|] == e;
    if i :| 0 <= i < |entries| && entries[i].fn == fn { assert more[i].fn == fn; }
  }

  /** After an addition the list has what it had and what was added; a unique one has each handler once. */
  lemma {:induction false} PushAdds(entries: seq<Entry>, unique: bool, next: nat, fns: seq<nat>, fn: nat)
    ensures Has(Push(entries, unique, next, fns), fn) <==> Has(entries, fn) || fn in fns
    ensures unique && Distinct(entries) ==> Distinct(Push(entries, unique, next, fns))
    decreases |fns|
  {
    hide Has;
    if fns != [] {
      if unique && Has(entries, fns[0]) {
        PushAdds(entries, unique, next, fns[1..], fn);
      } else {
        var e := entries + [Entry(fns[0], next)];
        HasMore(entries, Entry(fns[0], next), fn);
        if unique && Distinct(entries) { AppendDistinct(entries, Entry(fns[0], next)); }
        PushAdds(e, unique, next + 1, fns[1..], fn);
      }
      assert fn in fns <==> fn == fns[0] || fn in fns[1..];
    }
  }

  lemma AppendDistinct(entries: seq<Entry>, e: Entry)
    requires Distinct(entries) && !Has(entries, e.fn)
    ensures Distinct(entries + [e])
  {
  }

  /** Without `unique` every handler is added, in order, however often it is there. */
  lemma {:induction false} PushAll(entries: seq<Entry>, next: nat, fns: seq<nat>)
    ensures var r := Push(entries, false, next, fns);
            |r| == |entries| + |fns| && forall k | 0 <= k < |fns| :: r[|entries| + k].fn == fns[k]
    decreases |fns|
  {
    if fns != [] {
      var e := entries + [Entry(fns[0], next)];
      PushAll(e, next + 1, fns[1..]);
      var r := Push(entries, false, next, fns);
      forall k | 0 <= k < |fns|
        ensures r[|entries| + k].fn == fns[k]
      {
        if k > 0 { assert r[|e| + (k - 1)].fn == fns[1..][k - 1]; } else { assert r[|entries|] == e[|entries|]; }
      }
    }
  }

  lemma {:induction false} WithoutDistinct(entries: seq<Entry>, fn: nat)
    requires Distinct(entries)
    ensures Distinct(Without(entries, fn))
  {
    if entries != [] {
      var init, last := entries[..|entries| - 1], entries[|entries| - 1];
      WithoutDistinct(init, fn);
      WithoutMembers(init, fn);
      if last.fn != fn {
        forall i | 0 <= i < |Without(init, fn)|
          ensures Without(init, fn)[i].fn != last.fn
        {
          assert Without(init, fn)[i] in init;
        }
      }
    }
  }

  ghost predicate UniqueOk(l: List) {
    l.options.unique && l.list.Some? ==> Distinct(l.list.value)
  }

  lemma UniqueStep(l: List, a: Action)
    requires UniqueOk(l) && Can(l, a)
    ensures UniqueOk(Do(l, a)) && Do(l, a).options == l.options
  {
    hide Tags, Push, Without;
    if a.DoAdd? && l.list.Some? { PushAdds(l.list.value, l.options.unique, l.next, a.fns, 0); }
    if a.DoRemove? && l.list.Some? && l.options.unique { WithoutDistinct(l.list.value, a.fn); }
    hide Distinct;
  }

  lemma {:induction false} UniqueRun(l: List, acts: seq<Action>)
    requires UniqueOk(l) && Legal(l, acts)
    ensures UniqueOk(Exec(l, acts)) && Exec(l, acts).options == l.options
    decreases |acts|
  {
    hide Do, Can, UniqueOk;
    if acts != [] {
      UniqueStep(l, acts[0]);
      UniqueRun(Do(l, acts[0]), acts[1..]);
    }
  }

  /** A unique list never holds a handler twice. */
  lemma UniqueHoldsOnce(options: Options, acts: seq<Action>)
    requires options.unique && Legal(New(options), acts) && Exec(New(options), acts).list.Some?
    ensures var entries := Exec(New(options), acts).list.value;
            forall i, j | 0 <= i < j < |entries| :: entries[i].fn != entries[j].fn
  {
    UniqueRun(New(options), acts);
  }

  // ---- Fires, rounds and memory ----

  function FiresIn(acts: seq<Action>): seq<nat> {
    if acts == [] then [] else (if acts[0].DoFire? then [acts[0].data] else []) + FiresIn(acts[1..])
  }

  /** The data of a round is that of its fire, and the memory that of the last one. */
  ghost predicate DataOk(l: List) {
    && (l.firing || l.memory.Some? || l.fired ==> l.rounds != [])
    && (l.firing ==> l.data == l.rounds[|l.rounds| - 1])
    && (l.memory.Some? ==> l.options.memory && l.memory == Some(l.rounds[|l.rounds| - 1]))
    && (l.options.memory && !l.options.stopOnFalse && l.fired && l.list.Some? ==> l.memory.Some?)
    && (l.rounds != [] ==> l.fired) && (l.firing ==> l.fired)
  }

  /** A once list has taken at most one fire. */
  predicate OnceOk(l: List) {
    l.options.once ==>
      l.stack == None && l.rounds == l.requests && |l.requests| <= 1 && (l.fired <==> l.requests != [])
  }

  lemma DataStep(l: List, a: Action)
    requires DataOk(l) && Can(l, a)
    ensures DataOk(Do(l, a))
  {
    hide Tags, Push, Without;
  }

  lemma OnceStep(l: List, a: Action)
    requires OnceOk(l) && DataOk(l) && Can(l, a)
    ensures OnceOk(Do(l, a)) && Do(l, a).options == l.options
  {
    hide Tags, Push, Without;
  }

  lemma {:induction false} DataRun(l: List, acts: seq<Action>)
    requires DataOk(l) && OnceOk(l) && Legal(l, acts)
    ensures DataOk(Exec(l, acts)) && OnceOk(Exec(l, acts)) && Exec(l, acts).options == l.options
    decreases |acts|
  {
    hide Do, Can, DataOk, OnceOk;
    if acts != [] {
      DataStep(l, acts[0]);
      OnceStep(l, acts[0]);
      DataRun(Do(l, acts[0]), acts[1..]);
    }
  }

  lemma NewData(options: Options)
    ensures DataOk(New(options)) && OnceOk(New(options))
  {
  }

  /** A once list takes at most one fire, and begins it at once. */
  lemma OnceFiresOnce(options: Options, acts: seq<Action>)
    requires options.once && Legal(New(options), acts)
    ensures var l := Exec(New(options), acts); l.rounds == l.requests && |l.requests| <= 1
  {
    NewData(options);
    DataRun(New(options), acts);
  }

  /** Handlers get the data of the fire that began their round; a memory list that was fired remembers the last one. */
  lemma HandlersGetLastFire(options: Options, acts: seq<Action>)
    requires Legal(New(options), acts)
    ensures var l := Exec(New(options), acts);
            && (l.firing ==> l.rounds != [] && l.data == l.rounds[|l.rounds| - 1])
            && (!options.memory ==> l.memory == None)
            && (options.memory && !options.stopOnFalse && l.fired && l.list.Some?
                ==> l.rounds != [] && l.memory == Some(l.rounds[|l.rounds| - 1]))
  {
    NewData(options);
    DataRun(New(options), acts);
  }

  /** Handlers added to an idle list that remembers a fire are called at once with its data, they and no others; without
      such a memory nothing is called. */
  lemma LateHandlersAreCalled(options: Options, acts: seq<Action>, fns: seq<nat>)
    requires Legal(New(options), acts) && !Exec(New(options), acts).firing && Exec(New(options), acts).list.Some?
    ensures var l := Exec(New(options), acts);
            var t := Add(l, fns);
            && t.list.Some? && t.rounds == l.rounds
            && (l.memory == None ==> !t.firing)
            && (l.memory.Some? ==>
                  && t.firing && !t.inHandler && t.called == []
                  && l.rounds != [] && t.data == l.rounds[|l.rounds| - 1]
                  && 0 <= Turn(t) <= |t.list.value| && Pending(t) == t.list.value[|l.list.value|..])
  {
    NewData(options);
    DataRun(New(options), acts);
    hide Tags, Legal, Exec;
  }

  lemma RequestStep(l: List, a: Action)
    requires Can(l, a) && (l.list == None ==> l.stack == None)
    ensures var t := Do(l, a);
            && (t.stack.Some? ==> l.stack.Some? && t.requests == l.requests + FiresIn([a]))
            && (t.list == None ==> t.stack == None)
  {
    hide Tags, Push, Without;
    assert FiresIn([a]) == if a.DoFire? then [a.data] else [];
  }

  lemma {:induction false} RequestRun(l: List, acts: seq<Action>)
    requires Legal(l, acts) && (l.list == None ==> l.stack == None) && Exec(l, acts).stack.Some?
    ensures l.stack.Some? && Exec(l, acts).requests == l.requests + FiresIn(acts)
    decreases |acts|
  {
    hide Do, Can;
    if acts != [] {
      RequestStep(l, acts[0]);
      RequestRun(Do(l, acts[0]), acts[1..]);
      assert [acts[0]][1..] == [];
    }
  }

  /** A repeatable list takes every fire until it is locked or disabled. */
  lemma EveryFireIsTaken(options: Options, acts: seq<Action>)
    requires Legal(New(options), acts) && Exec(New(options), acts).stack.Some?
    ensures Exec(New(options), acts).requests == FiresIn(acts)
  {
    RequestRun(New(options), acts);
    assert [] + FiresIn(acts) == FiresIn(acts);
  }

  // ---- The end of a round, and of a list ----

  predicate NoCall(acts: seq<Action>) {
    forall i | 0 <= i < |acts| :: !acts[i].DoCall?
  }

  lemma RoundsGrow(l: List, a: Action)
    requires Can(l, a)
    ensures |l.rounds| <= |Do(l, a).rounds|
  {
    hide Tags, Push, Without;
  }

  lemma {:induction false} RoundsGrowRun(l: List, acts: seq<Action>)
    requires Legal(l, acts)
    ensures |l.rounds| <= |Exec(l, acts).rounds|
    decreases |acts|
  {
    hide Do, Can;
    if acts != [] {
      RoundsGrow(l, acts[0]);
      RoundsGrowRun(Do(l, acts[0]), acts[1..]);
    }
  }

  lemma SilentStep(l: List, a: Action)
    requires Can(l, a) && !l.firing && l.memory == None
    ensures !a.DoCall?
    ensures |Do(l, a).rounds| == |l.rounds| ==> !Do(l, a).firing && Do(l, a).memory == None
  {
    hide Tags, Push, Without;
  }

  /** An idle list without memory calls nothing until a fire begins another round. */
  lemma {:induction false} SilentUntilFired(l: List, acts: seq<Action>)
    requires Legal(l, acts) && !l.firing && l.memory == None && |Exec(l, acts).rounds| == |l.rounds|
    ensures NoCall(acts) && !Exec(l, acts).firing
    decreases |acts|
  {
    hide Do, Can;
    if acts != [] {
      SilentStep(l, acts[0]);
      RoundsGrow(l, acts[0]);
      RoundsGrowRun(Do(l, acts[0]), acts[1..]);
      SilentUntilFired(Do(l, acts[0]), acts[1..]);
      forall i | 0 <= i < |acts|
        ensures !acts[i].DoCall?
      {
        if i > 0 { assert acts[i] == acts[1..][i - 1]; }
      }
    }
  }

  /** On a stopOnFalse list a handler that returns false ends the round: until another fire begins one nothing is called,
      not even what is added; the fire queued first begins at once. */
  lemma FalseEndsRound(l: List, acts: seq<Action>)
    requires l.firing && l.inHandler && l.options.stopOnFalse && Legal(Return(l, true), acts)
    ensures |Exec(Return(l, true), acts).rounds| == |l.rounds| ==> NoCall(acts) && !Exec(Return(l, true), acts).firing
    ensures l.list.Some? && l.stack.Some? && l.stack.value != [] ==>
              Return(l, true).rounds == l.rounds + [l.stack.value[0]] && Return(l, true).data == l.stack.value[0]
  {
    var t := Return(l, true);
    RoundsGrowRun(t, acts);
    hide Legal, Exec, Tags;
    if |Exec(t, acts).rounds| == |l.rounds| { SilentUntilFired(t, acts); }
  }

  /** On other lists it makes no difference: the round goes on with the entries that are pending. */
  lemma FalseIsIgnored(options: Options, acts: seq<Action>)
    requires Legal(New(options), acts) && !options.stopOnFalse
    requires Exec(New(options), acts).firing && Exec(New(options), acts).inHandler && Exec(New(options), acts).list.Some?
    ensures var l, t := Exec(New(options), acts), Return(Exec(New(options), acts), true);
            && t.firing && t.list == l.list && t.rounds == l.rounds && t.called == l.called
            && 0 <= Turn(l) <= |l.list.value| && Turn(t) == Turn(l)
  {
    UniqueRun(New(options), acts);
    LoopStaysInList(options, acts);
  }

  lemma DeadStep(l: List, a: Action)
    requires Can(l, a) && l.list == None
    ensures !a.DoCall? && Do(l, a).list == None && Do(l, a).requests == l.requests && Do(l, a).rounds == l.rounds
  {
  }

  /** A disabled list calls nothing and takes no fire and no handler, whatever is done to it. */
  lemma DisabledForGood(l: List, acts: seq<Action>)
    requires Legal(Disable(l), acts)
    ensures var t := Exec(Disable(l), acts);
            NoCall(acts) && t.list == None && t.requests == l.requests && t.rounds == l.rounds
  {
    DeadRun(Disable(l), acts);
  }

  lemma {:induction false} DeadRun(l: List, acts: seq<Action>)
    requires Legal(l, acts) && l.list == None
    ensures var t := Exec(l, acts);
            NoCall(acts) && t.list == None && t.requests == l.requests && t.rounds == l.rounds
    decreases |acts|
  {
    hide Do, Can;
    if acts != [] {
      DeadStep(l, acts[0]);
      DeadRun(Do(l, acts[0]), acts[1..]);
      forall i | 0 <= i < |acts|
        ensures !acts[i].DoCall?
      {
        if i > 0 { assert acts[i] == acts[1..][i - 1]; }
      }
    }
  }

  lemma LockedStep(l: List, a: Action)
    requires Can(l, a) && l.stack == None && (l.list.Some? ==> l.fired)
    ensures var t := Do(l, a);
            t.stack == None && (t.list.Some? ==> t.fired) && t.requests == l.requests && t.rounds == l.rounds
  {
    hide Tags, Push, Without;
  }

  lemma {:induction false} LockedRun(l: List, acts: seq<Action>)
    requires Legal(l, acts) && l.stack == None && (l.list.Some? ==> l.fired)
    ensures Exec(l, acts).requests == l.requests && Exec(l, acts).rounds == l.rounds
    decreases |acts|
  {
    hide Do, Can;
    if acts != [] {
      LockedStep(l, acts[0]);
      LockedRun(Do(l, acts[0]), acts[1..]);
    }
  }

  /** A locked list takes no other fire, and drops those that were queued; it keeps its handlers exactly if it remembers
      a fire. */
  lemma LockedTakesNoFire(options: Options, acts: seq<Action>, more: seq<Action>)
    requires Legal(New(options), acts) && Legal(Lock(Exec(New(options), acts)), more)
    ensures var l := Exec(New(options), acts);
            && Exec(Lock(l), more).requests == l.requests && Exec(Lock(l), more).rounds == l.rounds
            && (l.memory.Some? ==> Lock(l).list == l.list && Lock(l).firing == l.firing && Lock(l).memory == l.memory)
            && (l.memory == None ==> Lock(l).list == None)
  {
    NewData(options);
    DataRun(New(options), acts);
    LockedRun(Lock(Exec(New(options), acts)), more);
    hide Legal, Exec;
  }
}
