/** A `jQuery.Callbacks` list. Handlers run between steps and may add, remove and fire re-entrantly, so a firing is a
    sequence of steps: call the next handler, let it act, return from it. Every push makes an entry with a tag of its
    own, so that pushes of the same function can be told apart. */
module JQueryCallbacks {
  import opened Wrappers

  datatype Entry = Entry(fn: nat, tag: nat)

  datatype Options = Options(once: bool, memory: bool, unique: bool, stopOnFalse: bool)

  /** The closure variables of one list, and what happened in the current round of firing:
      `inHandler` tells that a handler is running, `data` is what the round was fired with, `called` the entries called
      in this round, `entered` the tags of all entries that were due in it, `dropped` of those removed before their
      turn. `requests` are the fires accepted so far and `rounds` those of them that were begun. */
  datatype List = List(options: Options, list: Option<seq<Entry>>, stack: Option<seq<nat>>, memory: Option<nat>,
                       firing: bool, fired: bool, firingStart: nat, firingIndex: int, firingLength: nat,
                       inHandler: bool, data: nat, next: nat,
                       called: seq<Entry>, entered: set<nat>, dropped: set<nat>,
                       requests: seq<nat>, rounds: seq<nat>)

  function New(options: Options): List {
    List(options, Some([]), if options.once then None else Some([]), None, false, false, 0, 0, 0, false, 0, 0,
         [], {}, {}, [], [])
  }

  function Tags(entries: seq<Entry>): set<nat> {
    set i | 0 <= i < |entries| :: entries[i].tag
  }

  // ---- Operations ----

  /** `fire` up to its loop (3055-3060). */
  function StartFire(l: List, data: nat): List
    requires l.list.Some?
  {
    l.(memory := if l.options.memory then Some(data) else None, fired := true, firingIndex := l.firingStart,
       firingStart := 0, firingLength := |l.list.value|, firing := true, inHandler := false, data := data,
       called := [], dropped := {},
       entered := if l.firingStart <= |l.list.value| then Tags(l.list.value[l.firingStart..]) else {})
  }

  predicate Has(entries: seq<Entry>, fn: nat) {
    exists i :: 0 <= i < |entries| && entries[i].fn == fn
  }

  /** The pushes of `add` (3087-3099). */
  function Push(entries: seq<Entry>, unique: bool, next: nat, fns: seq<nat>): (r: seq<Entry>)
    ensures entries <= r && |r| <= |entries| + |fns|
    decreases |fns|
  {
    if fns == [] then entries
    else if unique && Has(entries, fns[0]) then Push(entries, unique, next, fns[1..])
    else Push(entries + [Entry(fns[0], next)], unique, next + 1, fns[1..])
  }

  /** `add` (3083-3112). */
  function Add(l: List, fns: seq<nat>): List {
    if l.list == None then l
    else
      var pushed := Push(l.list.value, l.options.unique, l.next, fns);
      var start := |l.list.value|;
      var t := l.(list := Some(pushed), next := l.next + |pushed| - start);
      if l.firing then t.(firingLength := |pushed|, entered := l.entered + Tags(pushed[start..]))
      else if l.memory.Some? then StartFire(t.(firingStart := start), l.memory.value)
      else t
  }

  function Without(entries: seq<Entry>, fn: nat): (r: seq<Entry>)
    ensures |r| <= |entries|
  {
    if entries == [] then []
    else
      var init, last := entries[..|entries| - 1], entries[|entries| - 1];
      if last.fn == fn then Without(init, fn) else Without(init, fn) + [last]
  }

  /** How far the firing index has come: the entries before it have had their turn. */
  function Turn(l: List): int {
    if l.inHandler then l.firingIndex + 1 else l.firingIndex
  }

  /** `remove` of one function (3114-3133): all its entries go, and the index of the running firing moves along. */
  function Remove(l: List, fn: nat): List
    requires l.list.Some? && l.firing ==> 0 <= l.firingIndex + 1 <= |l.list.value|
  {
    if l.list == None then l
    else
      var entries := l.list.value;
      var t := l.(list := Some(Without(entries, fn)));
      if !l.firing then t
      else
        t.(firingLength := |Without(entries, fn)|,
           firingIndex := |Without(entries[..l.firingIndex + 1], fn)| - 1,
           dropped := l.dropped + (Tags(entries[l.firingIndex + 1..]) - Tags(Without(entries[l.firingIndex + 1..], fn))))
  }

  /** `disable` (3146-3149). */
  function Disable(l: List): List {
    l.(list := None, stack := None, memory := None)
  }

  /** `lock` (3155-3161). */
  function Lock(l: List): List {
    if l.memory == None then Disable(l) else l.(stack := None)
  }

  /** `fireWith` (3167-3178). */
  function FireWith(l: List, data: nat): List {
    if l.list.Some? && (!l.fired || l.stack.Some?) then
      var t := l.(requests := l.requests + [data]);
      if l.firing then (if l.stack.Some? then t.(stack := Some(l.stack.value + [data])) else t)
      else StartFire(t.(rounds := l.rounds + [data]), data)
    else l
  }

  /** The loop calls the next handler (3061-3062). */
  predicate CanCall(l: List) {
    && l.firing && !l.inHandler && l.list.Some?
    && l.firingIndex < l.firingLength && 0 <= l.firingIndex < |l.list.value|
  }

  function CallNext(l: List): List
    requires CanCall(l)
  {
    l.(inHandler := true, called := l.called + [l.list.value[l.firingIndex]])
  }

  /** The end of `fire` (3067-3078). */
  function Finish(l: List): List {
    var t := l.(firing := false, inHandler := false);
    if l.list == None then t
    else if l.stack.Some? then
      if l.stack.value == [] then t
      else StartFire(t.(stack := Some(l.stack.value[1..]), rounds := l.rounds + [l.stack.value[0]]), l.stack.value[0])
    else if l.memory.Some? then t.(list := Some([]))
    else Disable(t)
  }

  /** The loop condition fails (3061). */
  predicate CanFinish(l: List) {
    l.firing && !l.inHandler && (l.list == None || l.firingLength <= l.firingIndex)
  }

  /** The handler returns (3062-3065); `stop` tells that it returned false. */
  function Return(l: List, stop: bool): List
    requires l.firing && l.inHandler
  {
    if stop && l.options.stopOnFalse then Finish(l.(memory := None))
    else l.(inHandler := false, firingIndex := l.firingIndex + 1)
  }

  // ---- Runs ----

  datatype Action =
    | DoAdd(fns: seq<nat>)
    | DoRemove(fn: nat)
    | DoFire(data: nat)
    | DoDisable
    | DoLock
    | DoCall
    | DoReturn(stop: bool)
    | DoFinish

  /** Outside code runs only while no firing is between two handlers. */
  predicate Open(l: List) {
    l.firing ==> l.inHandler
  }

  predicate Can(l: List, a: Action) {
    match a
    case DoCall => CanCall(l)
    case DoReturn(_) => l.firing && l.inHandler
    case DoFinish => CanFinish(l)
    case DoRemove(_) => Open(l) && (l.list.Some? && l.firing ==> 0 <= l.firingIndex + 1 <= |l.list.value|)
    case _ => Open(l)
  }

  function Do(l: List, a: Action): List
    requires Can(l, a)
  {
    match a
    case DoAdd(fns) => Add(l, fns)
    case DoRemove(fn) => Remove(l, fn)
    case DoFire(data) => FireWith(l, data)
    case DoDisable => Disable(l)
    case DoLock => Lock(l)
    case DoCall => CallNext(l)
    case DoReturn(stop) => Return(l, stop)
    case DoFinish => Finish(l)
  }

  predicate Legal(l: List, acts: seq<Action>)
    decreases |acts|
  {
    acts == [] || (Can(l, acts[0]) && Legal(Do(l, acts[0]), acts[1..]))
  }

  function Exec(l: List, acts: seq<Action>): List
    requires Legal(l, acts)
    decreases |acts|
  {
    if acts == [] then l else Exec(Do(l, acts[0]), acts[1..])
  }

  // ---- The bookkeeping ----

  ghost predicate Ordered(entries: seq<Entry>, next: nat) {
    && (forall i, j | 0 <= i < j < |entries| :: entries[i].tag < entries[j].tag)
    && (forall i | 0 <= i < |entries| :: entries[i].tag < next)
  }

  /** The entries that have had no turn in this round. */
  function Pending(l: List): seq<Entry>
    requires l.list.Some? && 0 <= Turn(l) <= |l.list.value|
  {
    l.list.value[Turn(l)..]
  }

  ghost predicate RoundOk(l: List)
    requires l.list.Some?
  {
    && l.firingLength == |l.list.value|
    && 0 <= Turn(l) <= |l.list.value|
    && Books(l.called, Pending(l), l.dropped, l.entered, l.next)
  }

  /** The entries due in a round are called, pending or dropped, never two of these; calls come before what is pending. */
  ghost predicate Books(called: seq<Entry>, pending: seq<Entry>, dropped: set<nat>, entered: set<nat>, next: nat) {
    && (forall i, j | 0 <= i < |called| && 0 <= j < |pending| :: called[i].tag < pending[j].tag)
    && Tags(called) !! dropped && Tags(pending) !! dropped
    && entered == Tags(called) + Tags(pending) + dropped
    && (forall t | t in entered :: t < next)
  }

  ghost predicate Inv(l: List) {
    && (l.list.Some? ==> Ordered(l.list.value, l.next))
    && (l.inHandler ==> l.firing)
    && (l.firing ==> l.fired)
    && l.firingStart == 0
    && Ordered(l.called, l.next)
    && (l.firing && l.list.Some? ==> RoundOk(l))
    && (l.list == None ==> l.stack == None && l.memory == None)
    && (l.stack.Some? ==> l.requests == l.rounds + l.stack.value)
    && (l.stack.Some? && !l.firing ==> l.stack.value == [])
  }

  lemma {:induction false} PushOrdered(entries: seq<Entry>, unique: bool, next: nat, fns: seq<nat>)
    requires Ordered(entries, next)
    ensures var r := Push(entries, unique, next, fns);
            && Ordered(r, next + |r| - |entries|)
            && forall t | t in Tags(r[|entries|..]) :: next <= t
    decreases |fns|
  {
    hide Tags;
    if fns == [] {
      NoTags(entries);
    } else if unique && Has(entries, fns[0]) {
      PushOrdered(entries, unique, next, fns[1..]);
    } else {
      var e := entries + [Entry(fns[0], next)];
      PushOrdered(e, unique, next + 1, fns[1..]);
      FirstPushed(entries, e, Push(e, unique, next + 1, fns[1..]), next);
    }
  }

  lemma NoTags(entries: seq<Entry>)
    ensures Tags(entries[|entries|..]) == {}
  {
  }

  lemma FirstPushed(entries: seq<Entry>, e: seq<Entry>, r: seq<Entry>, next: nat)
    requires |e| == |entries| + 1 && entries <= e <= r && e[|entries|].tag == next
    requires forall t | t in Tags(r[|e|..]) :: next + 1 <= t
    ensures forall t | t in Tags(r[|entries|..]) :: next <= t
  {
    forall t | t in Tags(r[|entries|..])
      ensures next <= t
    {
      var i :| 0 <= i < |r[|entries|..]| && r[|entries|..][i].tag == t;
      if i > 0 {
        assert r[|entries|..][i] == r[|e|..][i - 1];
        assert t in Tags(r[|e|..]);
      } else {
        assert r[|entries|] == e[|entries|];
      }
    }
  }

  lemma {:induction false} WithoutConcat(a: seq<Entry>, b: seq<Entry>, fn: nat)
    ensures Without(a + b, fn) == Without(a, fn) + Without(b, fn)
    decreases |b|
  {
    if b == [] {
      assert a + b == a;
    } else {
      var init, last := b[..|b| - 1], b[|b| - 1];
      assert (a + b)[..|a + b| - 1] == a + init;
      WithoutConcat(a, init, fn);
      if last.fn != fn {
        assert Without(a, fn) + (Without(init, fn) + [last]) == (Without(a, fn) + Without(init, fn)) + [last];
      }
    }
  }

  lemma {:induction false} WithoutMembers(entries: seq<Entry>, fn: nat)
    ensures forall e :: e in Without(entries, fn) <==> e in entries && e.fn != fn
  {
    if entries != [] {
      var init, last := entries[..|entries| - 1], entries[|entries| - 1];
      assert entries == init + [last];
      WithoutMembers(init, fn);
    }
  }

  lemma {:induction false} WithoutOrdered(entries: seq<Entry>, fn: nat, next: nat)
    requires Ordered(entries, next)
    ensures Ordered(Without(entries, fn), next)
  {
    if entries != [] {
      WithoutOrdered(entries[..|entries| - 1], fn, entries[|entries| - 1].tag);
    }
  }

  /** `Without` keeps exactly the entries of other functions, in their order. */
  lemma WithoutKeeps(entries: seq<Entry>, fn: nat, next: nat)
    requires Ordered(entries, next)
    ensures Ordered(Without(entries, fn), next)
    ensures forall e :: e in Without(entries, fn) <==> e in entries && e.fn != fn
    ensures Tags(Without(entries, fn)) <= Tags(entries)
  {
    WithoutMembers(entries, fn);
    WithoutOrdered(entries, fn, next);
    hide Without;
    var r := Without(entries, fn);
    forall t | t in Tags(r)
      ensures t in Tags(entries)
    {
      var i :| 0 <= i < |r| && r[i].tag == t;
      assert r[i] in r;
      var j :| 0 <= j < |entries| && entries[j] == r[i];
    }
  }

  lemma TagsConcat(a: seq<Entry>, b: seq<Entry>)
    ensures Tags(a + b) == Tags(a) + Tags(b)
  {
    var c := a + b;
    forall t
      ensures t in Tags(c) <==> t in Tags(a) || t in Tags(b)
    {
      if t in Tags(a) {
        var i :| 0 <= i < |a| && a[i].tag == t;
        assert c[i].tag == t;
      } else if t in Tags(b) {
        var i :| 0 <= i < |b| && b[i].tag == t;
        assert c[|a| + i].tag == t;
      }
    }
  }

  lemma Sliced(entries: seq<Entry>, n: nat, next: nat)
    requires Ordered(entries, next) && n <= |entries|
    ensures Ordered(entries[..n], next) && Ordered(entries[n..], next)
    ensures forall t | t in Tags(entries[n..]) :: t < next
  {
  }

  lemma KeepStartFire(l: List, data: nat, start: nat)
    requires l.list.Some? && Ordered(l.list.value, l.next) && start <= |l.list.value|
    requires l.stack.Some? ==> l.requests == l.rounds + l.stack.value
    ensures Inv(StartFire(l.(firingStart := start), data))
  {
    Sliced(l.list.value, start, l.next);
    var t := StartFire(l.(firingStart := start), data);
    assert Pending(t) == l.list.value[start..];
    assert Tags([]) == {};
  }

  lemma CalledBeforePending(called: seq<Entry>, pending: seq<Entry>)
    requires forall i, j | 0 <= i < |called| && 0 <= j < |pending| :: called[i].tag < pending[j].tag
    ensures Tags(called) !! Tags(pending)
  {
  }

  lemma BooksAdd(called: seq<Entry>, pending: seq<Entry>, dropped: set<nat>, entered: set<nat>, next: nat,
                 more: seq<Entry>, next': nat)
    requires Books(called, pending, dropped, entered, next) && Ordered(called, next) && next <= next'
    requires forall t | t in Tags(more) :: next <= t < next'
    ensures Books(called, pending + more, dropped, entered + Tags(more), next')
  {
    TagsConcat(pending, more);
    forall i, j | 0 <= i < |called| && 0 <= j < |pending + more|
      ensures called[i].tag < (pending + more)[j].tag
    {
      if |pending| <= j { assert (pending + more)[j].tag in Tags(more); }
    }
  }

  lemma BooksRemove(called: seq<Entry>, pending: seq<Entry>, dropped: set<nat>, entered: set<nat>, next: nat, fn: nat)
    requires Books(called, pending, dropped, entered, next) && Ordered(pending, next)
    ensures Books(called, Without(pending, fn), dropped + (Tags(pending) - Tags(Without(pending, fn))), entered, next)
  {
    WithoutKeeps(pending, fn, next);
    CalledBeforePending(called, pending);
    hide Tags;
    var rest := Without(pending, fn);
    forall i, j | 0 <= i < |called| && 0 <= j < |rest|
      ensures called[i].tag < rest[j].tag
    {
      assert rest[j] in pending;
    }
  }

  lemma KeepAdd(l: List, fns: seq<nat>)
    requires Inv(l) && Open(l)
    ensures Inv(Add(l, fns))
  {
    hide Tags, Books, Push;
    if l.list.Some? {
      if l.firing { KeepAddFiring(l, fns); } else { KeepAddIdle(l, fns); }
    }
  }

  lemma KeepAddIdle(l: List, fns: seq<nat>)
    requires Inv(l) && l.list.Some? && !l.firing
    ensures Inv(Add(l, fns))
  {
    hide Tags, Books, Push, RoundOk, Ordered, StartFire;
    var entries := l.list.value;
    PushOrdered(entries, l.options.unique, l.next, fns);
    var pushed := Push(entries, l.options.unique, l.next, fns);
    var next := l.next + |pushed| - |entries|;
    Later(l.called, l.next, next);
    if l.memory.Some? { KeepStartFire(l.(list := Some(pushed), next := next), l.memory.value, |entries|); }
  }

  lemma KeepAddFiring(l: List, fns: seq<nat>)
    requires Inv(l) && Open(l) && l.list.Some? && l.firing
    ensures Inv(Add(l, fns))
  {
    hide Tags, Push, StartFire, Ordered, RoundOk;
    AddedRound(l, fns);
  }

  lemma AddedRound(l: List, fns: seq<nat>)
    requires l.list.Some? && l.firing && Ordered(l.list.value, l.next) && Ordered(l.called, l.next) && RoundOk(l)
    ensures var t := Add(l, fns); Ordered(t.list.value, t.next) && Ordered(t.called, t.next) && RoundOk(t)
  {
    hide Tags, Books, Push, Has, StartFire, Ordered;
    var entries := l.list.value;
    PushOrdered(entries, l.options.unique, l.next, fns);
    var pushed := Push(entries, l.options.unique, l.next, fns);
    var more, next := pushed[|entries|..], l.next + |pushed| - |entries|;
    Sliced(pushed, |entries|, next);
    Later(l.called, l.next, next);
    BooksAdd(l.called, Pending(l), l.dropped, l.entered, l.next, more, next);
    Lengthened(entries, pushed, Turn(l));
  }

  lemma Later(entries: seq<Entry>, next: nat, next': nat)
    requires Ordered(entries, next) && next <= next'
    ensures Ordered(entries, next')
  {
  }

  lemma Lengthened(entries: seq<Entry>, pushed: seq<Entry>, n: nat)
    requires n <= |entries| && entries <= pushed
    ensures pushed[n..] == entries[n..] + pushed[|entries|..]
  {
  }

  lemma KeepRemove(l: List, fn: nat)
    requires Inv(l) && Open(l)
    requires l.list.Some? && l.firing ==> 0 <= l.firingIndex + 1 <= |l.list.value|
    ensures Inv(Remove(l, fn))
  {
    hide Tags, Books, Without, Ordered, RoundOk;
    if l.list.Some? {
      WithoutKeeps(l.list.value, fn, l.next);
      if l.firing { RemovedRound(l, fn); }
    }
  }

  lemma RemovedRound(l: List, fn: nat)
    requires l.list.Some? && l.firing && l.inHandler && Ordered(l.list.value, l.next) && RoundOk(l)
    ensures RoundOk(Remove(l, fn))
  {
    hide Tags, Books, Without, Ordered;
    var entries, n := l.list.value, l.firingIndex + 1;
    var had, pending := entries[..n], entries[n..];
    RemovedPending(entries, n, fn);
    Sliced(entries, n, l.next);
    BooksRemove(l.called, pending, l.dropped, l.entered, l.next, fn);
    assert Pending(Remove(l, fn)) == Without(pending, fn);
  }

  lemma RemovedPending(entries: seq<Entry>, n: nat, fn: nat)
    requires n <= |entries|
    ensures |Without(entries[..n], fn)| <= |Without(entries, fn)|
    ensures Without(entries, fn)[|Without(entries[..n], fn)|..] == Without(entries[n..], fn)
  {
    hide Without;
    assert entries == entries[..n] + entries[n..];
    WithoutConcat(entries[..n], entries[n..], fn);
  }

  lemma KeepCall(l: List)
    requires Inv(l) && CanCall(l)
    ensures Inv(CallNext(l))
  {
    var l', e := CallNext(l), l.list.value[l.firingIndex];
    assert Pending(l) == [e] + Pending(l');
    TagsConcat([e], Pending(l'));
    TagsConcat(l.called, [e]);
    assert Tags([e]) == {e.tag} by { assert [e][0].tag == e.tag; }
    CalledBeforePending(l.called, Pending(l));
  }

  lemma KeepFinish(l: List)
    requires Inv(l) && l.firing
    ensures Inv(Finish(l))
  {
    var t := l.(firing := false, inHandler := false);
    if l.list.Some? && l.stack.Some? && l.stack.value != [] {
      var u := t.(stack := Some(l.stack.value[1..]), rounds := l.rounds + [l.stack.value[0]]);
      assert l.rounds + l.stack.value == u.rounds + u.stack.value;
      KeepStartFire(u, l.stack.value[0], 0);
      assert u.(firingStart := 0) == u;
    }
  }

  lemma KeepFire(l: List, data: nat)
    requires Inv(l) && Open(l)
    ensures Inv(FireWith(l, data))
  {
    if l.list.Some? && (!l.fired || l.stack.Some?) {
      var t := l.(requests := l.requests + [data]);
      if !l.firing {
        var u := t.(rounds := l.rounds + [data]);
        if l.stack.Some? { assert u.requests == u.rounds + u.stack.value; }
        KeepStartFire(u, data, 0);
        assert u.(firingStart := 0) == u;
      } else {
        var u := FireWith(l, data);
        assert u.requests == u.rounds + u.stack.value;
        assert Pending(u) == Pending(l);
      }
    }
  }

  lemma ForgetMemory(l: List)
    requires Inv(l)
    ensures Inv(l.(memory := None))
  {
    if l.firing && l.list.Some? { assert Pending(l.(memory := None)) == Pending(l); }
  }

  lemma KeepReturn(l: List, stop: bool)
    requires Inv(l) && l.firing && l.inHandler
    ensures Inv(Return(l, stop))
  {
    if stop && l.options.stopOnFalse {
      var t := l.(memory := None);
      if l.list.Some? { assert Pending(t) == Pending(l); }
      KeepFinish(t);
    } else if l.list.Some? {
      assert Pending(Return(l, stop)) == Pending(l);
    }
  }

  lemma KeepLock(l: List)
    requires Inv(l)
    ensures Inv(Lock(l)) && Inv(Disable(l))
  {
    if l.list.Some? && l.firing && l.memory.Some? {
      assert Pending(Lock(l)) == Pending(l);
    }
  }

  lemma Keep(l: List, a: Action)
    requires Inv(l) && Can(l, a)
    ensures Inv(Do(l, a))
  {
    match a
    case DoAdd(fns) => KeepAdd(l, fns);
    case DoRemove(fn) => KeepRemove(l, fn);
    case DoFire(data) => KeepFire(l, data);
    case DoDisable => KeepLock(l);
    case DoLock => KeepLock(l);
    case DoCall => KeepCall(l);
    case DoReturn(stop) => KeepReturn(l, stop);
    case DoFinish => KeepFinish(l);
  }

  lemma {:induction false} KeepRun(l: List, acts: seq<Action>)
    requires Inv(l) && Legal(l, acts)
    ensures Inv(Exec(l, acts))
    decreases |acts|
  {
    hide Inv;
    if acts != [] {
      Keep(l, acts[0]);
      KeepRun(Do(l, acts[0]), acts[1..]);
    }
  }

  // ---- What every run guarantees ----

  /** The loop never runs past the list: while a list is firing it can always call or finish, a handler is always
      inside the list, and `remove` finds its indexes in range, whatever the handlers added and removed. */
  lemma LoopStaysInList(options: Options, acts: seq<Action>)
    requires Legal(New(options), acts)
    ensures var l := Exec(New(options), acts);
            l.firing && !l.inHandler ==> CanCall(l) || CanFinish(l)
    ensures var l := Exec(New(options), acts);
            l.firing && l.list.Some? ==> 0 <= Turn(l) <= |l.list.value| == l.firingLength
    ensures forall fn | Open(Exec(New(options), acts)) :: Can(Exec(New(options), acts), DoRemove(fn))
  {
    KeepRun(New(options), acts);
  }

  /** At any moment of a round every entry due in it was called, is pending or was removed before its turn, and only
      one of these; calls were made in the order of the list, so none was made twice. */
  lemma EveryEntryOnce(options: Options, acts: seq<Action>)
    requires Legal(New(options), acts)
    requires Exec(New(options), acts).firing && Exec(New(options), acts).list.Some?
    ensures var l := Exec(New(options), acts);
            && 0 <= Turn(l) <= |l.list.value|
            && l.entered == Tags(l.called) + Tags(Pending(l)) + l.dropped
            && Tags(l.called) !! Tags(Pending(l)) !! l.dropped
            && Ordered(l.called, l.next)
  {
    KeepRun(New(options), acts);
    CalledBeforePending(Exec(New(options), acts).called, Pending(Exec(New(options), acts)));
  }

  /** When a round ends because the list is exhausted, every entry due in it and not removed before its turn was
      called, exactly once. */
  lemma RoundIsComplete(options: Options, acts: seq<Action>)
    requires Legal(New(options), acts)
    requires CanFinish(Exec(New(options), acts)) && Exec(New(options), acts).list.Some?
    ensures var l := Exec(New(options), acts);
            Tags(l.called) == l.entered - l.dropped && Ordered(l.called, l.next)
  {
    KeepRun(New(options), acts);
    var l := Exec(New(options), acts);
    assert Pending(l) == [];
    assert Tags(Pending(l)) == {};
  }

  /** On a repeatable list the rounds are begun in the order of the fires that were accepted, and when nothing fires
      all have been. */
  lemma FiresInOrder(options: Options, acts: seq<Action>)
    requires Legal(New(options), acts) && Exec(New(options), acts).stack.Some?
    ensures var l := Exec(New(options), acts);
            && l.rounds <= l.requests
            && (!l.firing ==> l.rounds == l.requests)
  {
    KeepRun(New(options), acts);
  }

  // ---- `empty` while firing ----

  /** `empty` (3140-3144): it clears the list but not the firing index. */
  function Empty(l: List): List {
    l.(list := Some([]), firingLength := 0)
  }

  /** The loop can go on from its index. */
  predicate Resumable(l: List) {
    l.firing && !l.inHandler && l.list.Some? && 0 <= l.firingIndex && l.firingLength == |l.list.value|
  }

  /** The rest of the round, over handlers that touch nothing. */
  function Drain(l: List): List
    requires Resumable(l)
    decreases |l.list.value| - l.firingIndex
  {
    if CanCall(l) then Drain(Return(CallNext(l), false)) else l
  }

  lemma {:induction false} DrainCalls(l: List)
    requires Resumable(l)
    ensures Drain(l).called == l.called + (if l.firingIndex <= |l.list.value| then l.list.value[l.firingIndex..] else [])
    ensures Resumable(Drain(l)) && CanFinish(Drain(l))
    decreases |l.list.value| - l.firingIndex
  {
    if CanCall(l) {
      DrainCalls(Return(CallNext(l), false));
      assert l.list.value[l.firingIndex..] == [l.list.value[l.firingIndex]] + l.list.value[l.firingIndex + 1..];
    }
  }

  lemma {:induction false} PushSome(entries: seq<Entry>, unique: bool, next: nat, fns: seq<nat>)
    ensures entries == [] ==> (Push(entries, unique, next, fns) == [] <==> fns == [])
  {
  }

  /** The bookkeeping is right for `add` and `remove`, not for `empty`: of the entries pushed after it in the same
      handler exactly those at positions below the turns already taken are skipped, and the rest of the round calls the
      others. So none is skipped if and only if nothing is pushed or no entry that had its turn was left in the list. */
  lemma EmptySkips(options: Options, acts: seq<Action>, fns: seq<nat>)
    requires Legal(New(options), acts)
    requires Exec(New(options), acts).firing && Exec(New(options), acts).inHandler
    requires Exec(New(options), acts).list.Some?
    ensures var l := Exec(New(options), acts);
            var pushed, turns := Push([], l.options.unique, l.next, fns), l.firingIndex + 1;
            var t := Return(Add(Empty(l), fns), false);
            && Resumable(t) && t.list == Some(pushed)
            && Drain(t).called == l.called + (if turns <= |pushed| then pushed[turns..] else [])
            && (Drain(t).called == l.called + pushed <==> fns == [] || l.firingIndex == -1)
  {
    hide Inv, Legal, Exec, Add, Empty, Return, Drain, Push;
    NewKept(options);
    KeepRun(New(options), acts);
    var l := Exec(New(options), acts);
    AfterEmpty(l, fns);
    DrainCalls(Return(Add(Empty(l), fns), false));
    PushSome([], l.options.unique, l.next, fns);
    Rest(l.called, Push([], l.options.unique, l.next, fns), l.firingIndex + 1);
  }

  lemma NewKept(options: Options)
    ensures Inv(New(options))
  {
  }

  lemma AfterEmpty(l: List, fns: seq<nat>)
    requires Inv(l) && l.firing && l.inHandler && l.list.Some?
    ensures Add(Empty(l), fns).firing && Add(Empty(l), fns).inHandler
    ensures var t := Return(Add(Empty(l), fns), false);
            && Resumable(t) && t.list == Some(Push([], l.options.unique, l.next, fns))
            && t.firingIndex == l.firingIndex + 1 && t.called == l.called
  {
    hide Push, Tags, Books, Ordered, StartFire;
  }

  /** All of a list is left behind a position only if that is the first one or there is nothing. */
  lemma Rest(called: seq<Entry>, pushed: seq<Entry>, turns: nat)
    ensures called + (if turns <= |pushed| then pushed[turns..] else []) == called + pushed <==> pushed == [] || turns == 0
  {
    var rest := if turns <= |pushed| then pushed[turns..] else [];
    if called + rest == called + pushed {
      assert |called + rest| == |called| + |rest|;
    }
  }

  const PLAIN := Options(false, false, false, false)

  /** The first handler of a list is running. */
  lemma FirstRuns()
    ensures var acts := [DoAdd([1]), DoFire(7), DoCall];
            && Legal(New(PLAIN), acts)
            && var l := Exec(New(PLAIN), acts);
               && l.firing && l.inHandler && l.list.Some? && l.called == [Entry(1, 0)] && l.firingIndex == 0 && l.next == 1
               && !l.options.unique
  {
    hide Push;
    var acts := [DoAdd([1]), DoFire(7), DoCall];
    PushSingle(1, 0);
    var l1 := Do(New(PLAIN), acts[0]);
    assert l1.list == Some([Entry(1, 0)]);
    var l2 := Do(l1, acts[1]);
    var l3 := Do(l2, acts[2]);
    assert acts[1..] == [DoFire(7), DoCall] && acts[1..][1..] == [DoCall] && acts[1..][1..][1..] == [];
    assert Legal(l3, []) && Legal(l2, [DoCall]) && Legal(l1, [DoFire(7), DoCall]);
    assert Exec(l1, acts[1..]) == Exec(l2, [DoCall]) == Exec(l3, []) == l3;
  }

  /** It happens: a handler empties the list and adds two others, of which the first is not called. */
  lemma EmptyHappens()
    ensures var acts := [DoAdd([1]), DoFire(7), DoCall];
            && Legal(New(PLAIN), acts)
            && var l := Exec(New(PLAIN), acts);
               && l.firing && l.inHandler && l.list.Some? && l.called == [Entry(1, 0)]
               && Resumable(Return(Add(Empty(l), [2, 3]), false))
               && Drain(Return(Add(Empty(l), [2, 3]), false)).called == [Entry(1, 0), Entry(3, 2)]
  {
    hide Legal, Exec, Push, Add, Empty, Return, Drain, New;
    var acts := [DoAdd([1]), DoFire(7), DoCall];
    FirstRuns();
    EmptySkips(PLAIN, acts, [2, 3]);
    PushTwo(1);
    assert [Entry(2, 1), Entry(3, 2)][1..] == [Entry(3, 2)];
  }

  lemma PushSingle(fn: nat, next: nat)
    ensures Push([], false, next, [fn]) == [Entry(fn, next)]
  {
    assert [fn][1..] == [] && [] + [Entry(fn, next)] == [Entry(fn, next)];
    assert Push([Entry(fn, next)], false, next + 1, []) == [Entry(fn, next)];
  }

  lemma PushTwo(next: nat)
    ensures Push([], false, next, [2, 3]) == [Entry(2, next), Entry(3, next + 1)]
  {
    assert [2, 3][1..] == [3] && [3][1..] == [];
    assert Push([Entry(2, next)], false, next + 1, [3]) == Push([Entry(2, next), Entry(3, next + 1)], false, next + 2, []);
  }

  // ---- The closure as an object ----

  /** The closure variables; `l` is the list they mean, with the history of the current round. */
  class Callbacks {
    const options: Options
    var list: Option<seq<Entry>>
    var stack: Option<seq<nat>>
    var memory: Option<nat>
    var firing: bool
    var fired: bool
    var firingStart: nat
    var firingIndex: int
    var firingLength: nat
    var next: nat
    ghost var l: List

    ghost predicate Means(l: List)
      reads this
    {
      && l.options == options && l.list == list && l.stack == stack && l.memory == memory
      && l.firing == firing && l.fired == fired && l.firingStart == firingStart && l.firingIndex == firingIndex
      && l.firingLength == firingLength && l.next == next
    }

    ghost predicate Valid()
      reads this
    {
      Means(l) && Inv(l)
    }

    constructor (options: Options)
      ensures Valid() && l == New(options)
    {
      this.options := options;
      list, memory, firing, fired, firingStart, firingIndex, firingLength, next := Some([]), None, false, false, 0, 0, 0, 0;
      stack := if options.once then None else Some([]);
      l := New(options);
    }

    /** `fire` up to its loop (3055-3060). */
    method Fire(value: nat, ghost l0: List)
      requires list.Some? && Means(l0)
      modifies this
      ensures l == StartFire(l0, value) && Means(l)
    {
      memory := if options.memory then Some(value) else None;
      fired := true;
      firingIndex := firingStart;
      firingStart := 0;
      firingLength := |list.value|;
      firing := true;
      l := StartFire(l0, value);
    }

    /** The pushes of `add` (3087-3099). */
    method PushAll(fns: seq<nat>)
      requires list.Some?
      modifies this`list, this`next
      ensures list == Some(Push(old(list).value, options.unique, old(next), fns))
      ensures next == old(next) + |list.value| - |old(list).value|
    {
      for i := 0 to |fns|
        invariant list.Some?
        invariant Push(old(list).value, options.unique, old(next), fns) == Push(list.value, options.unique, next, fns[i..])
        invariant next == old(next) + |list.value| - |old(list).value|
      {
        var has := Contains(fns[i]);
        if !options.unique || !has {
          list := Some(list.value + [Entry(fns[i], next)]);
          next := next + 1;
        }
        assert fns[i..][1..] == fns[i + 1..];
      }
    }

    /** `add` (3083-3112). */
    method AddAll(fns: seq<nat>)
      requires Valid() && Open(l)
      modifies this
      ensures Valid() && l == Add(old(l), fns)
    {
      hide Inv, StartFire, Tags, Push;
      KeepAdd(l, fns);
      if list == None { return; }
      ghost var after := Add(l, fns);
      var start := |list.value|;
      PushAll(fns);
      if firing {
        firingLength := |list.value|;
        l := after;
      } else if memory.Some? {
        FireFrom(start, l.(list := list, next := next));
      } else {
        l := after;
      }
    }

    /** `add` fires what it added at once (3106-3108). */
    method FireFrom(start: nat, ghost l0: List)
      requires list.Some? && memory.Some? && Means(l0)
      modifies this
      ensures l == StartFire(l0.(firingStart := start), l0.memory.value) && Means(l)
    {
      hide StartFire;
      firingStart := start;
      Fire(memory.value, l0.(firingStart := start));
    }

    /** `has` (3136-3138) for a function. */
    method Contains(fn: nat) returns (has: bool)
      requires list.Some?
      ensures has == Has(list.value, fn)
    {
      var index := InArray(fn, 0);
      has := -1 < index;
    }

    /** `jQuery.inArray(fn, list, from)`. */
    method InArray(fn: nat, from: nat) returns (index: int)
      requires list.Some? && from <= |list.value|
      ensures Found(list.value, from, index, fn) && -1 <= index
    {
      index := from;
      while index < |list.value|
        invariant from <= index <= |list.value|
        invariant Free(list.value, from, index, fn)
      {
        if list.value[index].fn == fn { return; }
        index := index + 1;
      }
      index := -1;
    }

    /** A running firing has `passed` entries behind its turn and ends with the list; without one nothing has moved. */
    ghost predicate Moved(passed: int, index0: int, length0: int)
      reads this
      requires list.Some?
    {
      if firing then firingIndex + 1 == passed && firingLength == |list.value|
      else firingIndex == index0 && firingLength == length0
    }

    /** One splice of `remove` (3119-3128): it moves the indexes of a running firing. */
    method Splice(index: nat, ghost passed: int, ghost index0: int, ghost length0: int)
      requires list.Some? && index < |list.value| && Moved(passed, index0, length0)
      modifies this`list, this`firingLength, this`firingIndex
      ensures list == Some(Cut(old(list).value, index))
      ensures Moved(if index < passed then passed - 1 else passed, index0, length0)
    {
      list := Some(Cut(list.value, index));
      if firing {
        if index <= firingLength { firingLength := firingLength - 1; }
        if index <= firingIndex { firingIndex := firingIndex - 1; }
      }
    }

    /** The loop of `remove` for one function (3118-3129); `turn` entries have had their turn. */
    method SpliceAll(fn: nat, ghost turn: nat)
      requires list.Some? && turn <= |list.value| && Moved(turn, firingIndex, firingLength)
      modifies this`list, this`firingLength, this`firingIndex
      ensures list == Some(Without(old(list).value, fn))
      ensures Moved(|Without(old(list).value[..turn], fn)|, old(firingIndex), old(firingLength))
    {
      ghost var orig := list.value;
      ghost var k: nat, passed := 0, turn;
      var from: nat := 0;
      NoneSpliced(orig, fn, turn);
      hide *;
      var index := InArray(fn, 0);
      while -1 < index
        invariant list.Some? && Found(list.value, from, index, fn) && -1 <= index
        invariant Progress(orig, list.value, fn, turn, k, from, passed)
        invariant Moved(passed, old(firingIndex), old(firingLength))
        decreases |list.value|
      {
        ghost var k', passed' := Spliced(orig, list.value, fn, turn, k, from, passed, index);
        Splice(index, passed, old(firingIndex), old(firingLength));
        k, passed := k', passed';
        from := index;
        index := InArray(fn, from);
      }
      Unspliced(orig, list.value, fn, turn, k, from, passed);
    }

    /** `remove` (3114-3133) of one function. */
    method RemoveAll(fn: nat)
      requires Valid() && Open(l)
      modifies this
      ensures Valid() && l == Remove(old(l), fn)
    {
      KeepRemove(l, fn);
      if list == None { return; }
      SpliceAll(fn, if firing then firingIndex + 1 else 0);
      hide Inv, Tags, Without;
      l := Remove(l, fn);
    }

    /** `fireWith` (3167-3178). */
    method FireAll(value: nat)
      requires Valid() && Open(l)
      modifies this
      ensures Valid() && l == FireWith(old(l), value)
    {
      KeepFire(l, value);
      if list.Some? && (!fired || stack.Some?) {
        if firing {
          if stack.Some? { stack := Some(stack.value + [value]); }
          l := FireWith(l, value);
        } else {
          hide Inv;
          Fire(value, l.(requests := l.requests + [value], rounds := l.rounds + [value]));
        }
      }
    }

    /** The end of `fire` (3067-3078). */
    method FinishFire()
      requires Valid() && firing
      modifies this
      ensures Valid() && l == Finish(old(l))
    {
      hide Inv;
      KeepFinish(l);
      firing := false;
      if list == None {
        l := Finish(l);
      } else if stack.Some? {
        if stack.value != [] {
          var value := stack.value[0];
          stack := Some(stack.value[1..]);
          Fire(value, l.(firing := false, inHandler := false, stack := stack, rounds := l.rounds + [value]));
        } else {
          l := Finish(l);
        }
      } else if memory.Some? {
        list := Some([]);
        l := Finish(l);
      } else {
        list, stack, memory := None, None, None;
        l := Finish(l);
      }
    }

    /** The loop calls the next handler (3061-3062). */
    method NextHandler() returns (fn: nat)
      requires Valid() && CanCall(l)
      modifies this`l
      ensures Valid() && l == CallNext(old(l)) && fn == list.value[firingIndex].fn
    {
      hide Inv;
      KeepCall(l);
      fn := list.value[firingIndex].fn;
      l := CallNext(l);
    }

    /** The handler returned (3062-3065). */
    method HandlerReturned(stop: bool)
      requires Valid() && firing && l.inHandler
      modifies this
      ensures Valid() && l == Return(old(l), stop)
    {
      hide Inv, Finish;
      KeepReturn(l, stop);
      if stop && options.stopOnFalse {
        ForgetMemory(l);
        memory := None;
        l := l.(memory := None);
        FinishFire();
      } else {
        firingIndex := firingIndex + 1;
        l := Return(l, stop);
      }
    }

    /** `disable` (3146-3149). */
    method DisableList()
      requires Valid()
      modifies this`list, this`stack, this`memory, this`l
      ensures Valid() && l == Disable(old(l))
    {
      hide Inv;
      KeepLock(l);
      list, stack, memory := None, None, None;
      l := Disable(l);
    }

    /** `lock` (3155-3161). */
    method LockList()
      requires Valid()
      modifies this`list, this`stack, this`memory, this`l
      ensures Valid() && l == Lock(old(l))
    {
      hide Inv;
      KeepLock(l);
      stack := None;
      if memory == None {
        list, stack, memory := None, None, None;
      }
      l := Lock(l);
    }
  }

  /** `entries.splice(index, 1)`. */
  function Cut(entries: seq<Entry>, index: nat): (r: seq<Entry>)
    requires index < |entries|
    ensures |r| == |entries| - 1
  {
    entries[..index] + entries[index + 1..]
  }

  ghost predicate Free(entries: seq<Entry>, from: nat, to: nat, fn: nat) {
    to <= |entries| && forall j | from <= j < to :: entries[j].fn != fn
  }

  /** `index` is the first position of `fn` from `from` on, or -1 if there is none. */
  ghost predicate Found(entries: seq<Entry>, from: nat, index: int, fn: nat) {
    if index == -1 then Free(entries, from, |entries|, fn)
    else from <= index < |entries| && entries[index].fn == fn && Free(entries, from, index, fn)
  }

  lemma {:induction false} WithoutNone(entries: seq<Entry>, fn: nat)
    requires Free(entries, 0, |entries|, fn)
    ensures Without(entries, fn) == entries
  {
    if entries != [] {
      WithoutNone(entries[..|entries| - 1], fn);
    }
  }

  lemma WithoutMore(orig: seq<Entry>, k: nat, to: nat, fn: nat)
    requires k <= to <= |orig| && Free(orig[k..to], 0, to - k, fn)
    ensures Without(orig[..to], fn) == Without(orig[..k], fn) + orig[k..to]
  {
    WithoutNone(orig[k..to], fn);
    WithoutConcat(orig[..k], orig[k..to], fn);
    assert orig[..k] + orig[k..to] == orig[..to];
  }

  /** The loop of `remove` has dealt with `orig[..k]`; `passed` of the remaining entries come before the turn. */
  ghost predicate Progress(orig: seq<Entry>, entries: seq<Entry>, fn: nat, turn: nat, k: nat, from: nat, passed: int) {
    && k <= |orig| && turn <= |orig|
    && entries == Without(orig[..k], fn) + orig[k..] && from == |Without(orig[..k], fn)|
    && passed == if k <= turn then from + turn - k else |Without(orig[..turn], fn)|
  }

  lemma NoneSpliced(orig: seq<Entry>, fn: nat, turn: nat)
    requires turn <= |orig|
    ensures Progress(orig, orig, fn, turn, 0, 0, turn)
  {
    assert orig[..0] == [];
  }

  /** One splice at the next entry of `fn`. */
  lemma Spliced(orig: seq<Entry>, entries: seq<Entry>, fn: nat, turn: nat, k: nat, from: nat, passed: int, index: nat)
    returns (k': nat, passed': int)
    requires Progress(orig, entries, fn, turn, k, from, passed)
    requires Found(entries, from, index, fn)
    ensures from <= index < |entries| && Progress(orig, Cut(entries, index), fn, turn, k', index, passed')
    ensures passed' == if index < passed then passed - 1 else passed
  {
    hide Free, Without, Cut;
    k', passed' := k + (index - from) + 1, if index < passed then passed - 1 else passed;
    var had, p := Without(orig[..k], fn), k + (index - from);
    NextFound(orig, had, k, index - from, fn);
    WithoutMore(orig, k, p, fn);
    WithoutNext(orig, p, fn);
    SplicedTurn(orig, fn, turn, k, p);
    CutMiddle(had, orig, k, index - from);
  }

  lemma WithoutNext(orig: seq<Entry>, p: nat, fn: nat)
    requires p < |orig| && orig[p].fn == fn
    ensures Without(orig[..p + 1], fn) == Without(orig[..p], fn)
  {
    assert orig[..p + 1][..p] == orig[..p];
  }

  lemma CutMiddle(had: seq<Entry>, orig: seq<Entry>, k: nat, n: nat)
    requires k + n < |orig|
    ensures Cut(had + orig[k..], |had| + n) == (had + orig[k..k + n]) + orig[k + n + 1..]
  {
  }

  /** The entries from `k` on are free of `fn` up to the `n`-th. */
  lemma NextFound(orig: seq<Entry>, had: seq<Entry>, k: nat, n: nat, fn: nat)
    requires k <= |orig| && Found(had + orig[k..], |had|, |had| + n, fn)
    ensures k + n < |orig| && orig[k + n].fn == fn && Free(orig[k..k + n], 0, n, fn)
  {
    var entries := had + orig[k..];
    assert orig[k + n] == entries[|had| + n];
    var part := orig[k..k + n];
    forall j | 0 <= j < n
      ensures part[j].fn != fn
    {
      assert entries[|had| + j] == orig[k + j];
    }
  }

  /** What the entries before the turn leave, once `orig[..p]` has been dealt with. */
  lemma SplicedTurn(orig: seq<Entry>, fn: nat, turn: nat, k: nat, p: nat)
    requires k <= p < |orig| && turn <= |orig| && Free(orig[k..p], 0, p - k, fn)
    ensures k <= turn <= p ==> |Without(orig[..turn], fn)| == |Without(orig[..k], fn)| + turn - k
    ensures turn < k ==> |Without(orig[..turn], fn)| <= |Without(orig[..k], fn)|
  {
    if k <= turn <= p {
      assert forall j | 0 <= j < turn - k :: orig[k..turn][j] == orig[k..p][j];
      WithoutMore(orig, k, turn, fn);
    } else if turn < k {
      assert orig[..turn] + orig[turn..k] == orig[..k];
      WithoutConcat(orig[..turn], orig[turn..k], fn);
    }
  }

  /** No splice is left to make. */
  lemma Unspliced(orig: seq<Entry>, entries: seq<Entry>, fn: nat, turn: nat, k: nat, from: nat, passed: int)
    requires Progress(orig, entries, fn, turn, k, from, passed) && Found(entries, from, -1, fn)
    ensures entries == Without(orig, fn) && passed == |Without(orig[..turn], fn)|
  {
    forall j | 0 <= j < |orig| - k
      ensures orig[k..|orig|][j].fn != fn
    {
      assert entries[from + j] == orig[k..][j];
    }
    WithoutMore(orig, k, |orig|, fn);
    assert orig[..|orig|] == orig && orig[k..|orig|] == orig[k..];
    if k <= turn {
      assert forall j | 0 <= j < turn - k :: orig[k..turn][j] == orig[k..][j];
      WithoutMore(orig, k, turn, fn);
    }
  }
}
