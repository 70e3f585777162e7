/** `jQuery.Deferred`: a state and three `Callbacks` lists. The first three entries of the done and fail lists are the
    deferred's own handlers; they run no outside code, so a call of one of them is a single step. Handlers do not
    throw. Steps of lists that fire inside each other may interleave in any order here, of which a single thread
    allows only some. */
module JQueryDeferred {
  import opened Wrappers
  import opened C = JQueryCallbacks

  datatype State = Unsettled | Resolved | Rejected

  datatype Side = Done | Fail

  /** A list with all handlers ever added to it, and all calls of them with the data they got. */
  datatype Half = Half(list: List, added: seq<nat>, log: seq<(nat, nat)>)

  /** `step` counts the own handlers that ran, `states` are the values the state was set to and `settles` all calls
      of `resolveWith` and `rejectWith`. */
  datatype Deferred = Deferred(state: State, done: Half, fail: Half, progress: List, step: nat, states: seq<State>,
                               settles: seq<(Side, nat)>)

  const ONCE_MEMORY := Options(true, true, false, false)
  const MEMORY := Options(false, true, false, false)

  function Opposite(s: Side): Side {
    if s == Done then Fail else Done
  }

  function Final(s: Side): State {
    if s == Done then Resolved else Rejected
  }

  function Of(d: Deferred, s: Side): Half {
    if s == Done then d.done else d.fail
  }

  function With(d: Deferred, s: Side, h: Half): Deferred {
    if s == Done then d.(done := h) else d.(fail := h)
  }

  function WithList(d: Deferred, s: Side, l: List): Deferred {
    With(d, s, Of(d, s).(list := l))
  }

  function NewHalf(): Half {
    Half(C.Add(C.New(ONCE_MEMORY), [0, 1, 2]), [], [])
  }

  function New(): Deferred {
    Deferred(Unsettled, NewHalf(), NewHalf(), C.New(MEMORY), 0, [], [])
  }

  // ---- Steps ----

  /** `resolveWith` and `rejectWith` (3266). */
  function Settle(d: Deferred, s: Side, data: nat): Deferred {
    WithList(d, s, C.FireWith(Of(d, s).list, data)).(settles := d.settles + [(s, data)])
  }

  /** `done` and `fail` (3249). */
  function Listen(d: Deferred, s: Side, fns: seq<nat>): Deferred {
    var h := Of(d, s);
    With(d, s, h.(list := C.Add(h.list, fns), added := h.added + fns))
  }

  /** The own handlers of a list (3253-3258): set the state, disable the opposite list, lock the progress list. */
  function Own(d: Deferred, s: Side, k: nat): Deferred {
    var t := d.(step := d.step + 1);
    if k == 0 then t.(state := Final(s), states := d.states + [Final(s)])
    else if k == 1 then WithList(t, Opposite(s), C.Disable(Of(d, Opposite(s)).list))
    else t.(progress := C.Lock(d.progress))
  }

  function Next(l: List): Entry
    requires C.CanCall(l)
  {
    l.list.value[l.firingIndex]
  }

  /** The loop of a list calls its next handler. */
  function Call(d: Deferred, s: Side): Deferred
    requires C.CanCall(Of(d, s).list)
  {
    var h := Of(d, s);
    var e := Next(h.list);
    if e.tag < 3 then Own(WithList(d, s, C.Return(C.CallNext(h.list), false)), s, e.tag)
    else With(d, s, h.(list := C.CallNext(h.list), log := h.log + [(e.fn, h.list.data)]))
  }

  datatype Action =
    | DoSettle(s: Side, data: nat)
    | DoListen(s: Side, fns: seq<nat>)
    | DoCall(s: Side)
    | DoReturn(s: Side)
    | DoFinish(s: Side)
    | DoProgress(a: C.Action)

  /** Outside code runs only inside a handler or while nothing fires. */
  predicate Open(d: Deferred) {
    C.Open(d.done.list) && C.Open(d.fail.list) && C.Open(d.progress)
  }

  /** Of the progress list outside code reaches `add` and `fireWith` only. */
  predicate CanProgress(d: Deferred, a: C.Action) {
    && C.Can(d.progress, a)
    && (a.DoAdd? || a.DoFire? ==> Open(d))
    && (a.DoAdd? || a.DoFire? || a.DoCall? || a.DoReturn? || a.DoFinish?)
  }

  predicate Can(d: Deferred, a: Action) {
    match a
    case DoSettle(_, _) => Open(d)
    case DoListen(_, _) => Open(d)
    case DoCall(s) => C.CanCall(Of(d, s).list)
    case DoReturn(s) => Of(d, s).list.firing && Of(d, s).list.inHandler
    case DoFinish(s) => C.CanFinish(Of(d, s).list)
    case DoProgress(b) => CanProgress(d, b)
  }

  function Do(d: Deferred, a: Action): Deferred
    requires Can(d, a)
  {
    match a
    case DoSettle(s, data) => Settle(d, s, data)
    case DoListen(s, fns) => Listen(d, s, fns)
    case DoCall(s) => Call(d, s)
    case DoReturn(s) => WithList(d, s, C.Return(Of(d, s).list, false))
    case DoFinish(s) => WithList(d, s, C.Finish(Of(d, s).list))
    case DoProgress(b) => d.(progress := C.Do(d.progress, b))
  }

  predicate Legal(d: Deferred, acts: seq<Action>)
    decreases |acts|
  {
    acts == [] || (Can(d, acts[0]) && Legal(Do(d, acts[0]), acts[1..]))
  }

  function Exec(d: Deferred, acts: seq<Action>): Deferred
    requires Legal(d, acts)
    decreases |acts|
  {
    if acts == [] then d else Exec(Do(d, acts[0]), acts[1..])
  }

  // ---- The invariant ----

  function Fns(entries: seq<Entry>): (r: seq<nat>)
    ensures |r| == |entries|
  {
    seq(|entries|, i requires 0 <= i < |entries| => entries[i].fn)
  }

  /** The calls of `fns` with `data`. */
  function Calls(fns: seq<nat>, data: nat): (r: seq<(nat, nat)>)
    ensures |r| == |fns|
  {
    seq(|fns|, i requires 0 <= i < |fns| => (fns[i], data))
  }

  /** The own handlers come first in the list, and then all that was added. */
  ghost predicate Whole(h: Half) {
    && h.list.list.Some? && |h.list.list.value| >= 3
    && (forall i | 0 <= i < 3 :: h.list.list.value[i].tag == i)
    && Fns(h.list.list.value[3..]) == h.added
    && h.log == []
  }

  /** No settling has reached the list. */
  ghost predicate Fresh(h: Half) {
    && Whole(h)
    && h.list.stack == None && h.list.memory == None && !h.list.fired && h.list.requests == []
  }

  /** The list lost: it is disabled for good. */
  ghost predicate Lost(h: Half) {
    h.list.list == None && !h.list.firing && h.list.requests == [] && h.log == []
  }

  /** The list won with `data`, and `step` own handlers ran. */
  ghost predicate Won(h: Half, data: nat, step: nat) {
    && h.list.list.Some? && h.list.stack == None && h.list.fired && h.list.memory == Some(data)
    && h.list.requests == [data] && h.list.next >= 3
    && (h.list.firing ==> h.list.data == data)
    && (if step < 3 then
          Whole(h) && h.list.firing && !h.list.inHandler && h.list.firingIndex == step
        else if h.list.firing then
          && 0 <= Turn(h.list) <= |h.list.list.value|
          && WonSoFar(h, data)
          && (forall e | e in Pending(h.list) :: e.tag >= 3)
        else
          h.list.list.value == [] && h.log == Calls(h.added, data))
  }

  /** The first handlers that were added have been called with `data`, the others are pending. */
  ghost predicate WonSoFar(h: Half, data: nat)
    requires h.list.list.Some? && 0 <= Turn(h.list) <= |h.list.list.value|
  {
    && |h.log| <= |h.added|
    && h.log == Calls(h.added[..|h.log|], data)
    && Fns(Pending(h.list)) == h.added[|h.log|..]
  }

  ghost predicate Settled(d: Deferred, w: Side, data: nat) {
    && Won(Of(d, w), data, d.step) && d.step <= 3
    && (if d.step < 2 then Fresh(Of(d, Opposite(w))) else Lost(Of(d, Opposite(w))))
    && d.state == (if d.step == 0 then Unsettled else Final(w))
    && d.states == (if d.step == 0 then [] else [Final(w)])
    && (d.step == 3 ==> Locked(d.progress))
  }

  ghost predicate Locked(l: List) {
    l.stack == None && (l.list.Some? ==> l.fired)
  }

  ghost predicate Lists(d: Deferred) {
    && C.Inv(d.done.list) && C.Inv(d.fail.list) && C.Inv(d.progress)
    && d.done.list.options == d.fail.list.options == ONCE_MEMORY && d.progress.options == MEMORY
    && (d.progress.list.Some? && d.progress.fired ==> d.progress.memory.Some?)
    && (d.progress.memory.Some? ==> d.progress.fired)
    && (d.step < 3 ==> d.progress.list.Some? && d.progress.stack.Some?)
  }

  ghost predicate Inv(d: Deferred) {
    && Lists(d)
    && (if d.settles == [] then Fresh(d.done) && Fresh(d.fail) && d.state == Unsettled && d.states == [] && d.step == 0
        else Settled(d, d.settles[0].0, d.settles[0].1))
  }

  // ---- One list ----

  lemma FnsConcat(a: seq<Entry>, b: seq<Entry>)
    ensures Fns(a + b) == Fns(a) + Fns(b)
  {
  }

  lemma {:induction false} PushFns(entries: seq<Entry>, next: nat, fns: seq<nat>)
    ensures var r := C.Push(entries, false, next, fns);
            |r| == |entries| + |fns| && Fns(r[|entries|..]) == fns
    decreases |fns|
  {
    if fns != [] {
      var e := entries + [Entry(fns[0], next)];
      PushFns(e, next + 1, fns[1..]);
      var r := C.Push(e, false, next + 1, fns[1..]);
      assert r[|entries|..] == [r[|entries|]] + r[|e|..];
      assert r[|entries|] == e[|entries|];
    } else {
      assert entries[|entries|..] == [];
    }
  }

  lemma PushOne(entries: seq<Entry>, next: nat, fns: seq<nat>)
    requires fns != []
    ensures C.Push(entries, false, next, fns) == C.Push(entries + [Entry(fns[0], next)], false, next + 1, fns[1..])
    ensures C.Push(entries, false, next, []) == entries
  {
  }

  lemma OwnPushed()
    ensures C.Push([], false, 0, [0, 1, 2]) == [Entry(0, 0), Entry(1, 1), Entry(2, 2)]
  {
    PushOne([], 0, [0, 1, 2]);
    PushOne([Entry(0, 0)], 1, [1, 2]);
    PushOne([Entry(0, 0), Entry(1, 1)], 2, [2]);
    hide C.Push;
    assert [0, 1, 2][1..] == [1, 2] && [1, 2][1..] == [2] && [2][1..] == [];
  }

  lemma NewIsFresh()
    ensures Fresh(NewHalf()) && C.Inv(NewHalf().list) && NewHalf().list.options == ONCE_MEMORY
    ensures C.Inv(C.New(MEMORY))
  {
    C.KeepAdd(C.New(ONCE_MEMORY), [0, 1, 2]);
    OwnPushed();
    hide C.Inv, C.StartFire, C.Push;
  }

  lemma FreshListen(h: Half, fns: seq<nat>)
    requires Fresh(h) && C.Inv(h.list) && h.list.options == ONCE_MEMORY
    ensures Fresh(h.(list := C.Add(h.list, fns), added := h.added + fns))
  {
    var entries := h.list.list.value;
    PushFns(entries, h.list.next, fns);
    var r := C.Push(entries, false, h.list.next, fns);
    assert r[3..] == entries[3..] + r[|entries|..];
    FnsConcat(entries[3..], r[|entries|..]);
  }

  lemma FreshSettle(h: Half, data: nat)
    requires Fresh(h) && C.Inv(h.list) && h.list.options == ONCE_MEMORY
    ensures Won(h.(list := C.FireWith(h.list, data)), data, 0)
  {
    assert h.list.list.value[2].tag < h.list.next;
  }

  /** What a push adds to a list without `unique`. */
  lemma Pushed(l: List, fns: seq<nat>)
    requires C.Inv(l) && l.list.Some? && !l.options.unique && l.next >= 3
    ensures var entries, r := l.list.value, C.Push(l.list.value, l.options.unique, l.next, fns);
            && entries <= r && Fns(r[|entries|..]) == fns
            && forall e | e in r[|entries|..] :: e.tag >= 3
  {
    var entries := l.list.value;
    PushFns(entries, l.next, fns);
    C.PushOrdered(entries, false, l.next, fns);
    var more := C.Push(entries, false, l.next, fns)[|entries|..];
    forall e | e in more
      ensures e.tag >= 3
    {
      var i :| 0 <= i < |more| && more[i] == e;
      assert more[i].tag in C.Tags(more);
    }
  }

  lemma WonListen(h: Half, data: nat, fns: seq<nat>)
    requires Won(h, data, 3) && C.Inv(h.list) && h.list.options == ONCE_MEMORY
    ensures Won(h.(list := C.Add(h.list, fns), added := h.added + fns), data, 3)
  {
    if h.list.firing { WonListenFiring(h, data, fns); } else { WonListenIdle(h, data, fns); }
  }

  lemma WonListenFiring(h: Half, data: nat, fns: seq<nat>)
    requires Won(h, data, 3) && C.Inv(h.list) && h.list.options == ONCE_MEMORY && h.list.firing
    ensures Won(h.(list := C.Add(h.list, fns), added := h.added + fns), data, 3)
  {
    Pushed(h.list, fns);
    hide C.Inv, C.StartFire, C.Push, C.Tags, Fns, Calls;
    var l := h.list;
    var h', r := h.(list := C.Add(l, fns), added := h.added + fns), C.Push(l.list.value, false, l.next, fns);
    var more := r[|l.list.value|..];
    assert Pending(h'.list) == Pending(l) + more;
    FnsConcat(Pending(l), more);
    assert h'.added[..|h.log|] == h.added[..|h.log|];
    assert h'.added[|h.log|..] == h.added[|h.log|..] + fns;
  }

  lemma WonListenIdle(h: Half, data: nat, fns: seq<nat>)
    requires Won(h, data, 3) && C.Inv(h.list) && h.list.options == ONCE_MEMORY && !h.list.firing
    ensures Won(h.(list := C.Add(h.list, fns), added := h.added + fns), data, 3)
  {
    Pushed(h.list, fns);
    var l := h.list;
    var h', r := h.(list := C.Add(l, fns), added := h.added + fns), C.Push(l.list.value, false, l.next, fns);
    hide C.Inv, C.Push, C.Tags, Fns, Calls;
    assert Pending(h'.list) == r == r[|l.list.value|..];
    assert h'.added[..|h.log|] == h.added;
    assert h'.added[|h.log|..] == fns;
  }

  /** One of the own handlers runs. */
  lemma WonCallOwn(h: Half, data: nat, step: nat)
    requires Won(h, data, step) && step < 3 && C.Inv(h.list) && h.list.options == ONCE_MEMORY
    requires C.CanCall(h.list)
    ensures Next(h.list).tag == step
    ensures Won(h.(list := C.Return(C.CallNext(h.list), false)), data, step + 1)
  {
    var h' := h.(list := C.Return(C.CallNext(h.list), false));
    if step == 2 {
      var entries := h.list.list.value;
      assert Pending(h'.list) == entries[3..];
      forall e | e in Pending(h'.list)
        ensures e.tag >= 3
      {
        var i :| 3 <= i < |entries| && entries[i] == e;
        assert entries[2].tag < entries[i].tag;
      }
      assert h'.added[..0] == [] && h'.added[0..] == h'.added;
    }
  }

  lemma WonCall(h: Half, data: nat)
    requires Won(h, data, 3) && C.Inv(h.list) && C.CanCall(h.list)
    ensures Next(h.list).tag >= 3
    ensures Won(h.(list := C.CallNext(h.list), log := h.log + [(Next(h.list).fn, h.list.data)]), data, 3)
  {
    var e, n := Next(h.list), |h.log|;
    var h' := h.(list := C.CallNext(h.list), log := h.log + [(e.fn, h.list.data)]);
    var pending := Pending(h.list);
    assert e == pending[0] && e in pending && Pending(h'.list) == pending[1..];
    assert Fns(pending)[0] == h.added[n..][0] == h.added[n] == e.fn;
    assert Fns(pending[1..]) == Fns(pending)[1..] == h.added[n + 1..];
    assert h.added[..n + 1] == h.added[..n] + [e.fn];
  }

  lemma WonReturn(h: Half, data: nat, step: nat)
    requires Won(h, data, step) && step <= 3 && C.Inv(h.list) && h.list.options == ONCE_MEMORY
    requires h.list.firing && h.list.inHandler
    ensures Won(h.(list := C.Return(h.list, false)), data, step)
  {
    assert Pending(C.Return(h.list, false)) == Pending(h.list);
  }

  lemma WonFinish(h: Half, data: nat, step: nat)
    requires Won(h, data, step) && step <= 3 && C.Inv(h.list) && C.CanFinish(h.list)
    ensures Won(h.(list := C.Finish(h.list)), data, step)
  {
    if step == 3 {
      assert Pending(h.list) == [];
      assert |h.added[|h.log|..]| == 0;
      assert h.added[..|h.log|] == h.added;
    }
  }

  // ---- Every step keeps the invariant ----

  lemma NewKept()
    ensures Inv(New())
  {
    hide Fresh, C.Inv;
    NewIsFresh();
  }

  /** Outside code finds a settled deferred with all own handlers run: neither list accepts a fire, and the one that
      lost accepts no handler. */
  lemma OpenSettled(d: Deferred)
    requires Inv(d) && Open(d) && d.settles != []
    ensures d.step == 3
    ensures var (w, data) := d.settles[0]; Won(Of(d, w), data, 3) && Lost(Of(d, Opposite(w)))
  {
    hide C.Inv, Fresh, Lost, Locked;
  }

  lemma FireIgnored(h: Half, data: nat, more: nat)
    requires Won(h, data, 3) || Lost(h)
    ensures C.FireWith(h.list, more) == h.list
  {
    hide Whole, WonSoFar, Calls;
  }

  lemma KeepSettle(d: Deferred, s: Side, data: nat)
    requires Inv(d) && Open(d)
    ensures Inv(Settle(d, s, data))
  {
    hide C.Inv, Won, Fresh, Lost, C.FireWith;
    var h := Of(d, s);
    C.KeepFire(h.list, data);
    FireKeepsOptions(h.list, data);
    if d.settles == [] {
      FreshSettle(h, data);
    } else {
      OpenSettled(d);
      assert Settle(d, s, data).settles[0] == d.settles[0];
      FireIgnored(h, d.settles[0].1, data);
    }
  }

  lemma FireKeepsOptions(l: List, data: nat)
    ensures C.FireWith(l, data).options == l.options
  {
  }

  lemma KeepListen(d: Deferred, s: Side, fns: seq<nat>)
    requires Inv(d) && Open(d)
    ensures Inv(Listen(d, s, fns))
  {
    hide C.Inv, Won, Fresh, Lost, C.Add;
    var h := Of(d, s);
    C.KeepAdd(h.list, fns);
    AddKeepsOptions(h.list, fns);
    if d.settles == [] {
      FreshListen(h, fns);
    } else {
      OpenSettled(d);
      var (w, data) := d.settles[0];
      if s == w { WonListen(h, data, fns); } else { LostListen(h, fns); }
    }
  }

  lemma AddKeepsOptions(l: List, fns: seq<nat>)
    ensures C.Add(l, fns).options == l.options
  {
  }

  lemma LostListen(h: Half, fns: seq<nat>)
    requires Lost(h)
    ensures Lost(h.(list := C.Add(h.list, fns), added := h.added + fns))
  {
  }

  lemma CalledLists(d: Deferred, s: Side)
    requires Lists(d) && C.CanCall(Of(d, s).list)
    ensures Lists(WithList(d, s, C.Return(C.CallNext(Of(d, s).list), false)))
  {
    hide C.Inv;
    C.KeepCall(Of(d, s).list);
    C.KeepReturn(C.CallNext(Of(d, s).list), false);
  }

  lemma OwnLists(d: Deferred, s: Side, k: nat)
    requires Lists(d) && k == d.step <= 2
    ensures Lists(Own(d, s, k))
  {
    hide C.Inv, C.Lock, C.Disable;
    C.KeepLock(Of(d, Opposite(s)).list);
    C.KeepLock(d.progress);
    Shut(Of(d, Opposite(s)).list);
    Shut(d.progress);
  }

  lemma Shut(l: List)
    ensures C.Disable(l).options == l.options && C.Lock(l).options == l.options && C.Lock(l).fired == l.fired
    ensures C.Lock(l).memory == l.memory && (C.Lock(l).list.Some? ==> l.list.Some?)
    ensures C.Lock(l).stack == None && (l.memory == None ==> C.Lock(l).list == None)
    ensures C.Disable(l).list == None && C.Disable(l).firing == l.firing && C.Disable(l).requests == l.requests
  {
  }

  lemma KeepCallOwn(d: Deferred, w: Side, data: nat)
    requires Lists(d) && Settled(d, w, data) && d.step < 3 && C.CanCall(Of(d, w).list)
    ensures Next(Of(d, w).list).tag == d.step
    ensures Lists(Call(d, w)) && Settled(Call(d, w), w, data)
  {
    hide C.Inv, Won, C.CallNext, C.Return, Lists, C.Disable, C.Lock, Fresh;
    CallsAdded(d, w);
    CalledLists(d, w);
    OwnLists(WithList(d, w, C.Return(C.CallNext(Of(d, w).list), false)), w, d.step);
    ListOptions(d);
    WonCallOwn(Of(d, w), data, d.step);
    if d.step == 1 { Disabled(Of(d, Opposite(w))); }
    if d.step == 2 { LocksProgress(d); }
  }

  lemma ListOptions(d: Deferred)
    requires Lists(d)
    ensures C.Inv(d.done.list) && C.Inv(d.fail.list) && d.done.list.options == d.fail.list.options == ONCE_MEMORY
  {
    hide C.Inv;
  }

  lemma Disabled(h: Half)
    requires Fresh(h) && C.Inv(h.list)
    ensures Lost(h.(list := C.Disable(h.list)))
  {
  }

  lemma LocksProgress(d: Deferred)
    requires Lists(d)
    ensures Locked(C.Lock(d.progress))
  {
    hide C.Inv, C.Lock;
    Shut(d.progress);
  }

  lemma KeepCall(d: Deferred, s: Side)
    requires Inv(d) && C.CanCall(Of(d, s).list)
    ensures Inv(Call(d, s))
  {
    hide C.Inv, Won, Fresh, Lost, C.CallNext, C.Return;
    CallerWon(d, s);
    var (w, data) := d.settles[0];
    if d.step < 3 {
      hide Settled, Lists;
      KeepCallOwn(d, w, data);
    } else {
      CallsAdded(d, w);
      C.KeepCall(Of(d, w).list);
      WonCall(Of(d, w), data);
    }
  }

  lemma CallsAdded(d: Deferred, s: Side)
    requires C.CanCall(Of(d, s).list)
    ensures C.CallNext(Of(d, s).list).options == Of(d, s).list.options
    ensures C.CallNext(Of(d, s).list).firing && C.CallNext(Of(d, s).list).inHandler
  {
  }

  /** Only the list that won ever fires. */
  lemma CallerWon(d: Deferred, s: Side)
    requires Inv(d) && Of(d, s).list.firing
    ensures d.settles != [] && s == d.settles[0].0
  {
  }

  lemma KeepReturn(d: Deferred, s: Side)
    requires Inv(d) && Of(d, s).list.firing && Of(d, s).list.inHandler
    ensures Inv(WithList(d, s, C.Return(Of(d, s).list, false)))
  {
    CallerWon(d, s);
    C.KeepReturn(Of(d, s).list, false);
    WonReturn(Of(d, s), d.settles[0].1, d.step);
    hide C.Inv, Won;
  }

  lemma KeepFinish(d: Deferred, s: Side)
    requires Inv(d) && C.CanFinish(Of(d, s).list)
    ensures Inv(WithList(d, s, C.Finish(Of(d, s).list)))
  {
    CallerWon(d, s);
    C.KeepFinish(Of(d, s).list);
    WonFinish(Of(d, s), d.settles[0].1, d.step);
    hide C.Inv, Won;
  }

  lemma KeepProgress(d: Deferred, a: C.Action)
    requires Inv(d) && CanProgress(d, a)
    ensures Inv(d.(progress := C.Do(d.progress, a)))
  {
    hide C.Inv, Won, Fresh, Lost, C.Do, C.Can, CanProgress;
    Reaches(d, a);
    C.Keep(d.progress, a);
    ProgressLists(d, a);
  }

  lemma Reaches(d: Deferred, a: C.Action)
    requires CanProgress(d, a)
    ensures C.Can(d.progress, a) && (a.DoAdd? || a.DoFire? || a.DoCall? || a.DoReturn? || a.DoFinish?)
  {
  }

  /** What outside code and the loop of the progress list keep of it. */
  lemma ProgressLists(d: Deferred, a: C.Action)
    requires C.Can(d.progress, a) && (a.DoAdd? || a.DoFire? || a.DoCall? || a.DoReturn? || a.DoFinish?)
    requires d.progress.options == MEMORY
    requires d.progress.list.Some? && d.progress.fired ==> d.progress.memory.Some?
    requires d.progress.memory.Some? ==> d.progress.fired
    ensures var l, t := d.progress, C.Do(d.progress, a);
            && t.options == MEMORY && (t.list.Some? && t.fired ==> t.memory.Some?) && (t.memory.Some? ==> t.fired)
            && (l.list.Some? && l.stack.Some? ==> t.list.Some? && t.stack.Some?) && (Locked(l) ==> Locked(t))
  {
    hide C.Push, C.Tags;
  }

  lemma Keep(d: Deferred, a: Action)
    requires Inv(d) && Can(d, a)
    ensures Inv(Do(d, a))
  {
    hide Inv;
    match a
    case DoSettle(s, data) => KeepSettle(d, s, data);
    case DoListen(s, fns) => KeepListen(d, s, fns);
    case DoCall(s) => KeepCall(d, s);
    case DoReturn(s) => KeepReturn(d, s);
    case DoFinish(s) => KeepFinish(d, s);
    case DoProgress(b) => KeepProgress(d, b);
  }

  lemma {:induction false} KeepRun(d: Deferred, acts: seq<Action>)
    requires Inv(d) && Legal(d, acts)
    ensures Inv(Exec(d, acts))
    decreases |acts|
  {
    hide Inv;
    if acts != [] {
      Keep(d, acts[0]);
      KeepRun(Do(d, acts[0]), acts[1..]);
    }
  }

  // ---- What every run guarantees ----

  /** All that was passed to `done` or `fail` in a run. */
  function ListenedIn(acts: seq<Action>, s: Side): seq<nat> {
    if acts == [] then []
    else (if acts[0].DoListen? && acts[0].s == s then acts[0].fns else []) + ListenedIn(acts[1..], s)
  }

  /** All calls of `resolveWith` and `rejectWith` in a run. */
  function SettlesIn(acts: seq<Action>): seq<(Side, nat)> {
    if acts == [] then []
    else (if acts[0].DoSettle? then [(acts[0].s, acts[0].data)] else []) + SettlesIn(acts[1..])
  }

  lemma RecordedStep(d: Deferred, a: Action, s: Side)
    requires Can(d, a)
    ensures Do(d, a).settles == d.settles + SettlesIn([a])
    ensures Of(Do(d, a), s).added == Of(d, s).added + ListenedIn([a], s)
  {
    hide C.Add, C.FireWith, C.Return, C.CallNext, C.Finish, C.Disable, C.Lock, C.Do;
    assert SettlesIn([a]) == (if a.DoSettle? then [(a.s, a.data)] else []);
    assert ListenedIn([a], s) == (if a.DoListen? && a.s == s then a.fns else []);
  }

  lemma {:induction false} Recorded(d: Deferred, acts: seq<Action>, s: Side)
    requires Legal(d, acts)
    ensures Exec(d, acts).settles == d.settles + SettlesIn(acts)
    ensures Of(Exec(d, acts), s).added == Of(d, s).added + ListenedIn(acts, s)
    decreases |acts|
  {
    hide Do, Can;
    if acts != [] {
      RecordedStep(d, acts[0], s);
      Recorded(Do(d, acts[0]), acts[1..], s);
      assert [acts[0]][1..] == [];
    }
  }

  lemma Ends(acts: seq<Action>)
    requires Legal(New(), acts)
    ensures var d := Exec(New(), acts);
            && Inv(d) && d.settles == SettlesIn(acts)
            && d.done.added == ListenedIn(acts, Done) && d.fail.added == ListenedIn(acts, Fail)
  {
    NewKept();
    KeepRun(New(), acts);
    Recorded(New(), acts, Done);
    Recorded(New(), acts, Fail);
    hide Inv, Exec, Legal, SettlesIn, ListenedIn;
    assert [] + SettlesIn(acts) == SettlesIn(acts);
    assert [] + ListenedIn(acts, Done) == ListenedIn(acts, Done);
    assert [] + ListenedIn(acts, Fail) == ListenedIn(acts, Fail);
  }

  predicate Quiet(d: Deferred) {
    !d.done.list.firing && !d.fail.list.firing
  }

  /** The first call of `resolveWith` or `rejectWith` decides. Once nothing is firing, the handlers of that side were
      called exactly once each, in the order they were added and with its arguments, whether they were added before it,
      during the calls or after them; no handler of the other side was called. */
  lemma FirstSettleDecides(acts: seq<Action>)
    requires Legal(New(), acts) && Quiet(Exec(New(), acts))
    ensures var d, settles := Exec(New(), acts), SettlesIn(acts);
            if settles == [] then
              d.state == Unsettled && d.states == [] && d.done.log == [] && d.fail.log == []
            else
              var (w, data) := settles[0];
              && d.state == Final(w) && d.states == [Final(w)]
              && Of(d, w).log == Calls(ListenedIn(acts, w), data)
              && Of(d, Opposite(w)).log == []
  {
    Ends(acts);
    hide Exec, Legal, SettlesIn, ListenedIn, C.Inv, Calls;
  }

  /** At any moment, also between handlers: the state was set at most once, the handlers called so far are the first
      ones that were added, each got the arguments of the first settling, and none is of the other side. */
  lemma NeverTwoOutcomes(acts: seq<Action>)
    requires Legal(New(), acts)
    ensures var d, settles := Exec(New(), acts), SettlesIn(acts);
            && |d.states| <= 1 && d.state == (if d.states == [] then Unsettled else d.states[0])
            && if settles == [] then d.states == [] && d.done.log == [] && d.fail.log == []
               else
                 var (w, data) := settles[0];
                 var log, listened := Of(d, w).log, ListenedIn(acts, w);
                 && (d.states == [] || d.state == Final(w))
                 && |log| <= |listened| && log == Calls(listened[..|log|], data)
                 && Of(d, Opposite(w)).log == []
  {
    Ends(acts);
    hide Exec, Legal, SettlesIn, ListenedIn, C.Inv, Calls;
    var d := Exec(New(), acts);
    if d.settles != [] {
      LogIsPrefix(Of(d, d.settles[0].0), d.settles[0].1, d.step);
    }
  }

  lemma LogIsPrefix(h: Half, data: nat, step: nat)
    requires Won(h, data, step)
    ensures |h.log| <= |h.added| && h.log == Calls(h.added[..|h.log|], data)
  {
    assert h.added[..|h.added|] == h.added;
  }

  /** A handler that runs finds the state settled its way, the opposite list disabled and no notification possible any
      more; so does all outside code after a settling. */
  lemma SettledBeforeHandlers(acts: seq<Action>, more: nat)
    requires Legal(New(), acts) && Open(Exec(New(), acts)) && SettlesIn(acts) != []
    ensures var d, w := Exec(New(), acts), SettlesIn(acts)[0].0;
            && d.state == Final(w) && Of(d, Opposite(w)).list.list == None
            && C.FireWith(d.done.list, more) == d.done.list && C.FireWith(d.fail.list, more) == d.fail.list
            && C.FireWith(d.progress, more) == d.progress
  {
    Ends(acts);
    hide Exec, Legal, SettlesIn, C.Inv;
  }

  /** All calls of `notifyWith` in a run. */
  function NotifiesIn(acts: seq<Action>): seq<nat> {
    if acts == [] then []
    else (if acts[0].DoProgress? && acts[0].a.DoFire? then [acts[0].a.data] else []) + NotifiesIn(acts[1..])
  }

  lemma Accepted(l: List, a: C.Action)
    requires C.Can(l, a) && l.list.Some? && l.stack.Some?
    ensures C.Do(l, a).requests == l.requests + (if a.DoFire? then [a.data] else [])
  {
  }

  lemma CallUntouched(d: Deferred, s: Side)
    requires C.CanCall(Of(d, s).list)
    ensures Call(d, s).progress.requests == d.progress.requests
  {
    assert C.Lock(d.progress).requests == d.progress.requests;
    hide C.CallNext, C.Return, C.Disable, C.Lock, C.CanCall;
  }

  lemma Untouched(d: Deferred, a: Action)
    requires Can(d, a) && !a.DoProgress?
    ensures Do(d, a).progress.requests == d.progress.requests
  {
    match a
    case DoCall(s) =>
      CallUntouched(d, s);
      hide Call;
    case DoSettle(_, _) =>
    case DoListen(_, _) =>
    case DoReturn(_) =>
    case DoFinish(_) =>
  }

  lemma NotifiedStep(d: Deferred, a: Action)
    requires Inv(d) && Can(d, a) && Do(d, a).settles == []
    ensures Do(d, a).progress.requests == d.progress.requests + NotifiesIn([a])
  {
    assert NotifiesIn([a]) == (if a.DoProgress? && a.a.DoFire? then [a.a.data] else []);
    if a.DoProgress? {
      hide C.Inv, Fresh, C.Do;
      Accepted(d.progress, a.a);
    } else {
      Untouched(d, a);
      hide Inv, Do;
    }
  }

  lemma StillUnsettled(d: Deferred, acts: seq<Action>)
    requires Legal(d, acts) && Exec(d, acts).settles == []
    ensures d.settles == []
  {
    Recorded(d, acts, Done);
  }

  lemma NotifiesFirst(acts: seq<Action>)
    requires acts != []
    ensures NotifiesIn(acts) == NotifiesIn([acts[0]]) + NotifiesIn(acts[1..])
  {
    assert [acts[0]][1..] == [];
  }

  lemma {:induction false} Notified(d: Deferred, acts: seq<Action>)
    requires Inv(d) && Legal(d, acts) && Exec(d, acts).settles == []
    ensures Exec(d, acts).progress.requests == d.progress.requests + NotifiesIn(acts)
    decreases |acts|
  {
    if acts != [] {
      NotifiedFirst(d, acts);
      hide Inv, Do, Can, NotifiesIn;
      Notified(Do(d, acts[0]), acts[1..]);
    }
  }

  lemma NotifiedFirst(d: Deferred, acts: seq<Action>)
    requires Inv(d) && acts != [] && Legal(d, acts) && Exec(d, acts).settles == []
    ensures var t := Do(d, acts[0]);
            && Inv(t) && Legal(t, acts[1..]) && Exec(t, acts[1..]) == Exec(d, acts)
            && t.progress.requests + NotifiesIn(acts[1..]) == d.progress.requests + NotifiesIn(acts)
  {
    hide Inv, Do, Can, NotifiesIn;
    Keep(d, acts[0]);
    StillUnsettled(Do(d, acts[0]), acts[1..]);
    NotifiedStep(d, acts[0]);
    NotifiesFirst(acts);
  }

  /** Before a settling no notification is lost: they reach the progress handlers in order, and all of them have been
      begun when none is being fired. */
  lemma NotifiesInOrder(acts: seq<Action>)
    requires Legal(New(), acts) && SettlesIn(acts) == []
    ensures var l := Exec(New(), acts).progress;
            && l.rounds <= l.requests == NotifiesIn(acts)
            && (!l.firing ==> l.rounds == l.requests)
  {
    NewKept();
    Ends(acts);
    Notified(New(), acts);
    hide Exec, Legal, SettlesIn, ListenedIn, NotifiesIn, Fresh;
    assert [] + NotifiesIn(acts) == NotifiesIn(acts);
  }
}
