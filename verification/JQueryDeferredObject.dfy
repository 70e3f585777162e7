/** `jQuery.Deferred` as the object that its closure is: each method does the matching step of `JQueryDeferred`. */
module JQueryDeferredObject {
  import opened C = JQueryCallbacks
  import opened D = JQueryDeferred

  /** The variables of the closure; `d` is the deferred they mean. */
  class DeferredObject {
    const done: Callbacks
    const fail: Callbacks
    const progress: Callbacks
    var state: State
    ghost var d: Deferred

    ghost predicate Valid()
      reads this, done, fail, progress
    {
      Lists() && D.Inv(d)
    }

    ghost predicate Lists()
      reads this, done, fail, progress
    {
      && done != fail && done != progress && fail != progress
      && done.Valid() && fail.Valid() && progress.Valid()
      && done.l == d.done.list && fail.l == d.fail.list && progress.l == d.progress && state == d.state
    }

    constructor ()
      ensures Valid() && d == D.New() && fresh(done) && fresh(fail) && fresh(progress)
    {
      NewLists();
      hide D.Inv, C.Inv, C.Add, D.New, C.New, C.Open;
      var resolved := WithOwn();
      var rejected := WithOwn();
      var notified := new Callbacks(MEMORY);
      done, fail, progress, state := resolved, rejected, notified, Unsettled;
      d := D.New();
    }

    /** The own handlers of a list are added first (3253-3258). */
    static method WithOwn() returns (list: Callbacks)
      ensures fresh(list) && list.Valid() && list.l == C.Add(C.New(ONCE_MEMORY), [0, 1, 2])
    {
      list := new Callbacks(ONCE_MEMORY);
      list.AddAll([0, 1, 2]);
    }

    function ListOf(s: Side): Callbacks {
      if s == Done then done else fail
    }

    /** `resolveWith` and `rejectWith` (3266). */
    method SettleWith(s: Side, data: nat)
      requires Valid() && D.Open(d)
      modifies this, done, fail
      ensures Valid() && d == Settle(old(d), s, data)
    {
      hide D.Inv, C.Inv, C.FireWith;
      KeepSettle(d, s, data);
      ListOf(s).FireAll(data);
      d := Settle(d, s, data);
    }

    /** `notifyWith` (3266). */
    method NotifyWith(data: nat)
      requires Valid() && D.Open(d)
      modifies this, progress
      ensures Valid() && d == old(d).(progress := C.FireWith(old(d).progress, data))
    {
      hide D.Inv, C.Inv, C.FireWith;
      KeepProgress(d, C.DoFire(data));
      progress.FireAll(data);
      d := d.(progress := C.FireWith(d.progress, data));
    }

    /** `done` and `fail` (3249). */
    method AddHandlers(s: Side, fns: seq<nat>)
      requires Valid() && D.Open(d)
      modifies this, done, fail
      ensures Valid() && d == Listen(old(d), s, fns)
    {
      hide D.Inv, C.Inv, C.Add;
      KeepListen(d, s, fns);
      ListOf(s).AddAll(fns);
      d := Listen(d, s, fns);
    }

    /** The own handlers of a list (3253-3258). */
    method RunOwn(s: Side, k: nat)
      requires Lists()
      modifies this, done, fail, progress
      ensures Lists() && d == Own(old(d), s, k)
    {
      hide C.Inv, C.Disable, C.Lock;
      d := Own(d, s, k);
      if k == 0 {
        state := Final(s);
      } else if k == 1 {
        ListOf(Opposite(s)).DisableList();
      } else {
        progress.LockList();
      }
    }

    /** The loop of a list calls its next handler. */
    method CallHandler(s: Side)
      requires Valid() && C.CanCall(Of(d, s).list)
      modifies this, done, fail, progress
      ensures Valid() && d == Call(old(d), s)
    {
      D.KeepCall(d, s);
      var own := ListOf(s).list.value[ListOf(s).firingIndex].tag < 3;
      if own { CallOwn(s); } else { CallAdded(s); }
    }

    /** The next handler is an own one and runs to its end. */
    method CallOwn(s: Side)
      requires Lists() && C.CanCall(Of(d, s).list) && Next(Of(d, s).list).tag < 3
      modifies this, done, fail, progress
      ensures Lists() && d == Call(old(d), s)
    {
      hide C.Inv, C.Return, Own;
      var list := ListOf(s);
      var tag := list.list.value[list.firingIndex].tag;
      var _ := list.NextHandler();
      list.HandlerReturned(false);
      d := WithList(d, s, list.l);
      RunOwn(s, tag);
    }

    /** The next handler is one that was added; it is running when this returns. */
    method CallAdded(s: Side)
      requires Lists() && C.CanCall(Of(d, s).list) && Next(Of(d, s).list).tag >= 3
      modifies this, done, fail
      ensures Lists() && d == Call(old(d), s)
    {
      hide C.Inv, C.CallNext;
      ghost var after := Call(d, s);
      var _ := ListOf(s).NextHandler();
      d := after;
    }
  }

  lemma NewLists()
    ensures D.Inv(D.New()) && D.New().state == Unsettled && C.Open(C.New(ONCE_MEMORY)) && D.New().progress == C.New(MEMORY)
    ensures D.New().done.list == D.New().fail.list == C.Add(C.New(ONCE_MEMORY), [0, 1, 2])
  {
    D.NewKept();
  }
}
