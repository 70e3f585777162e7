/** `jQuery.when`. The inputs' promises settle at any time, and the handlers that `when` registers run some time after;
    a promise that is used as two inputs runs two sets of handlers. The master deferred is represented by its first
    settling, which decides it (`JQueryDeferred.FirstSettleDecides`). */
module JQueryWhen {
  import opened Wrappers

  datatype Value = Undefined | Atom(id: nat) | Array(items: seq<Value>) | PromiseObject(promise: nat)

  datatype Input = Plain(value: Value) | Promise(id: nat)

  /** How a promise settled, with the arguments its handlers get. */
  datatype Settling = Ok(args: seq<Value>) | Bad(args: seq<Value>)

  /** The closure of one call: `next` is the loop index, `looped` tells that the call is over, `counted` are the inputs
      for which `remaining` was decremented, `ran` those whose done or fail handler ran, `rejections` the inputs whose
      fail handler ran, in that order, and `notices` what the master was notified with. */
  datatype When = When(inputs: seq<Input>, promises: map<nat, Settling>, next: nat, looped: bool, remaining: int,
                       values: seq<Value>, progressValues: seq<Value>, master: Option<Settling>,
                       counted: set<nat>, ran: set<nat>, rejections: seq<nat>, notices: seq<seq<Value>>)

  function InputValue(input: Input): Value {
    match input
    case Plain(value) => value
    case Promise(id) => PromiseObject(id)
  }

  /** What `updateFunc` stores for the arguments of a handler (3297). */
  function Stored(args: seq<Value>): Value {
    if |args| > 1 then Array(args) else if |args| == 1 then args[0] else Undefined
  }

  /** The call up to its loop (3283-3312). */
  function Start(inputs: seq<Input>, promises: map<nat, Settling>): When {
    var n := |inputs|;
    var remaining := if n != 1 || inputs[0].Promise? then n else 0;
    When(inputs, promises, 0, false, remaining, seq(n, i requires 0 <= i < n => InputValue(inputs[i])),
         seq(n, _ => Undefined), None, if remaining == n then {} else {0}, {}, [], [])
  }

  /** A call with just one promise returns that promise. */
  predicate Single(w: When) {
    |w.inputs| == 1 && w.inputs[0].Promise?
  }

  function Master(w: When, s: Settling): When {
    if w.master == None then w.(master := Some(s)) else w
  }

  /** One iteration of the loop (3313-3322); for a promise it only registers the handlers. */
  function Register(w: When): When
    requires w.next < |w.inputs|
  {
    var t := w.(next := w.next + 1);
    if w.inputs[w.next].Promise? then t else t.(remaining := w.remaining - 1, counted := w.counted + {w.next})
  }

  /** After the loop (3325-3328). */
  function EndLoop(w: When): When {
    var t := w.(looped := true);
    if w.remaining == 0 then Master(t, Ok(w.values)) else t
  }

  /** The loop runs only for several inputs (3309). */
  function LoopEnd(w: When): nat {
    if |w.inputs| > 1 then |w.inputs| else 0
  }

  /** Input `i` has handlers, its promise is settled and they have not run. */
  predicate CanDeliver(w: When, i: nat) {
    i < w.next <= |w.inputs| && w.inputs[i].Promise? && w.inputs[i].id in w.promises && i !in w.ran
  }

  /** The done handler (3295-3302) or the fail handler (3317) of input `i` runs. */
  function Deliver(w: When, i: nat): When
    requires CanDeliver(w, i) && i < |w.values|
  {
    match w.promises[w.inputs[i].id]
    case Ok(args) => Done(w, i, args)
    case Bad(args) => Master(w.(ran := w.ran + {i}, rejections := w.rejections + [i]), Bad(args))
  }

  function Done(w: When, i: nat, args: seq<Value>): When
    requires i < |w.values|
  {
    var t := w.(values := w.values[i := Stored(args)], remaining := w.remaining - 1, counted := w.counted + {i},
                ran := w.ran + {i});
    if t.remaining == 0 then Master(t, Ok(t.values)) else t
  }

  /** A progress handler runs (3295-3299, 3318). */
  function Progress(w: When, i: nat, args: seq<Value>): When
    requires i < |w.progressValues|
  {
    var values := w.progressValues[i := Stored(args)];
    w.(progressValues := values, notices := w.notices + [values])
  }

  /** A promise settles; a second settling changes nothing. */
  function SettlePromise(w: When, id: nat, s: Settling): When {
    if id in w.promises then w else w.(promises := w.promises[id := s])
  }

  datatype Action =
    | DoRegister
    | DoEndLoop
    | DoDeliver(i: nat)
    | DoProgress(i: nat, args: seq<Value>)
    | DoSettlePromise(id: nat, s: Settling)

  predicate Can(w: When, a: Action) {
    match a
    case DoRegister => !w.looped && w.next < LoopEnd(w)
    case DoEndLoop => !w.looped && w.next == LoopEnd(w)
    case DoDeliver(i) => CanDeliver(w, i) && i < |w.values|
    case DoProgress(i, _) => i < w.next && i < |w.progressValues|
    case DoSettlePromise(_, _) => true
  }

  function Do(w: When, a: Action): When
    requires Can(w, a)
  {
    match a
    case DoRegister => Register(w)
    case DoEndLoop => EndLoop(w)
    case DoDeliver(i) => Deliver(w, i)
    case DoProgress(i, args) => Progress(w, i, args)
    case DoSettlePromise(id, s) => SettlePromise(w, id, s)
  }

  predicate Legal(w: When, acts: seq<Action>)
    decreases |acts|
  {
    acts == [] || (Can(w, acts[0]) && Legal(Do(w, acts[0]), acts[1..]))
  }

  function Exec(w: When, acts: seq<Action>): When
    requires Legal(w, acts)
    decreases |acts|
  {
    if acts == [] then w else Exec(Do(w, acts[0]), acts[1..])
  }

  // ---- The invariant ----

  function Upto(n: nat): (r: set<nat>)
    ensures |r| == n && forall i: nat :: i in r <==> i < n
  {
    if n == 0 then {} else Upto(n - 1) + {n - 1}
  }

  /** A part of the first `n` numbers is all of them exactly if it has `n` elements. */
  lemma AllCounted(s: set<nat>, n: nat)
    requires s <= Upto(n)
    ensures |s| <= n && (|s| == n <==> s == Upto(n))
  {
    var rest := Upto(n) - s;
    assert Upto(n) == s + rest;
    if rest != {} {
      var x :| x in rest;
      assert |rest| > 0;
    }
  }

  predicate IsOk(w: When, i: nat)
    requires i < |w.inputs|
  {
    w.inputs[i].Promise? ==> w.inputs[i].id in w.promises && w.promises[w.inputs[i].id].Ok?
  }

  predicate IsBad(w: When, i: nat)
    requires i < |w.inputs|
  {
    w.inputs[i].Promise? && w.inputs[i].id in w.promises && w.promises[w.inputs[i].id].Bad?
  }

  /** The value that input `i` contributes. */
  function Contribution(w: When, i: nat): Value
    requires i < |w.inputs| && IsOk(w, i)
  {
    match w.inputs[i]
    case Plain(value) => value
    case Promise(id) => Stored(w.promises[id].args)
  }

  /** Input `i` has been dealt with, successfully. */
  predicate Counts(w: When, i: nat)
    requires i < |w.inputs|
  {
    if w.inputs[i].Plain? then i < w.next || |w.inputs| == 1 else i in w.ran && IsOk(w, i)
  }

  ghost predicate Inv(w: When) {
    Shape(w) && Counting(w) && Ran(w) && Values(w) && MasterOk(w)
  }

  ghost predicate Shape(w: When) {
    && |w.values| == |w.inputs| && |w.progressValues| == |w.inputs|
    && w.next <= LoopEnd(w) && (w.looped ==> w.next == LoopEnd(w))
  }

  ghost predicate Counting(w: When) {
    && w.counted <= Upto(|w.inputs|) && w.remaining == |w.inputs| - |w.counted|
    && (forall i: nat | i < |w.inputs| :: i in w.counted <==> Counts(w, i))
  }

  ghost predicate Ran(w: When) {
    && (forall i: nat | i in w.ran :: i < w.next && i < |w.inputs| && w.inputs[i].Promise? && (IsBad(w, i) || IsOk(w, i)))
    && (forall i: nat :: i in w.rejections <==> i in w.ran && i < |w.inputs| && IsBad(w, i))
  }

  ghost predicate Values(w: When) {
    && |w.values| == |w.inputs|
    && (forall i: nat | i < |w.inputs| ::
          w.values[i] == if i in w.ran && IsOk(w, i) then Contribution(w, i) else InputValue(w.inputs[i]))
  }

  /** The promise of input `i` was rejected with `args`. */
  ghost predicate BadWith(w: When, i: nat, args: seq<Value>) {
    i < |w.inputs| && IsBad(w, i) && args == w.promises[w.inputs[i].id].args
  }

  ghost predicate MasterOk(w: When) {
    match w.master
    case None => w.rejections == [] && (w.looped ==> w.remaining != 0)
    case Some(Ok(values)) => w.remaining == 0 && values == w.values && w.rejections == []
    case Some(Bad(args)) => w.rejections != [] && BadWith(w, w.rejections[0], args)
  }

  lemma StartKept(inputs: seq<Input>, promises: map<nat, Settling>)
    ensures Inv(Start(inputs, promises))
  {
    StartCounting(inputs, promises);
    hide Counting, Upto;
  }

  lemma StartCounting(inputs: seq<Input>, promises: map<nat, Settling>)
    ensures Counting(Start(inputs, promises))
  {
    var w := Start(inputs, promises);
    assert w.counted <= Upto(|inputs|);
    forall i: nat | i < |inputs|
      ensures i in w.counted <==> Counts(w, i)
    {
    }
  }

  lemma RegisterCounting(w: When)
    requires Counting(w) && Ran(w) && Shape(w) && w.next < LoopEnd(w)
    ensures Counting(Register(w)) && (w.inputs[w.next].Plain? ==> w.remaining > 0)
  {
    hide Ran, Upto;
    var t, n := Register(w), w.next;
    if w.inputs[n].Plain? {
      assert n in w.counted <==> Counts(w, n);
      StillRemains(w, n);
    }
    NextNotRan(w);
    forall i: nat | i < |w.inputs|
      ensures i in t.counted <==> Counts(t, i)
    {
      assert i in w.counted <==> Counts(w, i);
    }
  }

  lemma NextNotRan(w: When)
    requires Ran(w)
    ensures w.next !in w.ran
  {
  }

  lemma KeepRegister(w: When)
    requires Inv(w) && !w.looped && w.next < LoopEnd(w)
    ensures Inv(Register(w))
  {
    hide Counting, Ran, Values, MasterOk;
    RegisterCounting(w);
    RegisterRan(w);
    RegisterValues(w);
    RegisterMaster(w);
  }

  lemma RegisterValues(w: When)
    requires Values(w) && w.next < |w.inputs|
    ensures Values(Register(w))
  {
  }

  lemma RegisterMaster(w: When)
    requires MasterOk(w) && Shape(w) && w.next < |w.inputs| && !w.looped
    requires w.inputs[w.next].Plain? ==> w.remaining > 0
    ensures MasterOk(Register(w))
  {
    if w.rejections != [] {
      assert BadWith(Register(w), w.rejections[0], w.master.value.args);
    }
  }

  lemma RegisterRan(w: When)
    requires Ran(w) && w.next < |w.inputs|
    ensures Ran(Register(w))
  {
  }

  lemma Framed(w: When, t: When)
    requires Counting(w) && Ran(w) && Values(w)
    requires t.inputs == w.inputs && t.promises == w.promises && t.next == w.next && t.remaining == w.remaining
    requires t.values == w.values && t.counted == w.counted && t.ran == w.ran && t.rejections == w.rejections
    ensures Counting(t) && Ran(t) && Values(t)
  {
    CountingFramed(w, t);
    hide Counting;
    assert forall i: nat | i in w.ran :: i < w.next && i < |w.inputs| && w.inputs[i].Promise?;
  }

  lemma CountingFramed(w: When, t: When)
    requires Counting(w)
    requires t.inputs == w.inputs && t.promises == w.promises && t.next == w.next && t.remaining == w.remaining
    requires t.counted == w.counted && t.ran == w.ran
    ensures Counting(t)
  {
    forall i: nat | i < |t.inputs|
      ensures i in t.counted <==> Counts(t, i)
    {
      assert i in w.counted <==> Counts(w, i);
    }
  }

  lemma KeepEndLoop(w: When)
    requires Inv(w) && !w.looped && w.next == LoopEnd(w)
    ensures Inv(EndLoop(w))
  {
    hide Counting, Ran, Values, MasterOk;
    Framed(w, EndLoop(w));
    EndLoopMaster(w);
  }

  lemma EndLoopMaster(w: When)
    requires MasterOk(w) && !w.looped
    ensures MasterOk(EndLoop(w))
  {
    if w.rejections != [] {
      assert BadWith(EndLoop(w), w.rejections[0], w.master.value.args);
    }
  }

  /** With an input that is not counted yet, something remains. */
  lemma StillRemains(w: When, i: nat)
    requires Counting(w) && i < |w.inputs| && i !in w.counted
    ensures w.remaining > 0 && |w.counted + {i}| == |w.counted| + 1
  {
    AllCounted(w.counted, |w.inputs|);
  }

  lemma KeepDone(w: When, i: nat, args: seq<Value>)
    requires Inv(w) && CanDeliver(w, i) && w.promises[w.inputs[i].id] == Ok(args)
    ensures Inv(Done(w, i, args))
  {
    NotCounted(w, i);
    StillRemains(w, i);
    DoneCounting(w, i, args);
    DoneRan(w, i, args);
    DoneValues(w, i, args);
    DoneMaster(w, i, args);
    hide Counting, Ran, Values, MasterOk;
  }

  lemma DoneMaster(w: When, i: nat, args: seq<Value>)
    requires MasterOk(w) && Shape(w) && CanDeliver(w, i) && w.remaining > 0
    ensures MasterOk(Done(w, i, args))
  {
    if w.rejections != [] {
      assert BadWith(Done(w, i, args), w.rejections[0], w.master.value.args);
    }
  }

  lemma DoneCounting(w: When, i: nat, args: seq<Value>)
    requires Counting(w) && Shape(w) && CanDeliver(w, i) && w.promises[w.inputs[i].id] == Ok(args)
    requires |w.counted + {i}| == |w.counted| + 1
    ensures Counting(Done(w, i, args))
  {
    forall j: nat | j < |w.inputs|
      ensures j in Done(w, i, args).counted <==> Counts(Done(w, i, args), j)
    {
      assert j in w.counted <==> Counts(w, j);
    }
  }

  lemma DoneRan(w: When, i: nat, args: seq<Value>)
    requires Ran(w) && Shape(w) && CanDeliver(w, i) && w.promises[w.inputs[i].id] == Ok(args)
    ensures Ran(Done(w, i, args))
  {
    var t := Done(w, i, args);
    forall j: nat
      ensures j in t.rejections <==> j in t.ran && j < |t.inputs| && IsBad(t, j)
    {
      assert j in w.rejections <==> j in w.ran && j < |w.inputs| && IsBad(w, j);
    }
  }

  lemma DoneValues(w: When, i: nat, args: seq<Value>)
    requires Values(w) && Shape(w) && CanDeliver(w, i) && w.promises[w.inputs[i].id] == Ok(args)
    ensures Values(Done(w, i, args))
  {
  }

  lemma KeepFail(w: When, i: nat)
    requires Inv(w) && CanDeliver(w, i) && w.promises[w.inputs[i].id].Bad?
    ensures Inv(Deliver(w, i))
  {
    NotCounted(w, i);
    StillRemains(w, i);
    FailRan(w, i);
    FailCounting(w, i);
    FailValues(w, i);
    FailMaster(w, i);
    hide Counting, Ran, Values, MasterOk;
  }

  lemma FailMaster(w: When, i: nat)
    requires MasterOk(w) && Shape(w) && CanDeliver(w, i) && w.promises[w.inputs[i].id].Bad? && w.remaining > 0
    ensures MasterOk(Deliver(w, i))
  {
    var t := Deliver(w, i);
    if w.rejections == [] {
      assert t.rejections == [i];
    } else {
      assert t.rejections[0] == w.rejections[0];
    }
  }

  lemma NotCounted(w: When, i: nat)
    requires Counting(w) && CanDeliver(w, i)
    ensures i !in w.counted
  {
    assert i in w.counted <==> Counts(w, i);
  }

  lemma FailValues(w: When, i: nat)
    requires Values(w) && CanDeliver(w, i) && w.promises[w.inputs[i].id].Bad?
    ensures Values(Deliver(w, i))
  {
  }

  lemma FailCounting(w: When, i: nat)
    requires Counting(w) && Shape(w) && CanDeliver(w, i) && w.promises[w.inputs[i].id].Bad?
    ensures Counting(Deliver(w, i))
  {
    forall j: nat | j < |w.inputs|
      ensures j in w.counted <==> Counts(Deliver(w, i), j)
    {
      assert j in w.counted <==> Counts(w, j);
    }
  }

  lemma FailRan(w: When, i: nat)
    requires Ran(w) && Shape(w) && CanDeliver(w, i) && w.promises[w.inputs[i].id].Bad?
    ensures Ran(Deliver(w, i))
  {
    var t := Deliver(w, i);
    forall j: nat
      ensures j in t.rejections <==> j in t.ran && j < |t.inputs| && IsBad(t, j)
    {
      assert j in w.rejections <==> j in w.ran && j < |w.inputs| && IsBad(w, j);
    }
  }

  lemma KeepDeliver(w: When, i: nat)
    requires Inv(w) && CanDeliver(w, i)
    ensures Inv(Deliver(w, i))
  {
    hide Counting, Ran, Values, MasterOk;
    match w.promises[w.inputs[i].id]
    case Ok(args) => KeepDone(w, i, args);
    case Bad(_) => KeepFail(w, i);
  }

  lemma KeepSettlePromise(w: When, id: nat, s: Settling)
    requires Inv(w)
    ensures Inv(SettlePromise(w, id, s))
  {
    hide Counting, Ran, Values, MasterOk;
    SettleCounting(w, id, s);
    SettleRan(w, id, s);
    SettleValues(w, id, s);
    SettleMaster(w, id, s);
  }

  lemma SettleCounting(w: When, id: nat, s: Settling)
    requires Counting(w) && Ran(w)
    ensures Counting(SettlePromise(w, id, s))
  {
    var t := SettlePromise(w, id, s);
    forall i: nat | i < |w.inputs|
      ensures i in t.counted <==> Counts(t, i)
    {
      assert i in w.counted <==> Counts(w, i);
    }
  }

  lemma SettleRan(w: When, id: nat, s: Settling)
    requires Ran(w)
    ensures Ran(SettlePromise(w, id, s))
  {
    var t := SettlePromise(w, id, s);
    forall i: nat
      ensures i in t.rejections <==> i in t.ran && i < |t.inputs| && IsBad(t, i)
    {
      assert i in w.rejections <==> i in w.ran && i < |w.inputs| && IsBad(w, i);
    }
  }

  lemma SettleValues(w: When, id: nat, s: Settling)
    requires Values(w) && Ran(w)
    ensures Values(SettlePromise(w, id, s))
  {
    var t := SettlePromise(w, id, s);
    forall i: nat | i < |w.inputs|
      ensures t.values[i] == if i in t.ran && IsOk(t, i) then Contribution(t, i) else InputValue(t.inputs[i])
    {
      assert i in w.ran ==> IsBad(w, i) || IsOk(w, i);
    }
  }

  lemma SettleMaster(w: When, id: nat, s: Settling)
    requires MasterOk(w)
    ensures MasterOk(SettlePromise(w, id, s))
  {
    if w.rejections != [] {
      assert BadWith(SettlePromise(w, id, s), w.rejections[0], w.master.value.args);
    }
  }

  lemma Keep(w: When, a: Action)
    requires Inv(w) && Can(w, a)
    ensures Inv(Do(w, a))
  {
    match a
    case DoRegister => KeepRegister(w);
    case DoEndLoop => KeepEndLoop(w);
    case DoDeliver(i) => KeepDeliver(w, i);
    case DoProgress(_, _) =>
    case DoSettlePromise(id, s) => KeepSettlePromise(w, id, s);
  }

  lemma {:induction false} KeepRun(w: When, acts: seq<Action>)
    requires Inv(w) && Legal(w, acts)
    ensures Inv(Exec(w, acts))
    decreases |acts|
  {
    hide Inv;
    if acts != [] {
      Keep(w, acts[0]);
      KeepRun(Do(w, acts[0]), acts[1..]);
    }
  }

  // ---- What every run guarantees ----

  /** Every registered handler whose promise is settled has run. */
  ghost predicate Caught(w: When) {
    forall i: nat :: !CanDeliver(w, i)
  }

  /** The call is over and every handler whose promise settled has run. */
  ghost predicate Quiet(w: When) {
    w.looped && Caught(w)
  }

  /** Every input is a plain value or a promise that resolved. */
  ghost predicate AllOk(w: When) {
    forall i: nat | i < |w.inputs| :: IsOk(w, i)
  }

  /** What becomes of the arguments of a handler: a single one stands for itself, several are an array. */
  predicate Collected(args: seq<Value>, value: Value) {
    && (|args| == 0 ==> value == Undefined)
    && (|args| == 1 ==> value == args[0])
    && (2 <= |args| ==> value == Array(args))
  }

  /** Input `i` is that plain value, or a promise that resolved with these arguments. */
  predicate Yields(w: When, i: nat, value: Value)
    requires i < |w.inputs|
  {
    match w.inputs[i]
    case Plain(plain) => value == plain
    case Promise(id) => id in w.promises && w.promises[id].Ok? && Collected(w.promises[id].args, value)
  }

  /** One value for each input, in the positions of the arguments. */
  ghost predicate InPosition(w: When, values: seq<Value>) {
    |values| == |w.inputs| && forall i: nat | i < |w.inputs| :: IsOk(w, i) && Yields(w, i, values[i])
  }

  lemma {:induction false} InputsStay(w: When, acts: seq<Action>)
    requires Legal(w, acts)
    ensures Exec(w, acts).inputs == w.inputs
    decreases |acts|
  {
    if acts != [] {
      InputsStay(Do(w, acts[0]), acts[1..]);
    }
  }

  lemma OkIsInPosition(w: When)
    requires Inv(w) && w.master.Some? && w.master.value.Ok?
    ensures InPosition(w, w.master.value.args)
  {
    AllCounted(w.counted, |w.inputs|);
    hide Ran;
    forall i: nat | i < |w.inputs|
      ensures IsOk(w, i) && w.values[i] == Contribution(w, i) && Yields(w, i, w.values[i])
    {
      assert i in w.counted <==> Counts(w, i);
    }
  }

  /** At any moment: a resolved master has the value of every input in its position, and the master is rejected as
      soon as a fail handler ran, with the arguments of the first one that did. */
  lemma NeverEarly(inputs: seq<Input>, promises: map<nat, Settling>, acts: seq<Action>)
    requires Legal(Start(inputs, promises), acts)
    ensures var w := Exec(Start(inputs, promises), acts);
            && w.inputs == inputs
            && (w.master.Some? && w.master.value.Ok? ==> InPosition(w, w.master.value.args))
            && (w.master.Some? && w.master.value.Bad? <==> w.rejections != [])
            && (w.rejections != [] ==> BadWith(w, w.rejections[0], w.master.value.args))
  {
    StartKept(inputs, promises);
    KeepRun(Start(inputs, promises), acts);
    InputsStay(Start(inputs, promises), acts);
    var w := Exec(Start(inputs, promises), acts);
    hide Legal, Exec, Start, InPosition, Values, Counting, Ran;
    if w.master.Some? && w.master.value.Ok? { OkIsInPosition(w); }
  }

  /** The arguments of the last call of the progress handler of input `i` in a run, `before` if there was none. */
  function LastProgress(acts: seq<Action>, i: nat, before: Option<seq<Value>>): Option<seq<Value>> {
    if acts == [] then before
    else
      LastProgress(acts[1..], i, if acts[0].DoProgress? && acts[0].i == i then Some(acts[0].args) else before)
  }

  predicate Noticed(args: Option<seq<Value>>, value: Value) {
    match args
    case None => value == Undefined
    case Some(a) => Collected(a, value)
  }

  /** How many progress handlers ran. */
  function ProgressCount(acts: seq<Action>): nat {
    if acts == [] then 0 else (if acts[0].DoProgress? then 1 else 0) + ProgressCount(acts[1..])
  }

  ghost predicate NoticeOk(w: When, i: nat, before: Option<seq<Value>>) {
    && i < |w.progressValues| && Noticed(before, w.progressValues[i])
    && (w.notices != [] ==> w.notices[|w.notices| - 1] == w.progressValues)
  }

  lemma NoticeStep(w: When, a: Action, i: nat, before: Option<seq<Value>>)
    requires Can(w, a) && NoticeOk(w, i, before)
    ensures NoticeOk(Do(w, a), i, if a.DoProgress? && a.i == i then Some(a.args) else before)
    ensures |Do(w, a).notices| == |w.notices| + (if a.DoProgress? then 1 else 0)
  {
    if !a.DoProgress? { SameNotices(w, a); }
  }

  lemma SameNotices(w: When, a: Action)
    requires Can(w, a) && !a.DoProgress?
    ensures Do(w, a).progressValues == w.progressValues && Do(w, a).notices == w.notices
  {
  }

  lemma {:induction false} NoticesKept(w: When, acts: seq<Action>, i: nat, before: Option<seq<Value>>)
    requires Legal(w, acts) && NoticeOk(w, i, before)
    ensures NoticeOk(Exec(w, acts), i, LastProgress(acts, i, before))
    ensures |Exec(w, acts).notices| == |w.notices| + ProgressCount(acts)
    decreases |acts|
  {
    hide Do, Can, NoticeOk;
    if acts != [] {
      NoticeStep(w, acts[0], i, before);
      var now := if acts[0].DoProgress? && acts[0].i == i then Some(acts[0].args) else before;
      NoticesKept(Do(w, acts[0]), acts[1..], i, now);
    }
  }

  /** The master is notified once for each progress, and the last notice holds, in each position, what the last progress
      of that input said, and nothing for an input without progress. */
  lemma NoticesInPosition(inputs: seq<Input>, promises: map<nat, Settling>, acts: seq<Action>, i: nat)
    requires Legal(Start(inputs, promises), acts) && i < |inputs|
    ensures |Exec(Start(inputs, promises), acts).notices| == ProgressCount(acts)
    ensures var w := Exec(Start(inputs, promises), acts);
            w.notices != [] ==> var last := w.notices[|w.notices| - 1];
                                i < |last| && Noticed(LastProgress(acts, i, None), last[i])
  {
    NoticesKept(Start(inputs, promises), acts, i, None);
  }

  /** When everything has come to rest, the master resolved exactly if every promise did, and rejected exactly if some
      promise did. */
  lemma ResolvesExactlyWhenAllDid(inputs: seq<Input>, promises: map<nat, Settling>, acts: seq<Action>)
    requires Legal(Start(inputs, promises), acts) && Quiet(Exec(Start(inputs, promises), acts))
    requires !Single(Exec(Start(inputs, promises), acts))
    ensures var w := Exec(Start(inputs, promises), acts);
            && (w.master.Some? && w.master.value.Ok? <==> AllOk(w))
            && (w.master.Some? && w.master.value.Bad? <==> exists i: nat :: i < |w.inputs| && IsBad(w, i))
  {
    StartKept(inputs, promises);
    KeepRun(Start(inputs, promises), acts);
    AtRest(Exec(Start(inputs, promises), acts));
  }

  lemma AtRest(w: When)
    requires Inv(w) && Quiet(w) && !Single(w)
    ensures w.master.Some? && w.master.value.Ok? <==> AllOk(w)
    ensures w.master.Some? && w.master.value.Bad? <==> exists i: nat :: i < |w.inputs| && IsBad(w, i)
  {
    if w.master.Some? && w.master.value.Ok? { OkIsInPosition(w); }
    hide Values;
    if i: nat :| i < |w.inputs| && IsBad(w, i) {
      assert !CanDeliver(w, i);
      assert i in w.rejections;
    }
    if AllOk(w) { AllOkIsCounted(w); }
  }

  lemma AllOkIsCounted(w: When)
    requires Inv(w) && Quiet(w) && !Single(w) && AllOk(w)
    ensures w.remaining == 0
  {
    AllCounted(w.counted, |w.inputs|);
    hide Values, Ran, MasterOk;
    forall i: nat | i < |w.inputs|
      ensures i in w.counted
    {
      assert IsOk(w, i);
      if w.inputs[i].Promise? {
        assert i < w.next && !CanDeliver(w, i);
        assert i in w.ran;
      }
      assert Counts(w, i);
    }
  }

  // ---- The closure as an object ----

  /** The variables of one call; `w` is what they mean. */
  class WhenCall {
    const inputs: seq<Input>
    var remaining: int
    var values: seq<Value>
    var progressValues: seq<Value>
    var master: Option<Settling>
    ghost var w: When

    ghost predicate Valid()
      reads this
    {
      Means() && Inv(w)
    }

    ghost predicate Means()
      reads this
    {
      && w.inputs == inputs && w.remaining == remaining && w.values == values && w.progressValues == progressValues
      && w.master == master
    }

    /** The call up to its loop (3283-3312). */
    constructor (inputs: seq<Input>, ghost promises: map<nat, Settling>)
      ensures Means() && w == Start(inputs, promises)
    {
      var n := |inputs|;
      this.inputs := inputs;
      remaining := if n != 1 || inputs[0].Promise? then n else 0;
      values := seq(n, i requires 0 <= i < n => InputValue(inputs[i]));
      progressValues := seq(n, _ => Undefined);
      master := None;
      w := Start(inputs, promises);
    }

    /** The call (3283-3330); `promises` are the promises that are settled already, whose handlers run at once. */
    static method Call(inputs: seq<Input>, promises: map<nat, Settling>) returns (c: WhenCall)
      ensures fresh(c) && c.Valid() && Quiet(c.w) && c.w.inputs == inputs && c.w.promises == promises
    {
      StartKept(inputs, promises);
      StartCaught(inputs, promises);
      hide Inv, Caught, CanDeliver, Start;
      c := new WhenCall(inputs, promises);
      if |inputs| > 1 { c.Subscribe(promises); }
      c.ResolveIfDone();
    }

    /** After the loop (3325-3328). */
    method ResolveIfDone()
      requires Valid() && !w.looped && w.next == LoopEnd(w) && Caught(w)
      modifies this
      ensures Valid() && w == EndLoop(old(w)) && Quiet(w)
    {
      hide Inv, Caught;
      KeepEndLoop(w);
      EndCaught(w);
      if remaining == 0 && master == None {
        master := Some(Ok(values));
      }
      w := EndLoop(w);
    }

    /** The loop (3313-3322). */
    method Subscribe(promises: map<nat, Settling>)
      requires Valid() && w.next == 0 && !w.looped && |inputs| > 1 && w.promises == promises && Caught(w)
      modifies this
      ensures Valid() && w.inputs == old(w.inputs) && w.promises == promises
      ensures w.next == |inputs| && !w.looped && Caught(w)
    {
      hide Inv, Caught;
      var i: nat := 0;
      while i < |inputs|
        invariant Valid() && i == w.next <= |inputs| && !w.looped && Caught(w)
        invariant w.inputs == old(w.inputs) && w.promises == promises
      {
        SubscribeOne(i, promises);
        i := i + 1;
      }
    }

    /** One iteration of the loop. */
    method SubscribeOne(i: nat, promises: map<nat, Settling>)
      requires Valid() && i == w.next < LoopEnd(w) && !w.looped && Caught(w) && w.promises == promises
      modifies this
      ensures Valid() && w.inputs == old(w.inputs) && w.promises == promises
      ensures w.next == i + 1 && !w.looped && Caught(w)
    {
      hide Inv, Caught, CanDeliver, Register, Deliver;
      KeepRegister(w);
      RegisterCaught(w);
      w := Register(w);
      if inputs[i].Plain? {
        remaining := remaining - 1;
      } else if inputs[i].id in promises {
        DeliverCaught(w, i);
        RunHandler(i, promises[inputs[i].id]);
      }
    }

    /** The handlers of input `i`, whose promise settled, run. */
    method RunHandler(i: nat, s: Settling)
      requires Valid() && CanDeliver(w, i) && w.promises[inputs[i].id] == s
      modifies this
      ensures Valid() && w == Deliver(old(w), i)
    {
      hide Inv;
      KeepDeliver(w, i);
      ShapeOf(w, i);
      if s.Ok? { RunDone(i, s.args); } else { RunFail(i, s.args); }
    }

    /** The done handler (3295-3302) of input `i`. */
    method RunDone(i: nat, args: seq<Value>)
      requires Means() && CanDeliver(w, i) && i < |w.values| && w.promises[inputs[i].id] == Ok(args)
      modifies this
      ensures Means() && w == Deliver(old(w), i)
    {
      values := values[i := Stored(args)];
      remaining := remaining - 1;
      if remaining == 0 && master == None {
        master := Some(Ok(values));
      }
      w := Done(w, i, args);
    }

    /** The fail handler (3317) of input `i`. */
    method RunFail(i: nat, args: seq<Value>)
      requires Means() && CanDeliver(w, i) && i < |w.values| && w.promises[inputs[i].id] == Bad(args)
      modifies this
      ensures Means() && w == Deliver(old(w), i)
    {
      if master == None {
        master := Some(Bad(args));
      }
      w := Deliver(w, i);
    }

    /** A progress handler runs (3295-3299, 3318); the result is what the master is notified with. */
    method RunProgress(i: nat, args: seq<Value>) returns (notice: seq<Value>)
      requires Valid() && i < w.next
      modifies this
      ensures Valid() && w == Progress(old(w), i, args)
      ensures |notice| == |old(w).progressValues| && Collected(args, notice[i])
      ensures forall j | 0 <= j < |notice| && j != i :: notice[j] == old(w).progressValues[j]
    {
      progressValues := progressValues[i := Stored(args)];
      w := Progress(w, i, args);
      notice := progressValues;
    }
  }

  lemma ShapeOf(w: When, i: nat)
    requires Inv(w) && CanDeliver(w, i)
    ensures i < |w.values|
  {
  }

  lemma EndCaught(w: When)
    requires Caught(w)
    ensures Caught(EndLoop(w)) && EndLoop(w).inputs == w.inputs && EndLoop(w).promises == w.promises
  {
    forall i: nat
      ensures !CanDeliver(EndLoop(w), i)
    {
      assert !CanDeliver(w, i);
    }
  }

  lemma StartCaught(inputs: seq<Input>, promises: map<nat, Settling>)
    ensures var w := Start(inputs, promises);
            && Caught(w) && !w.looped && w.next == 0 && w.inputs == inputs && w.promises == promises
            && (|inputs| <= 1 ==> LoopEnd(w) == 0)
  {
  }

  /** Registering makes at most the handler of that input ready. */
  lemma RegisterCaught(w: When)
    requires Inv(w) && Caught(w) && w.next < LoopEnd(w)
    ensures Register(w).next == w.next + 1 && Register(w).looped == w.looped
    ensures Register(w).inputs == w.inputs && Register(w).promises == w.promises && Register(w).values == w.values
    ensures Register(w).progressValues == w.progressValues && Register(w).master == w.master
    ensures Register(w).remaining == if w.inputs[w.next].Plain? then w.remaining - 1 else w.remaining
    ensures forall j: nat :: CanDeliver(Register(w), j) ==> j == w.next
    ensures CanDeliver(Register(w), w.next) <==> w.inputs[w.next].Promise? && w.inputs[w.next].id in w.promises
    ensures !CanDeliver(Register(w), w.next) ==> Caught(Register(w))
  {
    hide Values, Counting, MasterOk;
    forall j: nat | CanDeliver(Register(w), j)
      ensures j == w.next
    {
      assert !CanDeliver(w, j);
    }
  }

  lemma DeliverCaught(w: When, i: nat)
    requires Inv(w) && CanDeliver(w, i) && forall j: nat :: CanDeliver(w, j) ==> j == i
    ensures Caught(Deliver(w, i))
    ensures Deliver(w, i).next == w.next && Deliver(w, i).looped == w.looped
    ensures Deliver(w, i).inputs == w.inputs && Deliver(w, i).promises == w.promises
  {
    hide Values, Counting, MasterOk, Ran;
    forall j: nat
      ensures !CanDeliver(Deliver(w, i), j)
    {
      assert CanDeliver(w, j) ==> j == i;
    }
  }
}
