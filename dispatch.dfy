/** The dispatch state machine of Context.Next (context.go), on values.

    A context's dispatch state is a cursor: the middleware index (starting at
    -1) and the phase flag doneBefore. Each Next call takes one step (run the
    next before-middleware; or run the controller, flip the flag and reset the
    index; or run the next after-middleware) and then calls Next again, until
    no branch applies. Run is that whole recursion as a function; the Contexts
    module proves the imperative Next against it. */
module Dispatch {
  import opened Chains

  /** Go: Context.middlewareIndex and Context.doneBefore. */
  datatype Cursor = Cursor(index: int, doneBefore: bool)

  /** The state newContext creates. */
  const Fresh: Cursor := Cursor(-1, false)

  /** The branch one Next call takes. */
  datatype Step = RunBefore | RunController | RunAfter | Stay

  /** Go's conversion of an int to int8: two's-complement truncation. */
  function Int8(x: int): (r: int)
    ensures -128 <= r < 128
    ensures -128 <= x < 128 ==> r == x
    ensures (r - x) % 256 == 0
  {
    (x + 128) % 256 - 128
  }

  /** The branch Next takes as the source writes it: the chain lengths are
      converted with int8(len - 1) before the comparison. */
  function DecideAsWritten(s: Cursor, nBefore: nat, nAfter: nat): Step
  {
    if s.index < Int8(nBefore - 1) && !s.doneBefore then RunBefore
    else if s.index == Int8(nBefore - 1) && !s.doneBefore then RunController
    else if s.index < Int8(nAfter - 1) && s.doneBefore then RunAfter
    else Stay
  }

  /** The branch Next takes with the lengths compared without truncation:
      the decision the rest of the model uses. */
  function Decide(s: Cursor, nBefore: nat, nAfter: nat): Step
  {
    if s.index < nBefore - 1 && !s.doneBefore then RunBefore
    else if s.index == nBefore - 1 && !s.doneBefore then RunController
    else if s.index < nAfter - 1 && s.doneBefore then RunAfter
    else Stay
  }

  /** The index lies in [-1, |chain| - 1] for the chain of the current phase. */
  predicate InRange(s: Cursor, nBefore: nat, nAfter: nat)
  {
    -1 <= s.index <= (if s.doneBefore then nAfter else nBefore) - 1
  }

  /** The state once both chains and the controller have run. */
  function Done(nAfter: nat): Cursor
  {
    Cursor(nAfter - 1, true)
  }

  /** In range, Next has nothing left to do exactly in the Done state. */
  lemma StayIffDone(s: Cursor, nBefore: nat, nAfter: nat)
    requires InRange(s, nBefore, nAfter)
    ensures Decide(s, nBefore, nAfter) == Stay <==> s == Done(nAfter)
  {
  }

  /** The cursor after one step. */
  function Advance(s: Cursor, nBefore: nat, nAfter: nat): (t: Cursor)
    requires InRange(s, nBefore, nAfter)
    ensures InRange(t, nBefore, nAfter)
    ensures s.doneBefore ==> t.doneBefore
    ensures t.doneBefore == s.doneBefore ==> s.index <= t.index
    ensures Decide(s, nBefore, nAfter) == RunController ==> t == Cursor(-1, true)
  {
    match Decide(s, nBefore, nAfter)
    case RunBefore => Cursor(s.index + 1, false)
    case RunController => Cursor(-1, true)
    case RunAfter => Cursor(s.index + 1, true)
    case Stay => s
  }

  /** The handler invocation of one step, if any. */
  function Emit(s: Cursor, before: MiddlewareChain, controller: ControllerFn, after: MiddlewareChain): seq<Event>
    requires InRange(s, |before|, |after|)
  {
    match Decide(s, |before|, |after|)
    case RunBefore => [Middleware(before[s.index + 1])]
    case RunController => [Controller(controller)]
    case RunAfter => [Middleware(after[s.index + 1])]
    case Stay => []
  }

  /** Steps left before the Done state. */
  function Remaining(s: Cursor, nBefore: nat, nAfter: nat): nat
    requires InRange(s, nBefore, nAfter)
  {
    if s.doneBefore then nAfter - 1 - s.index else nBefore - s.index + nAfter
  }

  /** The handlers a Next call runs, and the cursor it leaves behind. */
  datatype Outcome = Outcome(trace: seq<Event>, end: Cursor)

  /** One Next call: a step, then Next again, until no branch applies. */
  function Run(s: Cursor, before: MiddlewareChain, controller: ControllerFn, after: MiddlewareChain): (o: Outcome)
    requires InRange(s, |before|, |after|)
    ensures o.end == Done(|after|)
    decreases Remaining(s, |before|, |after|)
  {
    if Decide(s, |before|, |after|) == Stay then
      StayIffDone(s, |before|, |after|);
      Outcome([], s)
    else
      var o := Run(Advance(s, |before|, |after|), before, controller, after);
      Outcome(Emit(s, before, controller, after) + o.trace, o.end)
  }

  /** In the after phase at index i, Next runs the rest of the after chain. */
  lemma {:induction false} RunInAfterPhase(i: int, before: MiddlewareChain, controller: ControllerFn, after: MiddlewareChain)
    requires -1 <= i <= |after| - 1
    ensures Run(Cursor(i, true), before, controller, after).trace == Events(after[i + 1..])
    decreases |after| - i
  {
    var s := Cursor(i, true);
    if i < |after| - 1 {
      RunInAfterPhase(i + 1, before, controller, after);
      assert after[i + 1..] == [after[i + 1]] + after[i + 2..];
      EventsAppend([after[i + 1]], after[i + 2..]);
    } else {
      assert after[i + 1..] == [];
    }
  }

  /** In the before phase at index i, Next runs the rest of the before chain,
      then the controller, then the whole after chain. */
  lemma {:induction false} RunInBeforePhase(i: int, before: MiddlewareChain, controller: ControllerFn, after: MiddlewareChain)
    requires -1 <= i <= |before| - 1
    ensures Run(Cursor(i, false), before, controller, after).trace
         == Events(before[i + 1..]) + [Controller(controller)] + Events(after)
    decreases |before| - i
  {
    if i < |before| - 1 {
      RunInBeforePhase(i + 1, before, controller, after);
      assert before[i + 1..] == [before[i + 1]] + before[i + 2..];
      EventsAppend([before[i + 1]], before[i + 2..]);
    } else {
      RunInAfterPhase(-1, before, controller, after);
      assert before[i + 1..] == [];
      assert after[0..] == after;
    }
  }

  /** From a fresh context, one Next runs every before-middleware in order,
      the controller once, then every after-middleware in order, and leaves
      the cursor in the Done state. */
  lemma RunFromFresh(before: MiddlewareChain, controller: ControllerFn, after: MiddlewareChain)
    ensures Run(Fresh, before, controller, after).trace
         == Events(before) + [Controller(controller)] + Events(after)
    ensures Run(Fresh, before, controller, after).end == Cursor(|after| - 1, true)
  {
    RunInBeforePhase(-1, before, controller, after);
    assert before[0..] == before;
  }

  /** The controller runs exactly once per dispatch from a fresh context. */
  lemma ControllerRunsOnce(before: MiddlewareChain, controller: ControllerFn, after: MiddlewareChain)
    ensures ControllerCount(Run(Fresh, before, controller, after).trace) == 1
  {
    RunFromFresh(before, controller, after);
    var t := Events(before) + [Controller(controller)] + Events(after);
    ControllerCountAppend(Events(before) + [Controller(controller)], Events(after));
    ControllerCountAppend(Events(before), [Controller(controller)]);
    EventsHaveNoController(before);
    EventsHaveNoController(after);
    assert ControllerCount([Controller(controller)]) == 1 by {
      assert [Controller(controller)][1..] == [];
    }
  }

  /** Once a Next call has returned, further Next calls run nothing and leave
      the cursor where it is. */
  lemma NextAfterDoneIsNoop(s: Cursor, before: MiddlewareChain, controller: ControllerFn, after: MiddlewareChain)
    requires InRange(s, |before|, |after|)
    ensures var e := Run(s, before, controller, after).end;
            InRange(e, |before|, |after|) && Run(e, before, controller, after) == Outcome([], e)
  {
    var e := Run(s, before, controller, after).end;
    StayIffDone(e, |before|, |after|);
  }

  /** With an empty before chain the first step is the controller, since the
      fresh index -1 already equals len - 1. */
  lemma EmptyBeforeRunsControllerFirst(controller: ControllerFn, after: MiddlewareChain)
    ensures Decide(Fresh, 0, |after|) == RunController
    ensures Run(Fresh, [], controller, after).trace[0] == Controller(controller)
  {
    RunFromFresh([], controller, after);
  }

  /** Once the phase flag is set, no before-middleware and no controller can run again. */
  lemma NoBeforeStepAfterController(s: Cursor, nBefore: nat, nAfter: nat)
    requires s.doneBefore
    ensures Decide(s, nBefore, nAfter) in {RunAfter, Stay}
  {
  }

  /** With chains of at most 128 middlewares the int8 conversions are exact:
      the source's guards take the same branch as Decide, and the int8
      increment of an in-range index does not wrap. */
  lemma AsWrittenAgrees(s: Cursor, nBefore: nat, nAfter: nat)
    requires nBefore <= 128 && nAfter <= 128
    requires InRange(s, nBefore, nAfter)
    ensures DecideAsWritten(s, nBefore, nAfter) == Decide(s, nBefore, nAfter)
    ensures Decide(s, nBefore, nAfter) in {RunBefore, RunAfter} ==> Int8(s.index + 1) == s.index + 1
  {
  }

  /** The as-written guards on longer chains: with 256 before-middlewares
      int8(255) is -1, so the fresh context goes straight to the controller and
      skips every before-middleware; with 129, int8(128) is -128 and no branch
      applies, so nothing runs at all. */
  lemma Int8WrapSkipsBeforeChain(nAfter: nat)
    ensures DecideAsWritten(Fresh, 256, nAfter) == RunController
    ensures Decide(Fresh, 256, nAfter) == RunBefore
    ensures DecideAsWritten(Fresh, 129, nAfter) == Stay
    ensures Decide(Fresh, 129, nAfter) == RunBefore
  {
  }
}
