/** context.go: the per-request Context. It holds the dispatch cursor, the
    matched route and a request-scoped key/value store. Running a handler is
    modelled as appending its event to the context's trace. */
module Contexts {
  import opened Chains
  import opened Routes
  import opened Dispatch

  class Context {
    /** Go: middlewareIndex, an int8; it always lies in [-128, 127]. */
    var middlewareIndex: int
    /** Go: doneBefore, set once the before chain has run. */
    var doneBefore: bool
    /** The matched route. */
    const route: Route
    /** The request-scoped store (Go: data). */
    var data: map<string, Value>
    /** The handlers run so far, in order. */
    var trace: seq<Event>

    /** The dispatch cursor. */
    function Cur(): Cursor
      reads this
    {
      Cursor(middlewareIndex, doneBefore)
    }

    /** The chains fit the int8 index and the cursor is in range for them. */
    predicate Valid()
      reads this, route
    {
      && |route.before| <= 128 && |route.after| <= 128
      && InRange(Cur(), |route.before|, |route.after|)
    }

    /** newContext: index -1, before phase, empty store, nothing run yet. */
    constructor (route: Route)
      ensures this.route == route
      ensures middlewareIndex == -1 && !doneBefore
      ensures Cur() == Fresh
      ensures data == map[] && trace == []
    {
      middlewareIndex := -1;
      doneBefore := false;
      this.route := route;
      data := map[];
      trace := [];
    }

    /** Next: take one step of the dispatch state machine, then call Next
        again; returns when no branch applies. The handlers it runs are those
        of Dispatch.Run, and the cursor ends where Run ends. */
    method Next()
      requires Valid()
      modifies this`middlewareIndex, this`doneBefore, this`trace
      ensures Valid()
      ensures trace == old(trace) + Run(old(Cur()), route.before, route.controller, route.after).trace
      ensures Cur() == Run(old(Cur()), route.before, route.controller, route.after).end
      ensures Cur() == Done(|route.after|)
      ensures old(Cur()) == Done(|route.after|) ==> trace == old(trace) && Cur() == old(Cur())
      decreases Remaining(Cur(), |route.before|, |route.after|)
    {
      ghost var s, b, c, a := Cur(), route.before, route.controller, route.after;
      AsWrittenAgrees(s, |b|, |a|);
      StayIffDone(s, |b|, |a|);
      if middlewareIndex < Int8(|route.before| - 1) && !doneBefore {
        middlewareIndex := Int8(middlewareIndex + 1);
        trace := trace + [Middleware(route.before[middlewareIndex])];
        assert Cur() == Advance(s, |b|, |a|) && trace == old(trace) + Emit(s, b, c, a);
        Next();
      } else if middlewareIndex == Int8(|route.before| - 1) && !doneBefore {
        doneBefore := true;
        middlewareIndex := -1;
        trace := trace + [Controller(route.controller)];
        assert Cur() == Advance(s, |b|, |a|) && trace == old(trace) + Emit(s, b, c, a);
        Next();
      } else if middlewareIndex < Int8(|route.after| - 1) && doneBefore {
        middlewareIndex := Int8(middlewareIndex + 1);
        trace := trace + [Middleware(route.after[middlewareIndex])];
        assert Cur() == Advance(s, |b|, |a|) && trace == old(trace) + Emit(s, b, c, a);
        Next();
      } else {
        assert Decide(s, |b|, |a|) == Stay;
      }
    }

    /** Stores a request-scoped value under key; every other key keeps its value. */
    method Set(key: string, value: Value)
      modifies this`data
      ensures data == old(data)[key := value]
      ensures Get(key) == value
      ensures forall k :: k != key ==> Get(k) == old(Get(k))
    {
      data := data[key := value];
    }

    /** The request-scoped value under key, or nil when none is stored. */
    function Get(key: string): (v: Value)
      reads this
      ensures key in data ==> v == data[key]
      ensures key !in data ==> v == Nil
    {
      Lookup(data, key)
    }
  }
}
