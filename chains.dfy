/** Values shared by every part of the model: the opaque handler functions,
    the trace of handler invocations they leave behind, and the untyped values
    (Go's interface{}) held by the key/value stores. */
module Chains {

  datatype Option<+T> = None | Some(value: T)

  /** A middleware (Go: func(*Context)). Its body is opaque; it is identified
      by a name, and running it leaves one Middleware event in the trace. */
  datatype MiddlewareFn = MiddlewareFn(name: string)

  /** A controller (Go: func(*Context, *Response)); NilController is the zero
      value a freshly made route carries until a controller is assigned. */
  datatype ControllerFn = NilController | ControllerFn(name: string)

  /** An ordered middleware chain (Go: MiddlewareChain, a slice of MiddlewareFunc). */
  type MiddlewareChain = seq<MiddlewareFn>

  /** One handler invocation observed during dispatch. */
  datatype Event = Middleware(m: MiddlewareFn) | Controller(c: ControllerFn)

  /** An untyped stored value (Go: interface{}); Nil is Go's nil. */
  datatype Value = Nil | Str(s: string) | Opaque(id: nat)

  /** The events left by running every middleware of a chain in order. */
  function Events(chain: MiddlewareChain): (t: seq<Event>)
    ensures |t| == |chain|
    ensures forall i :: 0 <= i < |chain| ==> t[i] == Middleware(chain[i])
  {
    seq(|chain|, i requires 0 <= i < |chain| => Middleware(chain[i]))
  }

  lemma EventsAppend(a: MiddlewareChain, b: MiddlewareChain)
    ensures Events(a + b) == Events(a) + Events(b)
  {
  }

  /** How many controller invocations a trace records. */
  function ControllerCount(t: seq<Event>): nat
  {
    if t == [] then 0
    else (if t[0].Controller? then 1 else 0) + ControllerCount(t[1..])
  }

  lemma {:induction false} ControllerCountAppend(a: seq<Event>, b: seq<Event>)
    ensures ControllerCount(a + b) == ControllerCount(a) + ControllerCount(b)
  {
    if a == [] {
      assert a + b == b;
    } else {
      assert (a + b)[1..] == a[1..] + b;
      ControllerCountAppend(a[1..], b);
    }
  }

  /** A middleware chain runs no controller. */
  lemma {:induction false} EventsHaveNoController(chain: MiddlewareChain)
    ensures ControllerCount(Events(chain)) == 0
  {
    if chain != [] {
      assert Events(chain) == [Middleware(chain[0])] + Events(chain[1..]);
      ControllerCountAppend([Middleware(chain[0])], Events(chain[1..]));
      EventsHaveNoController(chain[1..]);
    }
  }

  /** Go's map index: the stored value, or the zero value nil for an absent key. */
  function Lookup(m: map<string, Value>, key: string): (v: Value)
    ensures key in m ==> v == m[key]
    ensures key !in m ==> v == Nil
  {
    if key in m then m[key] else Nil
  }
}
