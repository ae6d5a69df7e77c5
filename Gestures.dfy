/**
 * Whole gestures: a sequence of touch events delivered to a Label, replayed through
 * the transition functions of module ClickableLabel, with the taps delivered to
 * linkTapHandler collected in order.
 */
module Gestures {
  import opened Wrappers
  import opened Geometry
  import opened ClickableLabel

  /** One touch-handler call: Down is touchesBegan at its first touch, Move is
      touchesMoved with its first touch if any, Up is touchesEnded and Cancel is
      touchesCancelled. */
  datatype Touch =
    | Down(at: Point)
    | Move(to: Option<Point>)
    | Up
    | Cancel

  function Step(s: LabelState, e: Touch, p: Platform): LabelState
  {
    match e
    case Down(pt) => Began(s, pt, p)
    case Move(t) => Moved(s, t, p)
    case Up => Ended(s)
    case Cancel => Cancelled(s)
  }

  /** The taps a handler call delivers: only touchesEnded calls linkTapHandler. */
  function StepTaps(s: LabelState, e: Touch): seq<Url>
  {
    if e.Up? then Fired(s) else []
  }

  datatype Outcome = Outcome(state: LabelState, taps: seq<Url>)

  /** Runs handler calls in order: `step` gives the next state and `out` the taps a
      call delivers. */
  function Run(s: LabelState, es: seq<Touch>,
               step: (LabelState, Touch) -> LabelState,
               out: (LabelState, Touch) -> seq<Url>): Outcome
    decreases |es|
  {
    if |es| == 0 then Outcome(s, [])
    else
      var rest := Run(step(s, es[0]), es[1..], step, out);
      Outcome(rest.state, out(s, es[0]) + rest.taps)
  }

  /** The handler calls of a Label, from state s, with the foreign calls of p. */
  function Replay(s: LabelState, es: seq<Touch>, p: Platform): Outcome
  {
    Run(s, es, (x, e) => Step(x, e, p), StepTaps)
  }

  function CountEnded(es: seq<Touch>): nat
  {
    if |es| == 0 then 0 else (if es[0].Up? then 1 else 0) + CountEnded(es[1..])
  }

  predicate AllMoves(es: seq<Touch>)
  {
    forall i :: 0 <= i < |es| ==> es[i].Move?
  }

  /** The last point carried by a sequence of moves, if any. */
  function LastPoint(ms: seq<Touch>): Option<Point>
    requires AllMoves(ms)
    decreases |ms|
  {
    if |ms| == 0 then None
    else
      var later := LastPoint(ms[1..]);
      if later.Some? then later else ms[0].to
  }

  /** Running a concatenation runs the first part, then the second from where the
      first ended. */
  lemma {:induction false} RunConcat(s: LabelState, a: seq<Touch>, b: seq<Touch>,
                                     step: (LabelState, Touch) -> LabelState,
                                     out: (LabelState, Touch) -> seq<Url>)
    ensures Run(s, a + b, step, out).state == Run(Run(s, a, step, out).state, b, step, out).state
    ensures Run(s, a + b, step, out).taps ==
            Run(s, a, step, out).taps + Run(Run(s, a, step, out).state, b, step, out).taps
    decreases |a|
  {
    if |a| > 0 {
      assert (a + b)[1..] == a[1..] + b;
      RunConcat(step(s, a[0]), a[1..], b, step, out);
    } else {
      assert a + b == b;
    }
  }

  /** Replaying a concatenation is replaying one part after the other. */
  lemma ReplayConcat(s: LabelState, a: seq<Touch>, b: seq<Touch>, p: Platform)
    ensures Replay(s, a + b, p).state == Replay(Replay(s, a, p).state, b, p).state
    ensures Replay(s, a + b, p).taps == Replay(s, a, p).taps + Replay(Replay(s, a, p).state, b, p).taps
  {
    RunConcat(s, a, b, (x, e) => Step(x, e, p), StepTaps);
  }

  /** Every handler keeps the gesture invariant, so any event sequence does. */
  lemma {:induction false} ReplayKeepsConsistent(s: LabelState, es: seq<Touch>, p: Platform)
    requires Consistent(s)
    ensures Consistent(Replay(s, es, p).state)
    decreases |es|
  {
    if |es| > 0 {
      if es[0].Down? {
        BeganKeepsConsistent(s, es[0].at, p);
      }
      ReplayKeepsConsistent(Step(s, es[0], p), es[1..], p);
    }
  }

  /** Each touchesEnded delivers at most one tap and no other handler delivers any. */
  lemma {:induction false} TapsBoundedByEnds(s: LabelState, es: seq<Touch>, p: Platform)
    ensures |Replay(s, es, p).taps| <= CountEnded(es)
    decreases |es|
  {
    if |es| > 0 {
      TapsBoundedByEnds(Step(s, es[0], p), es[1..], p);
    }
  }

  /** Moves only toggle visibility: afterwards the highlight is hidden exactly when
      the last move was outside the path, and nothing is delivered. */
  lemma {:induction false} MovesOnlyToggle(s: LabelState, ms: seq<Touch>, p: Platform)
    requires AllMoves(ms)
    ensures Replay(s, ms, p).taps == []
    ensures Replay(s, ms, p).state ==
      if s.highlightedLink.Some? && LastPoint(ms).Some?
      then s.(layer := s.layer.(hidden := !Inside(s.layer, LastPoint(ms).value, p)))
      else s
    decreases |ms|
  {
    if |ms| > 0 {
      var s1 := Moved(s, ms[0].to, p);
      assert AllMoves(ms[1..]) by {
        forall i | 0 <= i < |ms| - 1 ensures ms[1..][i].Move? {
          assert ms[1..][i] == ms[i + 1];
        }
      }
      MovesOnlyToggle(s1, ms[1..], p);
    }
  }

  /** A tap on a link, any moves, then the finger lifts: the link is delivered once
      exactly when the handler is set and either the finger never moved or its last
      move ended inside the highlight; the gesture ends with no link and the
      highlight detached. */
  lemma TapGesture(s: LabelState, pt: Point, ms: seq<Touch>, p: Platform, u: Url)
    requires s.textStorage.Some?
    requires LinkHit(RunAt(p, pt).link, p.urlFromString) == Link(Some(u))
    requires AllMoves(ms)
    ensures var b := Began(s, pt, p);
      var o := Replay(s, [Down(pt)] + ms + [Up], p);
      o.taps == (if s.hasLinkTapHandler && (LastPoint(ms).None? || Inside(b.layer, LastPoint(ms).value, p))
                 then [u] else []) &&
      o.state.highlightedLink.None? && !o.state.layer.attached
  {
    var b := Began(s, pt, p);
    BeganCases(s, pt, p);
    ReplayConcat(s, [Down(pt)] + ms, [Up], p);
    ReplayConcat(s, [Down(pt)], ms, p);
    MovesOnlyToggle(b, ms, p);
  }

  /** A gesture that is cancelled delivers nothing, whatever it touched, and ends
      with no link and the highlight detached. */
  lemma CancelledGesture(s: LabelState, pt: Point, ms: seq<Touch>, p: Platform)
    requires AllMoves(ms)
    ensures var o := Replay(s, [Down(pt)] + ms + [Cancel], p);
      o.taps == [] && o.state.highlightedLink.None? && !o.state.layer.attached
  {
    ReplayConcat(s, [Down(pt)] + ms, [Cancel], p);
    ReplayConcat(s, [Down(pt)], ms, p);
    MovesOnlyToggle(Began(s, pt, p), ms, p);
  }

  /** From the idle state, a gesture that starts off any link (or on a label with no
      text) delivers nothing and leaves the state as it was. */
  lemma MissedGesture(s: LabelState, pt: Point, ms: seq<Touch>, p: Platform)
    requires s.highlightedLink.None?
    requires s.textStorage.None? || LinkHit(RunAt(p, pt).link, p.urlFromString).Miss?
    requires AllMoves(ms)
    ensures Replay(s, [Down(pt)] + ms + [Up], p) == Outcome(s, [])
  {
    BeganCases(s, pt, p);
    ReplayConcat(s, [Down(pt)] + ms, [Up], p);
    ReplayConcat(s, [Down(pt)], ms, p);
    MovesOnlyToggle(s, ms, p);
  }
}
