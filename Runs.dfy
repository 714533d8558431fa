/**
 * The shape shared by the provider's create and update callbacks: a
 * sequence of steps, each either a check that rejects the configuration
 * before any further request, or a remote request that may fail. The
 * callback issues the requests in order and stops at the first rejection or
 * failed request, returning that step's error.
 *
 * `C` is the type of remote requests and `E` the type of errors; a request
 * step carries the error it is reported with when it fails.
 */
module Runs {
  import opened Wrappers

  datatype Step<C, E> = Reject(error: E) | Send(call: C, failure: E)

  /** The requests issued, in order, and the error returned. */
  datatype Outcome<C, E> = Outcome(calls: seq<C>, err: Option<E>)

  /** A check that rejects with `e` unless `ok` holds: no step when it passes. */
  function Check<C, E>(ok: bool, e: E): seq<Step<C, E>>
  {
    if ok then [] else [Reject(e)]
  }

  /** A step lets the run go on: it sends a request and the request succeeds. */
  predicate Passes<C, E>(s: Step<C, E>, succeeds: C -> bool)
  {
    s.Send? && succeeds(s.call)
  }

  /** The error a step that does not pass is reported with. */
  function FailureOf<C, E>(s: Step<C, E>): E
  {
    match s
    case Reject(e) => e
    case Send(_, f) => f
  }

  /** Running steps i .. in order, stopping at the first rejection or failed
      request. */
  function Run<C, E>(steps: seq<Step<C, E>>, i: nat, succeeds: C -> bool): (o: Outcome<C, E>)
    requires i <= |steps|
    ensures |o.calls| <= |steps| - i
    decreases |steps| - i
  {
    if i == |steps| then Outcome([], None)
    else match steps[i]
      case Reject(e) => Outcome([], Some(e))
      case Send(c, f) =>
        if !succeeds(c) then Outcome([c], Some(f))
        else
          var rest := Run(steps, i + 1, succeeds);
          Outcome([c] + rest.calls, rest.err)
  }

  /** The index of the first step at or after i that does not pass, or |steps|. */
  function FirstBlocked<C, E>(steps: seq<Step<C, E>>, i: nat, succeeds: C -> bool): (k: nat)
    requires i <= |steps|
    ensures i <= k <= |steps|
    ensures forall j :: i <= j < k ==> Passes(steps[j], succeeds)
    ensures k < |steps| ==> !Passes(steps[k], succeeds)
    decreases |steps| - i
  {
    if i == |steps| || !Passes(steps[i], succeeds) then i
    else FirstBlocked(steps, i + 1, succeeds)
  }

  /**
   * What a run does, completely: it issues the requests of the steps before
   * the first blocked one, in order, plus that one's request when it is a
   * failed request; it returns no error exactly when no step is blocked, and
   * otherwise the blocked step's error.
   */
  lemma {:induction false} RunSpec<C, E>(steps: seq<Step<C, E>>, i: nat, succeeds: C -> bool)
    requires i <= |steps|
    ensures var o := Run(steps, i, succeeds);
            var k := FirstBlocked(steps, i, succeeds);
            (forall j :: 0 <= j < |o.calls| ==> steps[i + j].Send? && steps[i + j].call == o.calls[j])
            && (o.err.None? <==> k == |steps|)
            && (k == |steps| ==> |o.calls| == |steps| - i)
            && (k < |steps| ==> o.err == Some(FailureOf(steps[k])))
            && (k < |steps| ==> |o.calls| == if steps[k].Send? then k + 1 - i else k - i)
    decreases |steps| - i
  {
    if i < |steps| && Passes(steps[i], succeeds) {
      RunSpec(steps, i + 1, succeeds);
      var o := Run(steps, i, succeeds);
      var rest := Run(steps, i + 1, succeeds);
      assert o.calls == [steps[i].call] + rest.calls;
      forall j | 0 <= j < |o.calls|
        ensures steps[i + j].Send? && steps[i + j].call == o.calls[j]
      {
        if j > 0 {
          assert o.calls[j] == rest.calls[j - 1];
          assert steps[(i + 1) + (j - 1)].call == rest.calls[j - 1];
        }
      }
    }
  }

  /** The run from i, with the requests already issued put in front. */
  function Continue<C, E>(done: seq<C>, o: Outcome<C, E>): Outcome<C, E>
  {
    Outcome(done + o.calls, o.err)
  }

  /** One successful request moves from the run's remainder to the issued part. */
  lemma ContinueSend<C, E>(done: seq<C>, c: C, rest: Outcome<C, E>)
    ensures Continue(done, Outcome([c] + rest.calls, rest.err)) == Continue(done + [c], rest)
  {
    assert done + ([c] + rest.calls) == (done + [c]) + rest.calls;
  }

  /** Running one part and then, if it ended without error, the next. */
  function Then<C, E>(first: Outcome<C, E>, next: Outcome<C, E>): (o: Outcome<C, E>)
  {
    if first.err.Some? then first else Continue(first.calls, next)
  }

  /** A run past the end of a prefix is the run of what follows it. */
  lemma {:induction false} RunShift<C, E>(a: seq<Step<C, E>>, b: seq<Step<C, E>>, j: nat, succeeds: C -> bool)
    requires j <= |b|
    ensures Run(a + b, |a| + j, succeeds) == Run(b, j, succeeds)
    decreases |b| - j
  {
    if j < |b| {
      assert (a + b)[|a| + j] == b[j];
      RunShift(a, b, j + 1, succeeds);
    }
  }

  /** Running two step sequences one after the other is running the first
      and then, when it ended without error, the second. */
  lemma {:induction false} RunAppend<C, E>(a: seq<Step<C, E>>, b: seq<Step<C, E>>, i: nat, succeeds: C -> bool)
    requires i <= |a|
    ensures Run(a + b, i, succeeds) == Then(Run(a, i, succeeds), Run(b, 0, succeeds))
    decreases |a| - i
  {
    if i == |a| {
      RunShift(a, b, 0, succeeds);
    } else {
      assert (a + b)[i] == a[i];
      if a[i].Send? && succeeds(a[i].call) {
        RunAppend(a, b, i + 1, succeeds);
        var ra, rb := Run(a, i + 1, succeeds), Run(b, 0, succeeds);
        if ra.err.None? {
          assert [a[i].call] + (ra.calls + rb.calls) == ([a[i].call] + ra.calls) + rb.calls;
        }
      }
    }
  }

  /** A run that begins with a failing check ends there, with nothing issued. */
  lemma RunRejected<C, E>(e: E, rest: seq<Step<C, E>>, succeeds: C -> bool)
    ensures Run([Reject(e)] + rest, 0, succeeds) == Outcome([], Some(e))
  {
    assert ([Reject(e)] + rest)[0] == Reject(e);
  }

  /** A run that begins with a request issues it first; it goes on with the
      rest only when the request succeeds. */
  lemma RunSent<C, E>(c: C, f: E, rest: seq<Step<C, E>>, succeeds: C -> bool)
    ensures Run([Send(c, f)] + rest, 0, succeeds)
            == if succeeds(c) then Continue([c], Run(rest, 0, succeeds)) else Outcome([c], Some(f))
  {
    assert ([Send(c, f)] + rest)[0] == Send(c, f);
    RunShift([Send(c, f)], rest, 0, succeeds);
  }
}
