/**
 * Terraform's update callbacks walk a fixed list of attributes and append the
 * name of each one that `d.HasChange` reports to a change list. ChangedIn is
 * that list as a value: the attributes of `order` that are in `changed`, in
 * the order of `order`.
 */
module Changes {

  function ChangedIn<A>(order: seq<A>, changed: set<A>): seq<A>
    decreases |order|
  {
    if |order| == 0 then [] else Pick(order[0], changed) + ChangedIn(order[1..], changed)
  }

  /** What one `if d.HasChange(a) { append(a) }` step adds to the change list. */
  function Pick<A>(a: A, changed: set<A>): seq<A>
  {
    if a in changed then [a] else []
  }

  /** One `if d.HasChange(attr) { changes = append(changes, attr) }` step of
      an update callback, on the change list being built. */
  method AppendIfChanged<A>(attrs: seq<A>, a: A, changed: set<A>) returns (r: seq<A>)
    ensures r == attrs + Pick(a, changed)
  {
    r := attrs;
    if a in changed {
      r := r + [a];
    }
  }

  /** An attribute is reported exactly when it is both in the walk and changed. */
  lemma {:induction false} ChangedInMembers<A>(order: seq<A>, changed: set<A>, a: A)
    ensures a in ChangedIn(order, changed) <==> a in order && a in changed
    decreases |order|
  {
    if |order| > 0 {
      ChangedInMembers(order[1..], changed, a);
      assert order == [order[0]] + order[1..];
    }
  }

  /** Walking two lists one after the other reports the first list's changes
      before the second's: the filter keeps the order of the walk. */
  lemma {:induction false} ChangedInAppend<A>(xs: seq<A>, ys: seq<A>, changed: set<A>)
    ensures ChangedIn(xs + ys, changed) == ChangedIn(xs, changed) + ChangedIn(ys, changed)
    decreases |xs|
  {
    if |xs| > 0 {
      assert (xs + ys)[1..] == xs[1..] + ys;
      ChangedInAppend(xs[1..], ys, changed);
    } else {
      assert xs + ys == ys;
    }
  }

  /** One more `if d.HasChange(a) { append(a) }` step of the walk. */
  lemma ChangedInSnoc<A>(walked: seq<A>, a: A, changed: set<A>)
    ensures ChangedIn(walked + [a], changed) == ChangedIn(walked, changed) + Pick(a, changed)
  {
    ChangedInAppend(walked, [a], changed);
    assert [a][1..] == [];
  }

  /** The walk of the first k + 1 attributes of `order` reports what the walk
      of the first k reports, then possibly the (k+1)-th. */
  lemma ChangedInPrefix<A>(order: seq<A>, k: nat, changed: set<A>)
    requires k < |order|
    ensures ChangedIn(order[..k + 1], changed) == ChangedIn(order[..k], changed) + Pick(order[k], changed)
  {
    assert order[..k + 1] == order[..k] + [order[k]];
    ChangedInSnoc(order[..k], order[k], changed);
  }

  /** The report is empty exactly when nothing in the walk changed. */
  lemma {:induction false} ChangedInEmpty<A>(order: seq<A>, changed: set<A>)
    ensures ChangedIn(order, changed) == [] <==> forall i :: 0 <= i < |order| ==> order[i] !in changed
    decreases |order|
  {
    if |order| > 0 {
      ChangedInEmpty(order[1..], changed);
      assert forall i :: 1 <= i < |order| ==> order[i] == order[1..][i - 1];
    }
  }
}
