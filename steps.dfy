/**
 * A loop of remote calls that stops at the first raised exception: the
 * outcome of every step, how many steps ran, and what the loop returns.
 */
module Steps {
  import opened Py

  /** The number of steps that returned before the first one that raised. */
  function LeadingOk<T>(outs: seq<Outcome<T>>): (n: nat)
    ensures n <= |outs|
    ensures forall k :: 0 <= k < n ==> outs[k].Ok?
    ensures n < |outs| ==> outs[n].Raised?
  {
    if outs == [] || outs[0].Raised? then 0 else 1 + LeadingOk(outs[1..])
  }

  /** The number of steps a loop that stops at the first exception carries out:
      the successful ones and the one that raised, if any. */
  function Attempted<T>(outs: seq<Outcome<T>>): (n: nat)
    ensures n <= |outs|
  {
    if LeadingOk(outs) < |outs| then LeadingOk(outs) + 1 else |outs|
  }

  function Values<T>(outs: seq<Outcome<T>>): (vs: seq<T>)
    requires forall k :: 0 <= k < |outs| ==> outs[k].Ok?
    ensures |vs| == |outs|
    ensures forall k :: 0 <= k < |vs| ==> outs[k] == Ok(vs[k])
  {
    seq(|outs|, k requires 0 <= k < |outs| => outs[k].value)
  }

  /** What a loop that appends each step's value, and lets an exception
      propagate, finishes with. */
  function Collect<T>(outs: seq<Outcome<T>>): Outcome<seq<T>> {
    var n := LeadingOk(outs);
    if n == |outs| then Ok(Values(outs)) else Raised(outs[n].error)
  }

  /** The loop returns exactly when every step returned, and then it holds one
      value per step, in step order. */
  lemma CollectOk<T>(outs: seq<Outcome<T>>)
    ensures Collect(outs).Ok? <==> forall k :: 0 <= k < |outs| ==> outs[k].Ok?
    ensures Collect(outs).Ok? ==>
      |Collect(outs).value| == |outs| && forall k :: 0 <= k < |outs| ==> outs[k] == Ok(Collect(outs).value[k])
  {
    if LeadingOk(outs) < |outs| {
      assert outs[LeadingOk(outs)].Raised?;
    }
  }

  /** When the loop raises, it raises the first exception, after running every
      step before it and none after it. */
  lemma CollectRaised<T>(outs: seq<Outcome<T>>)
    requires Collect(outs).Raised?
    ensures exists n :: 0 <= n < |outs| && Attempted(outs) == n + 1 && outs[n] == Raised(Collect(outs).error) &&
                        forall k :: 0 <= k < n ==> outs[k].Ok?
  {
    var n := LeadingOk(outs);
    assert 0 <= n < |outs| && Attempted(outs) == n + 1 && outs[n] == Raised(Collect(outs).error);
  }

  /** The steps before the first exception can be recognised from a prefix. */
  lemma LeadingOkIs<T>(outs: seq<Outcome<T>>, n: nat)
    requires n <= |outs|
    requires forall k :: 0 <= k < n ==> outs[k].Ok?
    requires n < |outs| ==> outs[n].Raised?
    ensures LeadingOk(outs) == n
  {
  }

  /** A loop whose steps all returned before step i, which raised, stops there. */
  lemma StopsAt<T>(outs: seq<Outcome<T>>, i: nat)
    requires i < |outs|
    requires forall k :: 0 <= k < i ==> outs[k].Ok?
    requires outs[i].Raised?
    ensures LeadingOk(outs) == i && Attempted(outs) == i + 1
    ensures Collect(outs) == Raised(outs[i].error)
  {
    LeadingOkIs(outs, i);
  }

  /** A loop whose every step returned finishes with the values collected in order. */
  lemma RunsThrough<T>(outs: seq<Outcome<T>>, values: seq<T>)
    requires |values| == |outs|
    requires forall k :: 0 <= k < |outs| ==> outs[k] == Ok(values[k])
    ensures LeadingOk(outs) == |outs| && Attempted(outs) == |outs|
    ensures Collect(outs) == Ok(values)
  {
    LeadingOkIs(outs, |outs|);
    assert Values(outs) == values;
  }

  /** Appending the value of a step that returned keeps the collected values
      in step with the outcomes. */
  lemma CollectedNext<T>(outs: seq<Outcome<T>>, values: seq<T>, i: nat)
    requires i < |outs| && |values| == i && outs[i].Ok?
    requires forall k :: 0 <= k < i ==> outs[k] == Ok(values[k])
    ensures forall k :: 0 <= k < i + 1 ==> outs[k] == Ok((values + [outs[i].value])[k])
  {
  }
}
