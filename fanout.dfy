/** `DoGets` and `httpGetter` of pkg/plugin/client/client.go: one fetch per argument, the
    outcomes partitioned into successes and errors. The Go code runs the fetches as goroutines
    that push onto two buffered channels and joins them all before returning, with no locks and
    no cancellation; what a caller can observe is that every argument yields exactly one outcome
    and that each returned slice holds its outcomes in some arrival order. The model runs the
    fetches one after another and promises the order only up to permutation. */
module FanOut {
  import opened Wrappers

  /** The outcome of each argument's fetch, in argument order. */
  function Outcomes<T, E>(doer: string -> Result<T, E>, variables: seq<string>): (os: seq<Result<T, E>>)
    ensures |os| == |variables|
    ensures forall i :: 0 <= i < |variables| ==> os[i] == doer(variables[i])
  {
    seq(|variables|, i requires 0 <= i < |variables| => doer(variables[i]))
  }

  /** The values of the successful outcomes, in order. */
  function Successes<T, E>(os: seq<Result<T, E>>): seq<T>
  {
    if os == [] then []
    else
      var last := os[|os| - 1];
      Successes(os[..|os| - 1]) + (if last.Success? then [last.value] else [])
  }

  /** The errors of the failed outcomes, in order. */
  function Failures<T, E>(os: seq<Result<T, E>>): seq<E>
  {
    if os == [] then []
    else
      var last := os[|os| - 1];
      Failures(os[..|os| - 1]) + (if last.Failure? then [last.error] else [])
  }

  /** One more outcome adds its value to the successes or its error to the failures. */
  lemma PartitionSnoc<T, E>(os: seq<Result<T, E>>, o: Result<T, E>)
    ensures Successes(os + [o]) == Successes(os) + (if o.Success? then [o.value] else [])
    ensures Failures(os + [o]) == Failures(os) + (if o.Failure? then [o.error] else [])
  {
    assert (os + [o])[..|os|] == os;
  }

  /** Every outcome lands in exactly one of the two lists. */
  lemma {:induction false} PartitionCount<T, E>(os: seq<Result<T, E>>)
    ensures |Successes(os)| + |Failures(os)| == |os|
  {
    if os != [] {
      PartitionCount(os[..|os| - 1]);
    }
  }

  /** A value is among the successes exactly when some outcome succeeded with it (and likewise for errors). */
  lemma {:induction false} PartitionMembers<T, E>(os: seq<Result<T, E>>)
    ensures forall v :: v in Successes(os) <==> Success(v) in os
    ensures forall e :: e in Failures(os) <==> Failure(e) in os
  {
    if os != [] {
      var init := os[..|os| - 1];
      PartitionMembers(init);
      assert os == init + [os[|os| - 1]];
    }
  }

  /** When no fetch fails there are no errors and one success per argument. */
  lemma {:induction false} AllSucceed<T, E>(os: seq<Result<T, E>>)
    requires forall i :: 0 <= i < |os| ==> os[i].Success?
    ensures Failures(os) == [] && |Successes(os)| == |os|
  {
    if os != [] {
      AllSucceed(os[..|os| - 1]);
    }
  }

  /** When every fetch fails there are no successes and one error per argument. */
  lemma {:induction false} AllFail<T, E>(os: seq<Result<T, E>>)
    requires forall i :: 0 <= i < |os| ==> os[i].Failure?
    ensures Successes(os) == [] && |Failures(os)| == |os|
  {
    if os != [] {
      AllFail(os[..|os| - 1]);
    }
  }

  /** `DoGets`: fetch every argument and collect the successes and the errors. */
  method DoGets<T, E>(doer: string -> Result<T, E>, variables: seq<string>)
    returns (results: seq<T>, errors: seq<E>)
    ensures |results| + |errors| == |variables|
    ensures multiset(results) == multiset(Successes(Outcomes(doer, variables)))
    ensures multiset(errors) == multiset(Failures(Outcomes(doer, variables)))
  {
    results, errors := [], [];
    for i := 0 to |variables|
      invariant results == Successes(Outcomes(doer, variables[..i]))
      invariant errors == Failures(Outcomes(doer, variables[..i]))
    {
      // httpGetter: one fetch, its outcome sent to one of the two channels
      var outcome := doer(variables[i]);
      ghost var done := Outcomes(doer, variables[..i]);
      assert Outcomes(doer, variables[..i + 1]) == done + [outcome];
      PartitionSnoc(done, outcome);
      if outcome.Success? {
        results := results + [outcome.value];
      } else {
        errors := errors + [outcome.error];
      }
    }
    assert variables[..|variables|] == variables;
    PartitionCount(Outcomes(doer, variables));
  }
}
