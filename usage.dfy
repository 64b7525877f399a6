/**
 * Token usage counters (`Items\Usage`): four integers that an `add` call
 * accumulates in place.
 */
module Usages {

  /** The four counters of a usage object, as a value. */
  datatype Counts = Counts(requests: int, inputTokens: int, outputTokens: int, totalTokens: int)

  const NoUsage := Counts(0, 0, 0, 0)

  /** The counters after adding `b` to `a`, field by field. */
  function Sum(a: Counts, b: Counts): Counts {
    Counts(a.requests + b.requests, a.inputTokens + b.inputTokens,
           a.outputTokens + b.outputTokens, a.totalTokens + b.totalTokens)
  }

  /** `$totalTokens ?: ($inputTokens + $outputTokens)`: a zero total is replaced by the sum of the parts. */
  function TotalOrSum(inputTokens: int, outputTokens: int, totalTokens: int): (t: int)
    ensures totalTokens != 0 ==> t == totalTokens
    ensures totalTokens == 0 ==> t == inputTokens + outputTokens
  {
    if totalTokens != 0 then totalTokens else inputTokens + outputTokens
  }

  /** The total is exactly the input plus the output tokens. */
  predicate Balanced(c: Counts) {
    c.totalTokens == c.inputTokens + c.outputTokens
  }

  class Usage {
    var requests: int
    var inputTokens: int
    var outputTokens: int
    var totalTokens: int

    function Snapshot(): Counts
      reads this
    {
      Counts(requests, inputTokens, outputTokens, totalTokens)
    }

    /** `new Usage($requests, $inputTokens, $outputTokens, $totalTokens)`. */
    constructor(requests: int, inputTokens: int, outputTokens: int, totalTokens: int)
      ensures Snapshot() == Counts(requests, inputTokens, outputTokens,
                                   TotalOrSum(inputTokens, outputTokens, totalTokens))
    {
      this.requests := requests;
      this.inputTokens := inputTokens;
      this.outputTokens := outputTokens;
      this.totalTokens := TotalOrSum(inputTokens, outputTokens, totalTokens);
    }

    /** `new Usage()`: every counter at its default, zero. */
    constructor Empty()
      ensures Snapshot() == NoUsage
    {
      requests, inputTokens, outputTokens, totalTokens := 0, 0, 0, 0;
    }

    /** `add($other)`: adds the other object's counters into this one and returns this object. */
    method Add(other: Usage) returns (r: Usage)
      modifies this
      ensures r == this
      ensures Snapshot() == Sum(old(Snapshot()), old(other.Snapshot()))
    {
      requests := requests + other.requests;
      inputTokens := inputTokens + other.inputTokens;
      outputTokens := outputTokens + other.outputTokens;
      totalTokens := totalTokens + other.totalTokens;
      r := this;
    }
  }

  /** Adding a zero usage leaves every counter unchanged, on either side. */
  lemma SumIdentity(a: Counts)
    ensures Sum(a, NoUsage) == a
    ensures Sum(NoUsage, a) == a
  {
  }

  /** Accumulation does not depend on how additions are grouped or ordered. */
  lemma SumAssociativeCommutative(a: Counts, b: Counts, c: Counts)
    ensures Sum(Sum(a, b), c) == Sum(a, Sum(b, c))
    ensures Sum(a, b) == Sum(b, a)
  {
  }

  /** A usage built without an explicit total is balanced, and adding balanced usages keeps it balanced. */
  lemma BalancedPreserved(a: Counts, b: Counts, i: int, o: int)
    ensures Balanced(Counts(a.requests, i, o, TotalOrSum(i, o, 0)))
    ensures Balanced(a) && Balanced(b) ==> Balanced(Sum(a, b))
  {
  }
}
