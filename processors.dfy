/**
 * Processor declarations appended to the pipeline, and the filter_parts
 * processor that turns a condition into a pipeline step.
 */
module Processors {
  import opened Declarations

  /** A default filter_parts processor whose embedded condition is `c`. */
  function FilterProcessor(c: Condition): (p: Processor)
    ensures p.typeName == FilterPartsType && p.filter == Embedded(c)
    ensures p.settings == NewProcessor(FilterPartsType).settings
  {
    NewProcessor(FilterPartsType).(filter := Embedded(c))
  }

  /** How many processors in `procs` have type `t`. */
  function CountOfType(procs: seq<Processor>, t: string): nat
  {
    if procs == [] then 0
    else CountOfType(procs[..|procs| - 1], t) + (if procs[|procs| - 1].typeName == t then 1 else 0)
  }

  /** Appending a processor adds one to the count of its type and leaves every other count alone. */
  lemma {:induction false} CountAfterAppend(procs: seq<Processor>, p: Processor, t: string)
    ensures CountOfType(procs + [p], t) == CountOfType(procs, t) + (if p.typeName == t then 1 else 0)
  {
    assert (procs + [p])[..|procs + [p]| - 1] == procs;
  }

  /** Counts over a concatenation add up. */
  lemma {:induction false} CountOfConcat(a: seq<Processor>, b: seq<Processor>, t: string)
    ensures CountOfType(a + b, t) == CountOfType(a, t) + CountOfType(b, t)
    decreases |b|
  {
    if b == [] {
      assert a + b == a;
    } else {
      var b' := b[..|b| - 1];
      assert a + b == (a + b') + [b[|b| - 1]];
      assert b == b' + [b[|b| - 1]];
      CountOfConcat(a, b', t);
      CountAfterAppend(a + b', b[|b| - 1], t);
      CountAfterAppend(b', b[|b| - 1], t);
    }
  }
}
