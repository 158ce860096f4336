/**
 * The configuration tree and its six insertion operations. Every operation
 * checks the requested type name first and, for caches and rate limits,
 * finds a free key; only then does it change the tree, so a failed call
 * leaves the whole tree as it was.
 */
module Mutator {
  import opened Declarations
  import opened Keys
  import opened Endpoints
  import opened Processors

  /** An already loaded pipeline configuration, updated in place. */
  class Tree {
    var input: Endpoint
    var output: Endpoint
    var processors: seq<Processor>             // Pipeline.Processors
    var caches: map<string, Resource>          // Manager.Caches
    var rateLimits: map<string, Resource>      // Manager.RateLimits

    constructor (input: Endpoint, output: Endpoint, processors: seq<Processor>,
                 caches: map<string, Resource>, rateLimits: map<string, Resource>)
      ensures this.input == input && this.output == output && this.processors == processors
      ensures this.caches == caches && this.rateLimits == rateLimits
    {
      this.input := input;
      this.output := output;
      this.processors := processors;
      this.caches := caches;
      this.rateLimits := rateLimits;
    }

    /** Inserts a default input of type `cType`, promoting the input slot to a broker if needed. */
    method AddInput(reg: Registries, cType: string) returns (res: Outcome)
      modifies this
      ensures res == if EndpointAccepted(reg, InputCategory, cType) then Ok
                     else Fail(UnrecognisedType(InputCategory, cType))
      ensures input == if res.Ok? then InsertEndpoint(old(input), cType) else old(input)
      ensures output == old(output) && processors == old(processors)
      ensures caches == old(caches) && rateLimits == old(rateLimits)
    {
      if cType != LabType {
        if !Known(reg, InputCategory, cType) {
          return Fail(UnrecognisedType(InputCategory, cType));
        }
      }
      var inputConf := NewEndpoint(cType);
      if input.typeName != BrokerType {
        var currentInput := input;
        var brokerInput := NewEndpoint(BrokerType);
        brokerInput := brokerInput.(children := brokerInput.children + [currentInput]);
        input := brokerInput;
        if cType == BrokerType {
          return Ok;
        }
      }
      input := input.(children := input.children + [inputConf]);
      return Ok;
    }

    /** Inserts a default output of type `cType`, promoting the output slot to a broker if needed. */
    method AddOutput(reg: Registries, cType: string) returns (res: Outcome)
      modifies this
      ensures res == if EndpointAccepted(reg, OutputCategory, cType) then Ok
                     else Fail(UnrecognisedType(OutputCategory, cType))
      ensures output == if res.Ok? then InsertEndpoint(old(output), cType) else old(output)
      ensures input == old(input) && processors == old(processors)
      ensures caches == old(caches) && rateLimits == old(rateLimits)
    {
      if cType != LabType {
        if !Known(reg, OutputCategory, cType) {
          return Fail(UnrecognisedType(OutputCategory, cType));
        }
      }
      var outputConf := NewEndpoint(cType);
      if output.typeName != BrokerType {
        var currentOutput := output;
        var brokerOutput := NewEndpoint(BrokerType);
        brokerOutput := brokerOutput.(children := brokerOutput.children + [currentOutput]);
        output := brokerOutput;
        if cType == BrokerType {
          return Ok;
        }
      }
      output := output.(children := output.children + [outputConf]);
      return Ok;
    }

    /** Appends a default processor of type `cType` to the pipeline. */
    method AddProcessor(reg: Registries, cType: string) returns (res: Outcome)
      modifies this
      ensures res == if Known(reg, ProcessorCategory, cType) then Ok
                     else Fail(UnrecognisedType(ProcessorCategory, cType))
      ensures processors == if res.Ok? then old(processors) + [NewProcessor(cType)] else old(processors)
      ensures input == old(input) && output == old(output)
      ensures caches == old(caches) && rateLimits == old(rateLimits)
    {
      if !Known(reg, ProcessorCategory, cType) {
        return Fail(UnrecognisedType(ProcessorCategory, cType));
      }
      var procConf := NewProcessor(cType);
      processors := processors + [procConf];
      return Ok;
    }

    /** Appends a filter_parts processor embedding a default condition of type `cType`. */
    method AddCondition(reg: Registries, cType: string) returns (res: Outcome)
      modifies this
      ensures res == if Known(reg, ConditionCategory, cType) then Ok
                     else Fail(UnrecognisedType(ConditionCategory, cType))
      ensures processors == if res.Ok? then old(processors) + [FilterProcessor(NewCondition(cType))]
                            else old(processors)
      ensures input == old(input) && output == old(output)
      ensures caches == old(caches) && rateLimits == old(rateLimits)
    {
      if !Known(reg, ConditionCategory, cType) {
        return Fail(UnrecognisedType(ConditionCategory, cType));
      }
      var condConf := NewCondition(cType);
      var procConf := NewProcessor(FilterPartsType);
      procConf := procConf.(filter := Embedded(condConf));
      processors := processors + [procConf];
      return Ok;
    }

    /** Stores a default cache of type `cType` under the first free candidate key. */
    method AddCache(reg: Registries, cType: string) returns (res: Outcome)
      modifies this
      ensures res == if !Known(reg, CacheCategory, cType) then Fail(UnrecognisedType(CacheCategory, cType))
                     else if FirstFree(old(caches).Keys).None? then Fail(KeySpaceExhausted)
                     else Ok
      ensures caches == if res.Ok? then old(caches)[ChosenKey(old(caches).Keys) := NewResource(cType)]
                        else old(caches)
      ensures res.Ok? ==> ChosenKey(old(caches).Keys) !in old(caches) && |caches| == |old(caches)| + 1
      ensures input == old(input) && output == old(output)
      ensures processors == old(processors) && rateLimits == old(rateLimits)
    {
      if !Known(reg, CacheCategory, cType) {
        return Fail(UnrecognisedType(CacheCategory, cType));
      }
      var cacheConf := NewResource(cType);
      var cacheID := ChooseKey(caches);
      if |cacheID| == 0 {
        return Fail(KeySpaceExhausted);
      }
      caches := caches[cacheID := cacheConf];
      return Ok;
    }

    /** Stores a default rate limit of type `cType` under the first free candidate key. */
    method AddRatelimit(reg: Registries, cType: string) returns (res: Outcome)
      modifies this
      ensures res == if !Known(reg, RateLimitCategory, cType) then Fail(UnrecognisedType(RateLimitCategory, cType))
                     else if FirstFree(old(rateLimits).Keys).None? then Fail(KeySpaceExhausted)
                     else Ok
      ensures rateLimits == if res.Ok? then old(rateLimits)[ChosenKey(old(rateLimits).Keys) := NewResource(cType)]
                            else old(rateLimits)
      ensures res.Ok? ==> ChosenKey(old(rateLimits).Keys) !in old(rateLimits) && |rateLimits| == |old(rateLimits)| + 1
      ensures input == old(input) && output == old(output)
      ensures processors == old(processors) && caches == old(caches)
    {
      if !Known(reg, RateLimitCategory, cType) {
        return Fail(UnrecognisedType(RateLimitCategory, cType));
      }
      var ratelimitConf := NewResource(cType);
      var ratelimitID := ChooseKey(rateLimits);
      if |ratelimitID| == 0 {
        return Fail(KeySpaceExhausted);
      }
      rateLimits := rateLimits[ratelimitID := ratelimitConf];
      return Ok;
    }
  }

  // Callers of the operations above, relying on their contracts alone.

  /** Adding the same processor type twice yields two entries of that type, in order. */
  method RepeatedProcessor(reg: Registries, start: seq<Processor>, cType: string)
    returns (procs: seq<Processor>)
    requires Known(reg, ProcessorCategory, cType)
    ensures procs == start + [NewProcessor(cType), NewProcessor(cType)]
    ensures CountOfType(procs, cType) == CountOfType(start, cType) + 2
  {
    var tree := new Tree(NewEndpoint(LabType), NewEndpoint(LabType), start, map[], map[]);
    var r1 := tree.AddProcessor(reg, cType);
    var r2 := tree.AddProcessor(reg, cType);
    procs := tree.processors;
    CountAfterAppend(start, NewProcessor(cType), cType);
    assert procs == (start + [NewProcessor(cType)]) + [NewProcessor(cType)];
    CountAfterAppend(start + [NewProcessor(cType)], NewProcessor(cType), cType);
  }

  /** Three inputs in a row: one promotion, then plain appends, in insertion order. */
  method ThreeInputs(reg: Registries, d: Endpoint, e: string, f: string) returns (slot: Endpoint)
    requires d.typeName != BrokerType && e != BrokerType
    requires EndpointAccepted(reg, InputCategory, e) && EndpointAccepted(reg, InputCategory, f)
    ensures slot.typeName == BrokerType
    ensures slot.children == [d, NewEndpoint(e), NewEndpoint(f)]
  {
    var tree := new Tree(d, NewEndpoint(LabType), [], map[], map[]);
    var r1 := tree.AddInput(reg, e);
    assert tree.input.children == [d, NewEndpoint(e)];
    var r2 := tree.AddInput(reg, f);
    slot := tree.input;
  }

  /** Caches added one after another into an empty mapping get "example", then "example1". */
  method TwoCaches(reg: Registries, cType: string) returns (keys: set<string>)
    requires Known(reg, CacheCategory, cType)
    ensures keys == {"example", "example1"}
  {
    var tree := new Tree(NewEndpoint(LabType), NewEndpoint(LabType), [], map[], map[]);
    ScenarioKeys();
    var r1 := tree.AddCache(reg, cType);
    assert tree.caches.Keys == {"example"};
    SmallMappingHasFreeKey(tree.caches.Keys);
    FirstFreeIsFirstGap(tree.caches.Keys, 1);
    assert Candidate(1) == "example1" by { assert Digits(1) == "1"; }
    var r2 := tree.AddCache(reg, cType);
    keys := tree.caches.Keys;
  }
}
