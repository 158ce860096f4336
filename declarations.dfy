/**
 * Component declarations of a pipeline configuration tree, the type
 * registries that say which type names exist, the default configurations the
 * component factories build, and the errors an insertion can report.
 *
 * Only the parts of a declaration that the insertion engine reads or writes
 * are explicit: the type name, the broker child list of an input or output,
 * and the embedded condition of a filter_parts processor. Everything else a
 * declaration holds is kept, unchanged, in an opaque `Settings` value.
 */
module Declarations {

  /** Type name of the fan-in / fan-out endpoint (the same for inputs and outputs). */
  const BrokerType: string := "broker"

  /** Type name of the processor that hosts an embedded condition. */
  const FilterPartsType: string := "filter_parts"

  /** Input/output type name accepted without a registry lookup. */
  const LabType: string := "benthos_lab"

  /** The fields of a declaration that the engine never inspects. */
  datatype Settings =
    | Defaults                           // what the component factory fills in
    | Fields(values: map<string, string>) // whatever the loaded configuration held

  /**
   * An input or output declaration. `children` is its broker child list
   * (Broker.Inputs for an input, Broker.Outputs for an output); it is only
   * meaningful when `typeName` is the broker type.
   */
  datatype Endpoint = Endpoint(typeName: string, children: seq<Endpoint>, settings: Settings)

  /** A condition declaration. */
  datatype Condition = Condition(typeName: string, settings: Settings)

  /**
   * The FilterParts.Config slot of a processor: either the condition the
   * processor factory put there, or a condition set explicitly.
   */
  datatype FilterSlot = FactoryDefault | Embedded(condition: Condition)

  /** A processor declaration. */
  datatype Processor = Processor(typeName: string, filter: FilterSlot, settings: Settings)

  /** A cache or rate limit declaration. */
  datatype Resource = Resource(typeName: string, settings: Settings)

  /** The six component categories, each with its own registry. */
  datatype Category = InputCategory | OutputCategory | ProcessorCategory
                    | ConditionCategory | CacheCategory | RateLimitCategory

  /** The registered type names of every category. */
  datatype Registries = Registries(
    inputs: set<string>,
    outputs: set<string>,
    processors: set<string>,
    conditions: set<string>,
    caches: set<string>,
    rateLimits: set<string>)
  {
    function Of(category: Category): set<string>
    {
      match category
      case InputCategory => inputs
      case OutputCategory => outputs
      case ProcessorCategory => processors
      case ConditionCategory => conditions
      case CacheCategory => caches
      case RateLimitCategory => rateLimits
    }
  }

  /** Whether `name` is a registered type of `category`. */
  predicate Known(reg: Registries, category: Category, name: string)
  {
    name in reg.Of(category)
  }

  /**
   * Whether an input or output insertion accepts `name`: the lab type skips
   * the registry lookup, every other name must be registered.
   */
  predicate EndpointAccepted(reg: Registries, category: Category, name: string)
  {
    name == LabType || Known(reg, category, name)
  }

  /** The ways an insertion can fail. */
  datatype Error =
    | UnrecognisedType(category: Category, typeName: string)
    | KeySpaceExhausted

  /** What an insertion returns: success, or the error that stopped it before any change. */
  datatype Outcome = Ok | Fail(error: Error)

  /** The default input or output of a type; its broker child list is empty. */
  function NewEndpoint(typeName: string): Endpoint
  {
    Endpoint(typeName, [], Defaults)
  }

  /** The default condition of a type. */
  function NewCondition(typeName: string): Condition
  {
    Condition(typeName, Defaults)
  }

  /** The default processor of a type; its filter slot is the factory's. */
  function NewProcessor(typeName: string): Processor
  {
    Processor(typeName, FactoryDefault, Defaults)
  }

  /** The default cache or rate limit of a type. */
  function NewResource(typeName: string): Resource
  {
    Resource(typeName, Defaults)
  }
}
