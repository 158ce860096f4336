# Configuration-tree insertion engine (benthos-lab `lib/config/add.go`)

A Dafny model of the part of benthos-lab that inserts a new, default-initialised
component into an already loaded Benthos pipeline configuration. There are six
operations:

- `AddInput` / `AddOutput` insert an endpoint with **broker promotion**. A slot
  that is not a `broker` is wrapped as the only child of a fresh `broker`
  declaration. The new default endpoint is then appended, except when the
  requested type is `broker` itself and the slot was just promoted. The type
  name `benthos_lab` is accepted without a registry lookup.
- `AddProcessor` appends a default processor to `Pipeline.Processors`.
  `AddCondition` appends a `filter_parts` processor whose `FilterParts.Config`
  holds a new default condition.
- `AddCache` / `AddRatelimit` store a default resource under the **first free
  key**: the first of `example`, `example1`, …, `example9999` that is not yet in
  `Manager.Caches` / `Manager.RateLimits`. When all 10000 are taken, the call
  fails and the mapping is left as it was.

Each operation checks the type name against its category's registry before it
changes anything. A failed call therefore leaves the whole tree unchanged.

Layout:

- `declarations.dfy` (module `Declarations`) holds the declaration datatypes,
  the registries (`Registries`, `Known`), the errors (`Error`, `Outcome`) and
  the factory defaults (`NewEndpoint`, `NewProcessor`, …).
- `keys.dfy` (module `Keys`) holds the candidate keys and the first-free-key
  specification `FirstFreeFrom` / `ChosenKey`. It also holds the scan
  `ChooseKey`, which is the Go loop, and the proofs that candidates never repeat
  and that a mapping with fewer than 10000 keys always gets a key.
- `endpoints.dfy` (module `Endpoints`) holds broker promotion as a function on
  the slot's value, `InsertEndpoint`. Its contract is stated through the
  member-list view `Members`.
- `processors.dfy` (module `Processors`) holds the filter_parts wrapper and the
  per-type processor count.
- `mutator.dfy` (module `Mutator`) holds the class `Tree`. Its fields are
  `input`, `output`, `processors`, `caches` and `rateLimits`, and its six
  methods update them in place, step by step as the Go functions do. Each method
  is proved equal to the specification functions above and to leave every other
  field unchanged. The module ends with three caller methods for the repeated
  processor, three-input and two-cache scenarios.

The registries are a parameter (`Registries`, one set of type names per
category). The default-config factories are the `New…` functions. Only the
fields the engine touches are explicit: `Type`, the broker child list, and the
`FilterParts.Config` slot. Every other field lives in an opaque `Settings`
value, which is carried along unchanged.

## Model

| member | source | states |
|---|---|---|
| `Mutator.Tree.AddInput` | lib/config/add.go:38-60 | an input type that is neither `benthos_lab` nor registered gives `UnrecognisedType(InputCategory, t)` and changes nothing; otherwise `input` becomes `InsertEndpoint(old input, t)`; output, processors, caches and rate limits never change |
| `Mutator.Tree.AddOutput` | lib/config/add.go:91-113 | the same as AddInput, for the output slot and the output registry; only `output` can change |
| `Mutator.Tree.AddProcessor` | lib/config/add.go:62-72 | an unregistered processor type is rejected and nothing changes; otherwise exactly one default processor of that type is appended and the old list stays an unchanged prefix; no other field changes |
| `Mutator.Tree.AddCondition` | lib/config/add.go:74-89 | an unregistered condition type is rejected and nothing changes; otherwise exactly one `filter_parts` processor is appended, embedding the default condition of that type; the old list stays a prefix and no other field changes |
| `Mutator.Tree.AddCache` | lib/config/add.go:115-142 | an unknown type gives `UnrecognisedType`, and all candidates taken gives `KeySpaceExhausted`; in both cases the caches are unchanged. Otherwise the caches become the old map plus one entry under the first free candidate key, which was absent before, so the map grows by exactly one; only `caches` changes |
| `Mutator.Tree.AddRatelimit` | lib/config/add.go:144-171 | the same as AddCache, for the rate-limit registry and `rateLimits` only |
| `Endpoints.InsertEndpoint` | lib/config/add.go:45-59 | the slot is a broker afterwards; its member list is the old one followed by the new default endpoint, or the old one alone when a non-broker slot gets type `broker`; a promoted slot keeps the old declaration unchanged as first child; an existing broker is not re-promoted, and only its child list changes |
| `Endpoints.Promote` | lib/config/add.go:49-53 | promotion yields a broker whose only member is the previous declaration |
| `Endpoints.PromotionKeepsOriginal` | lib/config/add.go:48-58 | a non-broker slot `d` given a non-broker type `e` becomes a broker with children exactly `[d, default e]` |
| `Endpoints.BrokerOfBrokerSuppressed` | lib/config/add.go:54-56 | a non-broker slot `d` given type `broker` becomes a broker with children exactly `[d]` |
| `Endpoints.NoRepromotion` | lib/config/add.go:48-58 | two insertions into a non-broker slot `d` give children `[d, e, f]`: the second insertion appends and does not promote again |
| `Processors.FilterProcessor` | lib/config/add.go:83-85 | the wrapper has type `filter_parts`, embeds exactly the given condition, and keeps the processor factory's other settings |
| `Processors.CountAfterAppend` | lib/config/add.go:70 | appending a processor adds one to the count of its own type and leaves the count of every other type unchanged |
| `Processors.CountOfConcat` | lib/config/add.go:70 | per-type counts over a concatenation add up |
| `Keys.Digits` | lib/config/add.go:129 | the decimal form of a number is non-empty, and it is one character long exactly when the number is below 10 |
| `Keys.DigitsInjective` | lib/config/add.go:129 | different numbers have different decimal forms |
| `Keys.Candidate` | lib/config/add.go:125-130 | every candidate key starts with `example` and so is never empty; only index 0 gives the bare `example` |
| `Keys.CandidateInjective` | lib/config/add.go:125-130 | different indices give different candidate keys |
| `Keys.FirstFreeFrom` | lib/config/add.go:124-135 | the index found is below 10000, its candidate is not a key, and every earlier candidate is a key; no index is found exactly when every candidate from the start index up to 9999 is a key |
| `Keys.ChooseKey` | lib/config/add.go:123-138 | the bounded scan returns the first-free candidate, or `""` exactly when all 10000 candidates are keys of the map; a returned key is never already in the map |
| `Keys.CandidatesBelowSize` | lib/config/add.go:124-130 | the first `n` candidates are `n` distinct keys |
| `Keys.TakenCandidatesCount` | lib/config/add.go:124-135 | a key set that holds the first `n` candidates has at least `n` keys |
| `Keys.SmallMappingHasFreeKey` | lib/config/add.go:124-138 | a map with fewer than 10000 keys always gets a key, and that key is new |
| `Keys.AllCandidatesTakenIsExhausted` | lib/config/add.go:136-138 | a map holding `example` through `example9999` makes the choice fail |
| `Keys.ScenarioKeys` | lib/config/add.go:124-135 | an empty map gets `example`; a map holding `example` and `example1` gets `example2` |
| `Mutator.RepeatedProcessor` | lib/config/add.go:67-71 | adding the same processor type twice appends two equal entries in order, so that type's count grows by two |
| `Mutator.ThreeInputs` | lib/config/add.go:48-58 | adding `e` and then `f` to a non-broker input `d` gives a broker with children exactly `[d, e, f]` |
| `Mutator.TwoCaches` | lib/config/add.go:123-140 | two caches added to an empty mapping are stored under `example` and `example1` |

## Left out

- The component registries (`input.Constructors` and the others) are foreign. They are modelled as one set of type names per category, passed in as `Registries`.
- The default payloads built by `input.NewConfig()` and the other factories are foreign. A default declaration is modelled as its type name plus an opaque `Defaults` setting. The model assumes, as in Benthos, that a default broker child list is empty. The default processor's own `FilterParts.Config` is kept opaque (`FactoryDefault`), because its contents are not part of this model.
- Error message text is not modelled. The two failure kinds are `UnrecognisedType(category, type)` and `KeySpaceExhausted`. The Go code reports exhaustion with an untyped error.
- `fmt.Sprintf("example%v", i)` is modelled as the prefix followed by `i` in decimal without leading zeros (`Digits`).
- Writing into a nil Go map panics. The model's maps are values, so it has no nil maps and no panic.
- Parsing and serialising the configuration, the file I/O and the CLI are not part of this file and are not modelled.
- The model does not capture aliasing between the Go config structs (the slices inside `conf.Input` are shared with the caller). Declarations are immutable values here, and only the tree is an object.
