# Test configuration filter

RESTest generates test cases for REST APIs described by an OpenAPI document. A
caller can restrict generation to some operations by passing a list of
`TestConfigurationFilter`s. Each filter holds a path and the HTTP methods to test on
that path. The path may be `null`, which means every path. The method collection
starts out `null` and is created as an `ArrayList` the first time a method is added.

This project models that filter class and proves what its operations do to it:
- what each constructor stores;
- that each setter and getter touches only its own field;
- that each `add…Method` creates a missing collection and then appends exactly one
  method at the end, never deduplicating and never touching the path;
- that `addAllMethods` appends GET, POST, PUT and DELETE in that order.

Files:
- `wrappers.dfy`: `Option`, where `None` stands for a Java `null` field.
- `http_method.dfy`: the library's `HttpMethod` enumeration (POST, GET, PUT, PATCH,
  DELETE, HEAD, OPTIONS) and `Count`, the number of times a method occurs in a list,
  with its lemmas.
- `configuration.dfy`: the class `TestConfigurationFilter` and the functions and
  lemmas that specify its method collection. `Appended` gives the collection after
  one add, and `StandardMethods` lists the four methods in the order `addAllMethods`
  adds them.

The class fields are `path: Option<string>` and `methods: Option<seq<HttpMethod>>`.
Each method states the whole new state in terms of the old one. The lemmas beside
the class prove what those new states mean: counts, order and membership.

## Model

| member | source | states |
|---|---|---|
| `Configuration.TestConfigurationFilter.constructor` | src/main/java/es/us/isa/restest/configuration/TestConfigurationFilter.java:16-19 | a new filter selects every path (`path == None`) and has no method collection (`methods == None`) |
| `Configuration.TestConfigurationFilter.Of` | src/main/java/es/us/isa/restest/configuration/TestConfigurationFilter.java:21-24 | the filter holds exactly the given path and the given method collection, `null` included |
| `Configuration.TestConfigurationFilter.GetPath` | src/main/java/es/us/isa/restest/configuration/TestConfigurationFilter.java:26-28 | returns the stored path, `None` meaning all paths |
| `Configuration.TestConfigurationFilter.SetPath` | src/main/java/es/us/isa/restest/configuration/TestConfigurationFilter.java:30-32 | afterwards the path is the given one and the method collection is unchanged |
| `Configuration.TestConfigurationFilter.GetMethods` | src/main/java/es/us/isa/restest/configuration/TestConfigurationFilter.java:34-36 | returns the stored method collection, `None` when there is none |
| `Configuration.TestConfigurationFilter.SetMethods` | src/main/java/es/us/isa/restest/configuration/TestConfigurationFilter.java:38-40 | afterwards the collection is the given one and the path is unchanged |
| `Configuration.Appended` | src/main/java/es/us/isa/restest/configuration/TestConfigurationFilter.java:42-46 | adding a method to a collection keeps every earlier entry in place and in order, puts the method last, grows the length by exactly 1, and turns a missing collection into exactly `[m]` |
| `Configuration.TestConfigurationFilter.AddGetMethod` | src/main/java/es/us/isa/restest/configuration/TestConfigurationFilter.java:42-48 | the collection becomes `Appended(old, GET)`, so it exists afterwards, and the path is unchanged |
| `Configuration.TestConfigurationFilter.AddPostMethod` | src/main/java/es/us/isa/restest/configuration/TestConfigurationFilter.java:50-56 | the collection becomes `Appended(old, POST)`, and the path is unchanged |
| `Configuration.TestConfigurationFilter.AddPutMethod` | src/main/java/es/us/isa/restest/configuration/TestConfigurationFilter.java:58-64 | the collection becomes `Appended(old, PUT)`, and the path is unchanged |
| `Configuration.TestConfigurationFilter.AddDeleteMethod` | src/main/java/es/us/isa/restest/configuration/TestConfigurationFilter.java:66-72 | the collection becomes `Appended(old, DELETE)`, and the path is unchanged |
| `Configuration.AppendedCount` | src/main/java/es/us/isa/restest/configuration/TestConfigurationFilter.java:42-72 | one add raises the added method's count by exactly 1 and leaves every other method's count as it was |
| `Configuration.AppendTwiceKeepsBoth` | src/main/java/es/us/isa/restest/configuration/TestConfigurationFilter.java:43-46 | adding the same method twice leaves both entries at the end and raises its count by 2: adds do not deduplicate |
| `Configuration.AddGetTwice` | src/main/java/es/us/isa/restest/configuration/TestConfigurationFilter.java:42-48 | a new filter given `addGetMethod` twice holds exactly `[GET, GET]` |
| `Configuration.AppendedInTurn` | src/main/java/es/us/isa/restest/configuration/TestConfigurationFilter.java:74-79 | the four adds in turn give the old contents followed by GET, POST, PUT, DELETE |
| `Configuration.TestConfigurationFilter.AddAllMethods` | src/main/java/es/us/isa/restest/configuration/TestConfigurationFilter.java:74-79 | the collection becomes the old contents (empty if there were none) followed by GET, POST, PUT, DELETE, so it grows by exactly 4, and the path is unchanged |
| `Configuration.StandardMethodsAdded` | src/main/java/es/us/isa/restest/configuration/TestConfigurationFilter.java:74-79 | adding all four standard methods adds one occurrence of each of them and none of any other method, so afterwards all four are present and any other method is present exactly when it was before |

## Left out

- The caller's collection is not aliased. The two-argument constructor and `setMethods` keep a reference to the caller's `Collection`, so a later add also changes the caller's object. Here the collection is a value list.
- The collection is always treated as an `ArrayList`. A caller may pass another kind of `Collection` through `setMethods` or the constructor. A `HashSet` would drop a duplicate add, and an immutable collection would throw on `add`. Neither is modelled.
- The generators are not part of this model: `ConstraintBasedTestCaseGenerator`, `RandomTestCaseGenerator` and the way `generate(filters)` matches filters against an API's operations. Their sources are absent, and the tests that drive them read YAML and JSON files, call an external OpenAPI validator and write scripts to disk. The expected counts in those tests use floating-point ratios.
- `CoverageGatherer` and `CoverageMeter` are not part of this model. Their sources are absent, and their test only prints values.
- `AbstractMutationOperator` is not part of this model. Both of its static `mutate` overloads always throw `UnsupportedOperationException`, and the concrete operators are absent.
