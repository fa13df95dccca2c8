# `$geoNear` stage builder and converter registration, modelled in Dafny

This project models two small pieces of Spring Data MongoDB.

**`GeoNearOperation`** builds MongoDB's `$geoNear` aggregation pipeline stage.
It is an immutable value holding three things: a near-query, the name of the output field that receives the computed distance, and an optional geospatial index key.
- The constructors reject a null near-query first, then a null or empty distance field. Each rejection is an `IllegalArgumentException` with Spring's message.
- `useIndex` returns a new operation through the same validating constructor.
- `toDBObject` takes the near-query's document after the aggregation context has mapped it, then changes it in place:
  - it puts `distanceField`, replacing any entry of that name;
  - it puts `key` only when the index key has text (Spring's `StringUtils.hasText`);
  - it wraps the result in the single-entry document `{ "$geoNear": ... }`.

**Converter registration** says whether a converter from a source type to a target type is used when reading from the store, when writing to it, or both.
- In the model's rule, the explicit reading and writing flags (from the annotations) decide when either is set.
- In the model's rule, when neither flag is set, the converter reads when the source type is "simple" (stored directly) and writes when the target type is simple.

Modules:
- `Wrappers`: `Option` for a nullable Java reference, `Result` for "returns a value or throws".
- `StringUtils`: Java's `Character.isWhitespace`, and Spring's `hasLength`, `containsText` and `hasText` over nullable strings.
- `Bson`: documents as finite maps from field names to values.
- `GeoNear`: the operation, its constructors, `useIndex`, `toDBObject` and the stage contract.
- `ConverterRegistrations`: the read/write rule and the unit tests' cases.

How the foreign parts are treated:
- A `NearQuery` is represented by the document its own `toDBObject` produces.
- The context's `getMappedObject` is a parameter of type `Document -> Document`.
- `toDBObject` is a method that updates a local map step by step, as the source does with its `BasicDBObject`.
- That method is proved against the declarative predicate `IsGeoNearStage`. The lemmas about that predicate show that it fixes the result completely.

The `ConverterRegistration` class is not part of this model. Only its unit test is. The model's rule is `isReading = reading || (!writing && sourceSimple)` and `isWriting = writing || (!reading && targetSimple)`. It is proved to satisfy every assertion of the test. Which types are simple is an input: a set of class names. The tests need `String` and `Class` to be in it and `Person` not to be.

Construction accepts a distance field made only of whitespace. `Assert.hasLength` (GeoNearOperation.java:65) rejects only a null or empty field, as its message says. `Create` follows this.

## Model

| member | source | states |
|---|---|---|
| GeoNear.Create | spring-data-mongodb/src/main/java/org/springframework/data/mongodb/core/aggregation/GeoNearOperation.java:62-70 | construction succeeds exactly when the near-query is non-null and the distance field has length; a null near-query fails with its message first, then a null or empty distance field with its message; a built operation holds the three arguments unchanged and is valid |
| GeoNear.New | spring-data-mongodb/src/main/java/org/springframework/data/mongodb/core/aggregation/GeoNearOperation.java:49-51 | the public constructor has the same success condition and failures as the three-argument one, and gives an operation with no index key |
| GeoNear.GeoNearOperation.UseIndex | spring-data-mongodb/src/main/java/org/springframework/data/mongodb/core/aggregation/GeoNearOperation.java:80-82 | `useIndex(k)` succeeds exactly on a valid receiver; the new operation keeps the near-query and distance field, has index key `k`, and is valid |
| GeoNear.UseIndexLastWins | spring-data-mongodb/src/main/java/org/springframework/data/mongodb/core/aggregation/GeoNearOperation.java:80-82 | two `useIndex` calls in a row equal the last one alone |
| GeoNear.UseIndexOfCreate | spring-data-mongodb/src/main/java/org/springframework/data/mongodb/core/aggregation/GeoNearOperation.java:62-82 | `useIndex(k)` on a constructed operation equals constructing it with index key `k` |
| GeoNear.ToDBObject | spring-data-mongodb/src/main/java/org/springframework/data/mongodb/core/aggregation/GeoNearOperation.java:89-99 | the result is a stage document: its only top-level key is `$geoNear`; inside, `distanceField` is the stored field (replacing any mapped entry); `key` is the index key exactly when it has text, otherwise as the mapped document had it; every other mapped entry is carried over unchanged |
| GeoNear.GeoNearCommandUnique | spring-data-mongodb/src/main/java/org/springframework/data/mongodb/core/aggregation/GeoNearOperation.java:91-96 | the command document's contract determines it uniquely from the operation and the mapped near-query document |
| GeoNear.GeoNearStageUnique | spring-data-mongodb/src/main/java/org/springframework/data/mongodb/core/aggregation/GeoNearOperation.java:98 | the stage document's contract determines it uniquely, so `toDBObject`'s result is fully specified |
| GeoNear.GeoNearCommandKeys | spring-data-mongodb/src/main/java/org/springframework/data/mongodb/core/aggregation/GeoNearOperation.java:91-96 | the command's fields are the mapped document's plus `distanceField`, plus `key` when the index key has text |
| GeoNear.NewOmitsIndexKey | spring-data-mongodb/src/main/java/org/springframework/data/mongodb/core/aggregation/GeoNearOperation.java:94-96 | after the two-argument constructor, the stage has a `key` entry only if the mapped near-query had one; its distance field is the argument |
| GeoNear.UseIndexWritesKey | spring-data-mongodb/src/main/java/org/springframework/data/mongodb/core/aggregation/GeoNearOperation.java:94-96 | after `useIndex` with a key that has text, the stage's `key` is that key and its distance field is the operation's |
| GeoNear.BlankIndexKeyIgnored | spring-data-mongodb/src/main/java/org/springframework/data/mongodb/core/aggregation/GeoNearOperation.java:94-96 | a whitespace-only index key gives the same stage as no index key |
| StringUtils.HasLengthIffTextOrBlank | spring-data-mongodb/src/main/java/org/springframework/data/mongodb/core/aggregation/GeoNearOperation.java:65 | Spring's `StringUtils.hasLength`, the check behind `Assert.hasLength`, accepts exactly the strings that have text plus the non-empty whitespace-only ones; so a whitespace-only distance field passes construction |
| StringUtils.IsWhitespace | spring-data-mongodb/src/main/java/org/springframework/data/mongodb/core/aggregation/GeoNearOperation.java:94 | Java's `Character.isWhitespace`, as `hasText` uses it: the no-break spaces U+00A0, U+2007 and U+202F are never whitespace |
| StringUtils.HasText | spring-data-mongodb/src/main/java/org/springframework/data/mongodb/core/aggregation/GeoNearOperation.java:94 | Spring's `StringUtils.hasText`: non-null, non-empty and not whitespace only; it implies `hasLength` |
| StringUtils.ContainsTextIffNonWhitespace | spring-data-mongodb/src/main/java/org/springframework/data/mongodb/core/aggregation/GeoNearOperation.java:94 | the front-to-back `containsText` scan finds text exactly when some character is not Java whitespace |
| StringUtils.HasTextIff | spring-data-mongodb/src/main/java/org/springframework/data/mongodb/core/aggregation/GeoNearOperation.java:94 | `hasText` holds exactly for a non-null string with a non-whitespace character |
| StringUtils.BlankHasNoText | spring-data-mongodb/src/main/java/org/springframework/data/mongodb/core/aggregation/GeoNearOperation.java:94 | a string made only of whitespace, the empty string included, contains no text |
| ConverterRegistrations.ConverterRegistration.IsReading | spring-data-mongodb/src/test/java/org/springframework/data/mongodb/core/convert/ConverterRegistrationUnitTests.java:35-64 | the chosen rule for `isReading()`, consistent with every assertion of the tests: the reading flag makes a converter reading, and a reading converter is flagged for reading or has a simple source type |
| ConverterRegistrations.ConverterRegistration.IsWriting | spring-data-mongodb/src/test/java/org/springframework/data/mongodb/core/convert/ConverterRegistrationUnitTests.java:35-64 | the chosen rule for `isWriting()`, consistent with every assertion of the tests: the writing flag makes a converter writing, and a writing converter is flagged for writing or has a simple target type |
| ConverterRegistrations.EntityToSimpleIsWriting | spring-data-mongodb/src/test/java/org/springframework/data/mongodb/core/convert/ConverterRegistrationUnitTests.java:34-36 | Person to String with no flags is writing and not reading |
| ConverterRegistrations.SimpleToEntityIsReading | spring-data-mongodb/src/test/java/org/springframework/data/mongodb/core/convert/ConverterRegistrationUnitTests.java:38-40 | String to Person with no flags is reading and not writing |
| ConverterRegistrations.SimpleToSimpleIsBoth | spring-data-mongodb/src/test/java/org/springframework/data/mongodb/core/convert/ConverterRegistrationUnitTests.java:42-44 | String to Class with no flags is both reading and writing |
| ConverterRegistrations.ExplicitWritingForcesWriteOnly | spring-data-mongodb/src/test/java/org/springframework/data/mongodb/core/convert/ConverterRegistrationUnitTests.java:50-52 | the writing flag alone gives writing and suppresses reading, though both types are simple |
| ConverterRegistrations.ExplicitReadingForcesReadOnly | spring-data-mongodb/src/test/java/org/springframework/data/mongodb/core/convert/ConverterRegistrationUnitTests.java:54-56 | the reading flag alone gives reading and suppresses writing |
| ConverterRegistrations.BothFlagsReadAndWrite | spring-data-mongodb/src/test/java/org/springframework/data/mongodb/core/convert/ConverterRegistrationUnitTests.java:62-64 | both flags give both reading and writing |
| ConverterRegistrations.ExplicitFlagsDecide | spring-data-mongodb/src/test/java/org/springframework/data/mongodb/core/convert/ConverterRegistrationUnitTests.java:47-65 | for all types: once any flag is set, reading holds exactly when flagged for reading, and writing exactly when flagged for writing |
| ConverterRegistrations.DefaultsFollowSimplicity | spring-data-mongodb/src/test/java/org/springframework/data/mongodb/core/convert/ConverterRegistrationUnitTests.java:31-45 | for all types: without flags, reading holds exactly when the source is simple, and writing exactly when the target is simple |
| ConverterRegistrations.UnusedIffNothingSimple | spring-data-mongodb/src/test/java/org/springframework/data/mongodb/core/convert/ConverterRegistrationUnitTests.java:31-65 | a converter is used in neither direction exactly when it has no flag and neither type is simple (a consequence of the rule; no test asserts it) |

## Left out

- `NearQuery.toDBObject` and `AggregationOperationContext.getMappedObject` are foreign code. Their results are inputs here: the near-query's document and a mapping function.
- The cast of the mapped object to `BasicDBObject` is not modelled. Nor are its failure (`ClassCastException`) and a null mapped object: the mapping is taken to always return a document.
- Aliasing is not modelled. The source updates the very object the context returned; the model updates a copy of its value.
- Field order is not modelled. `BasicDBObject` keeps insertion order; a Dafny map has none.
- Doubles in documents, such as coordinates and distances, are carried as `real` values (`Bson.Double`). Their IEEE 754 rounding and representation are not modelled; the builder only passes them through. The distance computation itself runs on the server and is left out.
- `StringUtils.IsWhitespace` follows the table of `Character.isWhitespace` from Java 9 on (Unicode 6.3 and later). On Java 8 (Unicode 6.2), U+180E MONGOLIAN VOWEL SEPARATOR is a space separator and counts as whitespace; the model does not count it.
- Java `char` is a UTF-16 code unit, while a Dafny `char` is a Unicode scalar value. So `IsWhitespace` sees no surrogate halves. None of them is whitespace anyway.
- `ConverterRegistration`'s own source is not part of this model. How it decides whether a type is simple is an input.
- `MongoRuntimeHints` is not modelled: it registers native-image reflection hints with no logic of its own.
- `AotMongoRepositoryPostProcessor` and `TestMongoAotRepositoryContext` are not modelled: they are framework wiring for ahead-of-time repository processing.
- `AuditingEntityCallback` is not modelled: it delegates to a lazily resolved auditing handler, and its only mutable state is an order value that defaults to 100.
- `MongoTemplateProducer` is not modelled: it opens a live database connection.
- The `observability` package is not modelled: its `package-info` holds no code.
