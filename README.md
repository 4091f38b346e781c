# JavaVersion and Person, modelled in Dafny

This project models two classes of a small Java repository that extends
Apache Commons Lang.

- `JavaVersion` is an enum of the Java specification versions, 0.9 and 1.1 .. 1.8 and 9 .. 21. Each constant
  carries a float weight and a standard name. `atLeast` compares weights,
  `toString` gives the name, and `get` / `getJavaVersion` turn a version string
  into a constant. `get` first tries an exact match against the 22 names. If none matches it rejects
  unknown `"1."` versions, and otherwise parses the string as a float: below 9 is
  unknown, `[n, n+1)` gives Java n, and 21 or more is clamped to Java 21.
- `Person` has a name, an age that must stay in 0 .. 150, and a smoker flag. `updateAge`
  throws `IllegalArgumentException` on an out-of-range age before assigning anything.

`JavaVersion.dfy` (module `JavaVersions`) is pure: a datatype for the enum and
functions and lemmas. Weights are integers in tenths (1.5f is 15, 21.0f is
210): the source only compares them. `Float.parseFloat` is a parameter
`parseFloat: string -> Option<real>`, where `None` stands for a
`NumberFormatException`. A Java `null` argument is `None` in
`Get(nom: Option<string>, …)`. Its outcome is `NullPointerException`: the null
passes the `nom != null && nom.startsWith("1.")` guard and reaches
`Float.parseFloat(null)`, which throws an exception that the
`NumberFormatException` handler does not catch. Weights do not increase
strictly in declaration order: `JAVA_0_9` weighs 1.5f, as `JAVA_1_5` does
(see `WeightsAlongCatalog` and `AtLeastNotAntisymmetric`). A null argument
throws instead of returning null (see `Get`).

`Person.dfy` (module `Persons`) is imperative: a class `Person` with the
fields `name`, `age` and `smoker`, and the invariant `Valid()` (age in range).
Java's `int` is the newtype `int32`. An exception is an `Outcome` result.
The three-argument constructor can throw, so it is the static method
`Create`, which returns `null` and `IllegalArgument` on failure. The pure
function `AgeAfterUpdate` specifies `UpdateAge`, and `AgeAfterUpdates` folds
it over a run of calls. The lemmas about runs of updates are stated on that
function.

## Model

| member | source | states |
|---|---|---|
| `JavaVersions.JavaVersion.Weight` | src/main/java/org/apache/commons/lang3/JavaVersion.java:32-157 | legacy constants weigh 1.1 .. 1.8 (below 9), modern ones a whole number from 9 to 21; the order along the catalog is in `WeightsAlongCatalog` |
| `JavaVersions.JavaVersion.ToString` | src/main/java/org/apache/commons/lang3/JavaVersion.java:297-299 | a name is dotted exactly for the legacy constants and starts with "1." exactly for 1.1 .. 1.8; `GetRoundTrip` and `NamesDistinct` state the round trip |
| `JavaVersions.JavaVersion.AtLeast` | src/main/java/org/apache/commons/lang3/JavaVersion.java:169-171 | apart from JAVA_0_9, a.atLeast(b) holds exactly when a is declared no earlier than b; the order laws are in the `AtLeast*` lemmas |
| `JavaVersions.ExactMatch` | src/main/java/org/apache/commons/lang3/JavaVersion.java:197-240 | the chain yields `v` exactly when the string is `v`'s name (both directions) |
| `JavaVersions.Ladder` | src/main/java/org/apache/commons/lang3/JavaVersion.java:252-281 | unknown exactly below 9; never a legacy constant; on [9, 21) the constant of weight floor(x); from 21 on, Java21 |
| `JavaVersions.Get` | src/main/java/org/apache/commons/lang3/JavaVersion.java:196-286 | throws NullPointerException exactly on null input; a legacy constant is returned only for its own name |
| `JavaVersions.GetJavaVersion` | src/main/java/org/apache/commons/lang3/JavaVersion.java:183-185 | getJavaVersion(s) equals get(s) for every s |
| `JavaVersions.CatalogListsEveryConstantOnce` | src/main/java/org/apache/commons/lang3/JavaVersion.java:32-137 | the catalog has 22 entries, holds every constant at its ordinal and repeats none |
| `JavaVersions.NamesDistinct` | src/main/java/org/apache/commons/lang3/JavaVersion.java:32-137 | two constants have the same name exactly when they are the same constant |
| `JavaVersions.WeightsAlongCatalog` | src/main/java/org/apache/commons/lang3/JavaVersion.java:32-137 | weights increase strictly from the second entry on; JAVA_0_9 weighs as much as JAVA_1_5 and more than JAVA_1_1 |
| `JavaVersions.AtLeastReflexive` | src/main/java/org/apache/commons/lang3/JavaVersion.java:169-171 | every version is at least itself |
| `JavaVersions.AtLeastTransitive` | src/main/java/org/apache/commons/lang3/JavaVersion.java:169-171 | atLeast is transitive |
| `JavaVersions.AtLeastTotal` | src/main/java/org/apache/commons/lang3/JavaVersion.java:169-171 | of any two versions, one is at least the other |
| `JavaVersions.AtLeastNotAntisymmetric` | src/main/java/org/apache/commons/lang3/JavaVersion.java:32-57 | JAVA_0_9 and JAVA_1_5 are distinct yet each is at least the other |
| `JavaVersions.GetRoundTrip` | src/main/java/org/apache/commons/lang3/JavaVersion.java:197-240 | get(c.toString()) is c for every constant c |
| `JavaVersions.GetLegacyPrefix` | src/main/java/org/apache/commons/lang3/JavaVersion.java:247-249 | a "1."-prefixed string never throws and resolves to a constant exactly when it is one of "1.1" .. "1.8" |
| `JavaVersions.GetUnparsable` | src/main/java/org/apache/commons/lang3/JavaVersion.java:250-284 | a non-matching, non-"1." string that does not parse resolves to null |
| `JavaVersions.GetNumeric` | src/main/java/org/apache/commons/lang3/JavaVersion.java:251-281 | a non-matching, non-"1." string parsing to x gives null below 9, the constant of weight floor(x) on [9, 21), Java21 from 21 |
| `JavaVersions.GetLegacyOnlyByName` | src/main/java/org/apache/commons/lang3/JavaVersion.java:197-214 | whenever get returns a legacy constant, the exact-match chain produced it |
| `JavaVersions.LadderMonotone` | src/main/java/org/apache/commons/lang3/JavaVersion.java:255-281 | a larger parsed value never resolves to an older constant |
| `JavaVersions.LadderOnWeight` | src/main/java/org/apache/commons/lang3/JavaVersion.java:255-281 | each modern constant is the ladder's answer on its own weight |
| `JavaVersions.GetExamples` | src/main/java/org/apache/commons/lang3/JavaVersion.java:247-284 | "1.9", "5", "8.5", "" and "abc" are unknown; "9.5" gives JAVA_9, "10.9" JAVA_10, "999" JAVA_21; null throws |
| `Persons.AgeAfterUpdate` | src/main/java/org/apache/commons/lang3/Person.java:96-103 | a valid request becomes the age; an invalid one leaves it; a valid age stays valid |
| `Persons.AgeAfterUpdatesSnoc` | src/main/java/org/apache/commons/lang3/Person.java:96-103 | a run of updates followed by one more is that update applied to the age the run left |
| `Persons.UpdatesKeepAgeValid` | src/main/java/org/apache/commons/lang3/Person.java:33-38 | no run of updates takes a valid age out of 0 .. 150 |
| `Persons.UpdatesEndAtLastValid` | src/test/java/org/apache/commons/lang3/PersonUpdateAgeBoundaryTest.java:141-172 | after a run of updates the age is the last valid request, or the starting age if none was valid |
| `Persons.ValidUpdatesEndAtLast` | src/test/java/org/apache/commons/lang3/PersonUpdateAgeBoundaryTest.java:141-154 | after a non-empty run of valid updates the age is the last value supplied |
| `Persons.AgeBoundaries` | src/test/java/org/apache/commons/lang3/PersonUpdateAgeBoundaryTest.java:38-194 | 0, 1, 149, 150 are valid ages; -1, 151, Integer.MIN_VALUE and Integer.MAX_VALUE are not |
| `Persons.Person.constructor` | src/main/java/org/apache/commons/lang3/Person.java:58-62 | the default person has age 0, name "" and is not a smoker, and satisfies the invariant |
| `Persons.Person.Create` | src/main/java/org/apache/commons/lang3/Person.java:72-76 | succeeds exactly for ages 0 .. 150, then with the given name, age and smoker flag; otherwise fails with no person |
| `Persons.Person.GetAge` | src/main/java/org/apache/commons/lang3/Person.java:83-85 | returns the current age, which is in range |
| `Persons.Person.UpdateAge` | src/main/java/org/apache/commons/lang3/Person.java:96-103 | fails exactly for ages outside 0 .. 150; the new age is AgeAfterUpdate of the old; only the age may change; keeps the invariant |
| `Persons.UpdateAgeMultipleTimes` | src/test/java/org/apache/commons/lang3/PersonUpdateAgeBoundaryTest.java:141-154 | updating to 0, 25, 150, 1 reads back 0, 25, 150, 1 |
| `Persons.InvalidUpdateKeepsAge` | src/test/java/org/apache/commons/lang3/PersonUpdateAgeBoundaryTest.java:161-172 | updating to 151 after 30 fails and the age stays 30 |
| `Persons.ConstructorBoundaries` | src/test/java/org/apache/commons/lang3/PersonUpdateAgeBoundaryTest.java:200-222 | the constructor accepts ages 0 and 150 and rejects -1 and 151 |

## Left out

- `Float.parseFloat` itself is not modelled. It is a parameter, so whitespace trimming, forms such as `"9f"`, `"1e1"` and `"Infinity"`, and float rounding (`"9.99999999"` reads as 10.0f) are whatever the parameter does.
- NaN is left out: the parameter returns a real, which cannot be NaN or infinite. In Java, `"NaN"` fails every `<` test and resolves to JAVA_21.
- Weights are integers in tenths, not IEEE floats. This is exact, because the source only compares them.
- `Person.toString` and the text of the exception message are string formatting and are not modelled. A failure is the outcome `IllegalArgument`.
- The public fields `name` and `smoker` can be assigned directly by any caller. The model has no operation for that, because it does not affect the age invariant.
- `server.py` is process, git and file plumbing, which is I/O. The `DateUtils` and `App` tests exercise classes that are not part of this model.
