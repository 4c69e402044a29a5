# Consumer: the planning entity of the facility-location solver

This project models `Consumer`, the planning entity of a Capacitated Facility
Location solver. A consumer has a fixed `id`, a `location` and a `demand` that
its setters overwrite, and an optional `facility`: the single field the
search engine reassigns. Java `null` is modelled by Dafny's nullable class
references (`Facility?`, `Location?`), `long` by the 64-bit newtype
`Domain.Long`, and the `IllegalStateException` of `distanceFromFacility` by
the `Failure` arm of a `Result` carrying the exception's message.

Modules:

- `Wrappers` — `Option` and `Result`.
- `Decimal` — the decimal text Java produces when a `long` is concatenated to a
  string, and a parser that reads it back.
- `Domain` — `Location`, `Facility`, the `Consumer` class, the text format of
  `toString` and its parser.

Consumer's methods that overwrite a field are methods with a one-field
`modifies` frame (`modifies this`demand`); its queries, getters and
`toString` are functions that only `reads this`, so they cannot change state.
`id` is a `const`: it has no setter and cannot change after construction.

`Location.getDistanceTo` is not part of this model. `DistanceFromFacility`
takes it as a parameter `distanceTo`, called with the facility's location as
the receiver and the consumer's location as the argument. As a Dafny function
value it is deterministic, free of side effects and total; beyond that no
property is assumed: not symmetry, not non-negativity, not the triangle
inequality.

## Model

| member | source | states |
|---|---|---|
| `Domain.Consumer.Empty` | use-cases/facility-location/src/main/java/org/acme/facilitylocation/domain/Consumer.java:43-44 | the no-argument constructor leaves id and demand 0, location null and the consumer unassigned |
| `Domain.Consumer.constructor` | use-cases/facility-location/src/main/java/org/acme/facilitylocation/domain/Consumer.java:46-50 | a consumer built from (id, location, demand) holds exactly those values, has no facility and is not assigned |
| `Domain.Consumer.IsAssigned` | use-cases/facility-location/src/main/java/org/acme/facilitylocation/domain/Consumer.java:52-54 | true exactly when a facility is present; reads the consumer and changes nothing |
| `Domain.Consumer.DistanceFromFacility` | use-cases/facility-location/src/main/java/org/acme/facilitylocation/domain/Consumer.java:61-66 | succeeds exactly when the consumer is assigned; otherwise fails with IllegalState("No facility is assigned."); on success the value is the distance from the facility's location to the consumer's location, in that argument order; changes nothing |
| `Domain.Consumer.GetId` | use-cases/facility-location/src/main/java/org/acme/facilitylocation/domain/Consumer.java:68-70 | returns the stored id, without side effects |
| `Domain.Consumer.GetLocation` | use-cases/facility-location/src/main/java/org/acme/facilitylocation/domain/Consumer.java:72-74 | returns the stored location, without side effects |
| `Domain.Consumer.SetLocation` | use-cases/facility-location/src/main/java/org/acme/facilitylocation/domain/Consumer.java:76-78 | afterwards getLocation returns the new location; only the location field may change, demand and facility keep their values |
| `Domain.Consumer.GetDemand` | use-cases/facility-location/src/main/java/org/acme/facilitylocation/domain/Consumer.java:80-82 | returns the stored demand, without side effects |
| `Domain.Consumer.SetDemand` | use-cases/facility-location/src/main/java/org/acme/facilitylocation/domain/Consumer.java:84-86 | afterwards getDemand returns the new demand, any long accepted; only the demand field may change |
| `Domain.Consumer.GetFacility` | use-cases/facility-location/src/main/java/org/acme/facilitylocation/domain/Consumer.java:88-90 | returns the stored facility, which is non-null exactly when the consumer is assigned |
| `Domain.Consumer.SetFacility` | use-cases/facility-location/src/main/java/org/acme/facilitylocation/domain/Consumer.java:92-94 | afterwards getFacility returns the argument and isAssigned holds exactly when it is non-null, so setting null unassigns; only the facility field may change |
| `Domain.ReassignAndUndo` | use-cases/facility-location/src/main/java/org/acme/facilitylocation/domain/Consumer.java:88-94 | reading the facility, setting another one and setting the one read back restores every field of the consumer |
| `Domain.Consumer.ToString` | use-cases/facility-location/src/main/java/org/acme/facilitylocation/domain/Consumer.java:97-99 | the text starts with "Consumer " and the id and demand read back from it are exactly the consumer's |
| `Domain.ConsumerTextRoundTrip` | use-cases/facility-location/src/main/java/org/acme/facilitylocation/domain/Consumer.java:98 | parsing "Consumer " + id + " (" + demand + " dem)" gives back (id, demand) for every pair of integers |
| `Domain.ConsumerTextInjective` | use-cases/facility-location/src/main/java/org/acme/facilitylocation/domain/Consumer.java:98 | two consumers with the same text have the same id and the same demand |
| `Decimal.NaturalString` | use-cases/facility-location/src/main/java/org/acme/facilitylocation/domain/Consumer.java:98 | the decimal digits of a non-negative number are non-empty, all digits, and start with '0' only for zero |
| `Decimal.DecimalString` | use-cases/facility-location/src/main/java/org/acme/facilitylocation/domain/Consumer.java:98 | the decimal text of a long starts with '-' exactly when the number is negative, is otherwise made of digits, and has no leading zero (only "0" itself starts with '0') |
| `Decimal.NaturalStringValue` | use-cases/facility-location/src/main/java/org/acme/facilitylocation/domain/Consumer.java:98 | the digits of a non-negative number read back as that number |
| `Decimal.DecimalRoundTrip` | use-cases/facility-location/src/main/java/org/acme/facilitylocation/domain/Consumer.java:98 | parsing the decimal text of any integer gives back that integer |
| `Decimal.DecimalStringInjective` | use-cases/facility-location/src/main/java/org/acme/facilitylocation/domain/Consumer.java:98 | distinct integers have distinct decimal texts |

## Left out

- The OptaPlanner annotations `@PlanningEntity` and `@PlanningVariable` (lines 20-21, 33, 40): framework reflection hooks with no behaviour of their own; the value range they name is not modelled.
- `Location.getDistanceTo`: its body is not part of this model; it is the parameter `distanceTo` of `DistanceFromFacility`, assumed deterministic, free of side effects and total, with no property beyond those.
- DistanceFromFacility: `distanceTo` is total, so a failure inside `getDistanceTo` (for example an exception on a null consumer location, reachable through the no-argument constructor or `setLocation(null)`) is not modelled; an assigned consumer always gets a distance.
- `Location`'s coordinates: `Location` is an empty class, compared by reference only.
- `Facility` beyond `getLocation`: its id, capacity and setup cost are not part of this model; its location is a non-null constant, so a facility whose `getLocation()` returns null (a `NullPointerException` at line 65) is not modelled.
- `FacilityLocationConstraintProvider` and the solver (lines 19, 27-31): the scoring, moves and search are in files that are not part of this model.
- The search engine that reassigns consumers and undoes its moves is not part of this model; `Domain.ReassignAndUndo` shows only what an undo on one consumer achieves.
