# Facade pattern, modelled in Dafny

This project models the Facade design pattern as `Facade/Facade.cpp` implements it.

- `Subsystem1` and `Subsystem2` are stateless classes. Each has two operations, and each operation returns one fixed line of text.
- `Facade` holds one instance of each subsystem. Its constructor takes two optional subsystem pointers. For each slot it keeps the object that was supplied, or creates a default instance when the pointer is null.
- `Facade::Operation` builds its report by appending to a local string, in this order:
  1. a header line;
  2. the "ready" reply of Subsystem1;
  3. the "get ready" reply of Subsystem2;
  4. a second header line;
  5. the "go" reply of Subsystem1;
  6. the "fire" reply of Subsystem2.

Files:

- `text.dfy` (module `Text`) holds newline-terminated text.
  - `Lines` splits text into lines and `Unlines` joins lines back together.
  - The lemmas prove that the two round-trip, and that joining a prefix of the lines gives a prefix of the text.
- `facade.dfy` (module `FacadePattern`) holds the three classes and two client methods.
  - The subsystems are classes without fields. Their operations are functions with no `reads` clause, so they can neither read nor change any state.
  - `Facade` has two nullable fields, like the C++ pointers. `Valid()` is the invariant that both fields are non-null.
  - The constructor takes nullable parameters that default to `null`, mirroring `= nullptr`.
  - `Operation` has no `modifies` clause, so it changes nothing. Its `ensures` pin the exact report against `ExpectedLines`, a reference transcript of the six lines written out literally.

## Model

| member | source | states |
|---|---|---|
| `FacadePattern.Subsystem1.Operation1` | Facade/Facade.cpp:22-25 | reads no state; returns a single newline-terminated line, spoken by "Subsystem1", equal to the second line of the report |
| `FacadePattern.Subsystem1.OperationN` | Facade/Facade.cpp:28-31 | reads no state; returns a single newline-terminated line, spoken by "Subsystem1", equal to the fifth line of the report |
| `FacadePattern.Subsystem2.Operation1` | Facade/Facade.cpp:38-41 | reads no state; returns a single newline-terminated line, spoken by "Subsystem2", equal to the third line of the report |
| `FacadePattern.Subsystem2.OperationZ` | Facade/Facade.cpp:44-47 | reads no state; returns a single newline-terminated line, spoken by "Subsystem2", equal to the sixth line of the report |
| `FacadePattern.Facade.constructor` | Facade/Facade.cpp:65-69 | both fields are non-null afterwards; a supplied subsystem is kept as that same object; a null argument yields a freshly allocated subsystem |
| `FacadePattern.Facade.Operation` | Facade/Facade.cpp:79-88 | with both fields non-null, the result is exactly the six expected lines joined in order; splitting it gives back those lines, so the order of the delegated calls is fixed; every partial report after k appends is a prefix of the result; the facade keeps its invariant and nothing is modified |
| `FacadePattern.OperationTwice` | Facade/Facade.cpp:79-88 | two calls of Operation on the same facade return the same string and leave the facade valid |
| `FacadePattern.ConstructionPathsAgree` | Facade/Facade.cpp:65-88 | for any combination of supplied and null subsystems, the report equals that of a facade built with neither, and splits into the expected lines |
| `Text.LinesOfUnlines` | Facade/Facade.cpp:81-87 | splitting the joined report recovers exactly the lines that were joined, in order, when no line holds a newline of its own |
| `Text.UnlinesPrefix` | Facade/Facade.cpp:81-86 | joining the first k lines gives a prefix of joining all of them, so each `+=` step extends the previous partial result |
| `Text.LinesAppend` | Facade/Facade.cpp:82-86 | appending text after a whole line adds that text's lines after the earlier ones and leaves the earlier lines as they were |

## Left out

- The destructor (`Facade/Facade.cpp:71-75`) and all `delete`s. Dafny's heap is garbage-collected, so releasing an object cannot be expressed. As a result, the "released exactly once" ownership contract is not modelled.
- The memory-safety hazards of the C++ code are not modelled, for the same reason. They are:
  - the caller and the facade both own a supplied subsystem;
  - `facade2` in `main` is never deleted.
- `ClientCode` and `main` (`Facade/Facade.cpp:94-120`) write to standard output and are not modelled. `ConstructionPathsAgree` states the claim the two demo scenarios illustrate: supplied and default-created subsystems give the same report.
- The C++ `protected` access of the two fields has no counterpart: Dafny fields here are visible to the whole module.
