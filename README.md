# Family and geometry model

A Dafny model of a small Java exercise. A `Person` has a name and an age. A
`Parent` is a person with an optional spouse and an array of children. A
`Child` is a person with two parents, fixed when it is born, and an array of
siblings. Separately, a `Rectangle` has a length and a width, and a
`RectPrism` adds a height.

All of these are mutable objects, so each becomes a Dafny `class` whose setters
carry `modifies` frames naming the one field they write. The only operations
with a loop are `addChild` and `addSibling`. Each grows its array by one: it
allocates a longer array, copies the old elements with an index loop, writes
the new element into the last slot and reassigns the field. Both call the same
`Arrays.AppendCopy`, whose loop invariant proves the copy.

Java inheritance is modelled by composition. `Parent` and `Child` hold their
`Person` in a `const person` field. `RectPrism` holds its `Rectangle` in a
`const rect` field and forwards the inherited getters and setters to it. Java
references may be null, so `spouse`, `parent1`, `parent2` and the array elements
have nullable types. Java's `int` is the newtype `Primitives.int32`.

Links are never made symmetric. Marrying A to B does not marry B to A. Adding a
sibling or a child records the link on one side only. The contracts state this
outright.

`getChildren` and `getSiblings` return the stored array itself, and the setters
store the caller's array by reference: the model follows the Java code, which
copies nothing.

The module `FamilyScenarios` replays the test suite's scenarios
against the contracts.

Files: `primitives.dfy`, `arrays.dfy`, `people.dfy`, `family.dfy`,
`geometry.dfy`, `family_scenarios.dfy`.

## Model

| member | source | states |
|---|---|---|
| Arrays.AppendCopy | src/main/java/Parent.java:36-40 | the result is a newly allocated array one slot longer than the input, holding the input's elements in order in its prefix and the new element last; the input array is not modified |
| People.Person.constructor | src/test/java/PracticeProblemTest.java:241-247 | a new person has exactly the given name and age |
| People.Person.GetName | src/test/java/PracticeProblemTest.java:244-245 | returns the current name |
| People.Person.GetAge | src/test/java/PracticeProblemTest.java:246-247 | returns the current age |
| People.Person.SetName | src/test/java/PracticeProblemTest.java:250-254 | the name becomes the argument unconditionally and the age is unchanged |
| People.Person.SetAge | src/test/java/PracticeProblemTest.java:251-256 | the age becomes the argument unconditionally, negative values included, and the name is unchanged |
| Family.Parent.constructor | src/main/java/Parent.java:7-11 | the new parent has the given name and age, no spouse, and a fresh empty children array |
| Family.Parent.WithSpouse | src/main/java/Parent.java:13-17 | the new parent has the given name and age, exactly the given spouse, and a fresh empty children array |
| Family.Parent.GetSpouse | src/main/java/Parent.java:19-21 | returns the current spouse reference, null when there is none |
| Family.Parent.SetSpouse | src/main/java/Parent.java:23-25 | only `spouse` changes and it becomes the argument; the other parent's spouse is left as it was, so marriage is not reciprocal |
| Family.Parent.GetChildren | src/main/java/Parent.java:27-29 | returns the stored children array itself, not a copy |
| Family.Parent.SetChildren | src/main/java/Parent.java:31-33 | only `children` changes and it becomes the caller's array itself; that array's contents are not touched |
| Family.Parent.AddChild | src/main/java/Parent.java:35-42 | only `children` changes; its length grows by one, the old children keep their order, the new child goes last with no duplicate check, the new array is newly allocated, and the previous array keeps its old contents |
| Family.Child.constructor | src/main/java/Child.java:7-12 | the new child has the given name, age and two parents, and a fresh empty siblings array |
| Family.Child.GetParent1 | src/main/java/Child.java:14-16 | returns the first parent given at construction; `parent1` is a `const`, so nothing can change it |
| Family.Child.GetParent2 | src/main/java/Child.java:18-20 | returns the second parent given at construction; `parent2` is a `const`, so nothing can change it |
| Family.Child.SetSiblings | src/main/java/Child.java:22-24 | only `siblings` changes and it becomes the caller's array itself; that array's contents are not touched |
| Family.Child.GetSiblings | src/main/java/Child.java:26-28 | returns the stored siblings array itself, not a copy |
| Family.Child.AddSibling | src/main/java/Child.java:30-37 | only `siblings` changes; its length grows by one, the old siblings keep their order, the new sibling goes last, the new array is newly allocated, the previous array keeps its contents, and the added child's own siblings are untouched |
| Geometry.Rectangle.constructor | src/main/java/Rectangle.java:7-10 | the new rectangle has exactly the given length and width |
| Geometry.Rectangle.GetWidth | src/main/java/Rectangle.java:14-16 | returns the current width |
| Geometry.Rectangle.GetLength | src/main/java/Rectangle.java:18-20 | returns the current length |
| Geometry.Rectangle.SetWidth | src/main/java/Rectangle.java:22-24 | the width becomes the argument and the length is unchanged |
| Geometry.Rectangle.SetLength | src/main/java/Rectangle.java:26-28 | the length becomes the argument and the width is unchanged |
| Geometry.RectPrism.constructor | src/main/java/RectPrism.java:12-21 | the new prism's rectangle part is built with the given length and width, and its height is the third argument |
| Geometry.RectPrism.GetHeight | src/main/java/RectPrism.java:45-47 | returns the current height |
| Geometry.RectPrism.SetHeight | src/main/java/RectPrism.java:49-51 | the height becomes the argument; length and width are unchanged |
| Geometry.RectPrism.GetWidth | src/main/java/Rectangle.java:14-16 | the inherited getter returns the prism's current width |
| Geometry.RectPrism.GetLength | src/main/java/Rectangle.java:18-20 | the inherited getter returns the prism's current length |
| Geometry.RectPrism.SetWidth | src/main/java/Rectangle.java:22-24 | the inherited setter sets the width and leaves the length and the height unchanged |
| Geometry.RectPrism.SetLength | src/main/java/Rectangle.java:26-28 | the inherited setter sets the length and leaves the width and the height unchanged |
| FamilyScenarios.PersonAccessors | src/test/java/PracticeProblemTest.java:241-256 | the getters report the constructor's name and age, then the values given to the setters |
| FamilyScenarios.MarryBothWays | src/test/java/PracticeProblemTest.java:373-389 | after `setSpouse` on both sides each parent's spouse is the other |
| FamilyScenarios.SpouseIsOneWay | src/main/java/Parent.java:13-25 | one `setSpouse` call, or the three-argument constructor, links one side only |
| FamilyScenarios.FirstChild | src/test/java/PracticeProblemTest.java:395-418 | a child added to both parents is the only entry of both children arrays (the father's list as fetched, the mother's at the end) and keeps its parents; the two parents hold different arrays, so a write through the father's leaves the mother's list alone |
| FamilyScenarios.TwoChildren | src/test/java/PracticeProblemTest.java:554-615 | mutual `addSibling` calls make each child the other's only sibling; two `addChild` calls list the children in the order added |
| FamilyScenarios.SiblingIsOneWay | src/main/java/Child.java:30-37 | one `addSibling` call leaves the added child without siblings |
| FamilyScenarios.EarlierArrayKeepsOldChildren | src/main/java/Parent.java:35-42 | an array fetched after one `addChild` still holds just that child after a second `addChild`, while the parent now returns a different array holding both in order |
| FamilyScenarios.ChildrenInOrderAdded | src/main/java/Parent.java:35-42 | any sequence of `addChild` calls on a new parent leaves exactly the added children, in the order added, duplicates and nulls included |
| FamilyScenarios.ArraysAreShared | src/main/java/Parent.java:27-33 | an array passed to `setChildren` and `setSiblings` is stored by reference, so writes through it show in both entities |

## Left out

- The reflection-based test harness in `src/test/java/PracticeProblemTest.java`, which checks class shape (field types, method signatures, the absence of `setParent1`/`setParent2`) by `java.lang.reflect`. Its behavioural assertions are replayed in `FamilyScenarios`. The absence of parent setters is modelled by `parent1` and `parent2` being `const`.
- `Person.java` is not part of this model. `People.Person` holds only the name and age accessors that the tests exercise, with no validation. Names are `string` values and so can never be null, whereas Java would accept a null `String`.
- Null arrays: `setChildren(null)` and `setSiblings(null)` are accepted by the Java code and make a later `addChild`/`addSibling` throw. The model's array fields are non-null, so these calls cannot be expressed.
- Object identity under inheritance: in Java a `Parent` is itself a `Person` and a `RectPrism` is itself a `Rectangle`. In the model each holds its base part in a separate `const` object, so `setName` on a parent writes `person`, not the parent object.
- Array lengths are unbounded in the model. In Java, `children.length + 1` and `siblings.length + 1` would overflow at `Integer.MAX_VALUE`, though the JVM's array size limit makes that length unreachable.
- Relational consistency between spouses, between parents and children, and between siblings. The Java code never enforces it and the model adds no such invariant.
- The unused `java.util.ArrayList` import in `Parent.java` and the commented-out code in `RectPrism.java`.
